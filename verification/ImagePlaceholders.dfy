/**
 The HTML sanitizer on trees: what it keeps of a document, and how remote images are replaced by
 inert placeholders that can be activated later.
 */
module ImagePlaceholders {
  import opened HtmlText
  import opened Options

  /** Attribute names, which are compared without regard to case. */
  datatype Key =
    | Class | Id | Style | Dir | Lang | Align | Valign | Bgcolor | Border | Cellpadding | Cellspacing | Width | Height
    | Title | Href | Rel | Colspan | Rowspan | Src | RemoteSrc | Alt | Media
    | OtherKey(name: string)

  /** Element names, in lower case. */
  datatype Tag =
    | A | B | Blockquote | Br | Code | Del | Div | Em | H1 | H2 | H3 | H4 | H5 | H6 | Hr | I | Li | Ol | P | Pre | S
    | Span | Strong | Table | Tbody | Td | Tfoot | Th | Thead | Tr | U | Ul
    | Img | StyleSheet | Link
    | Applet | Audio | Base | Button | Canvas | Embed | Form | Frame | Frameset | Iframe | Input | Math | Meta
    | Object | Script | Select | Source | Svg | Textarea | Video
    | OtherTag(name: string)

  predicate IsDropped(tag: Tag) {
    match tag
    case Applet | Audio | Base | Button | Canvas | Embed | Form | Frame | Frameset | Iframe | Input | Link | Math
       | Meta | Object | Script | Select | Source | StyleSheet | Svg | Textarea | Video => true
    case _ => false
  }

  predicate IsAllowed(tag: Tag) {
    match tag
    case A | B | Blockquote | Br | Code | Del | Div | Em | H1 | H2 | H3 | H4 | H5 | H6 | Hr | I | Li | Ol | P | Pre
       | S | Span | Strong | Table | Tbody | Td | Tfoot | Th | Thead | Tr | U | Ul => true
    case _ => false
  }

  datatype Attr = Attr(key: Key, value: string)

  /** Siblings are linked by `next`; comments and doctypes are `Ignored`. */
  datatype Node =
    | Text(data: string)
    | Element(tag: Tag, attrs: seq<Attr>, children: Siblings)
    | Ignored
  datatype Siblings = End | Sibling(node: Node, next: Siblings)

  datatype Scheme = Http | Https | Mailto

  const STYLESHEET := "stylesheet"
  const FOLLOW := "nofollow noopener noreferrer"

  /**
   What the sanitizer asks of the libraries: whether a value lists a word, and the normal form of an
   absolute URL with one of the schemes.
   */
  datatype Library = Library(hasWord: (string, string) -> bool, normalize: (string, set<Scheme>) -> Option<string>) {
    /** A URL in normal form is its own; the empty value is none. */
    ghost predicate Valid() {
      && hasWord(STYLESHEET, STYLESHEET)
      && (forall schemes :: normalize("", schemes) == None)
      && (forall v, schemes :: normalize(v, schemes).Some? ==>
            normalize(normalize(v, schemes).value, schemes) == normalize(v, schemes))
    }

    function Url(value: string, schemes: set<Scheme>): string {
      match normalize(value, schemes)
      case None => ""
      case Some(normal) => normal
    }
  }

  // ---- attributes ----

  /** The value of the first attribute of this name; empty without one. */
  function Attribute(attrs: seq<Attr>, key: Key): string {
    if attrs == [] then "" else if attrs[0].key == key then attrs[0].value else Attribute(attrs[1..], key)
  }

  /** An attribute for every key with a value, in the order of the keys. */
  function Build(keys: seq<Key>, value: Key -> string): seq<Attr> {
    if keys == [] then []
    else (if value(keys[0]) != "" then [Attr(keys[0], value(keys[0]))] else []) + Build(keys[1..], value)
  }

  /** What was built for a key is what a lookup finds, and nothing is found for any other. */
  lemma {:induction false} BuiltAttribute(keys: seq<Key>, value: Key -> string, key: Key)
    ensures Attribute(Build(keys, value), key) == if key in keys then value(key) else ""
  {
    if keys != [] {
      BuiltAttribute(keys[1..], value, key);
      assert key in keys <==> key == keys[0] || key in keys[1..];
      var rest := Build(keys[1..], value);
      if value(keys[0]) != "" {
        assert Build(keys, value)[1..] == rest;
      } else {
        assert Build(keys, value) == rest;
      }
    }
  }

  lemma {:induction false} SameValuesBuildSame(keys: seq<Key>, v: Key -> string, w: Key -> string)
    requires forall k :: k in keys ==> v(k) == w(k)
    ensures Build(keys, v) == Build(keys, w)
  {
    if keys != [] {
      SameValuesBuildSame(keys[1..], v, w);
    }
  }

  const PRESENTATION: seq<Key> :=
    [Class, Id, Style, Dir, Lang, Align, Valign, Bgcolor, Border, Cellpadding, Cellspacing, Width, Height]

  const ANCHOR_KEYS: seq<Key> := [Href, Rel]
  const SPAN_KEYS: seq<Key> := [Colspan, Rowspan]

  function ElementKeys(tag: Tag): seq<Key> {
    PRESENTATION + [Title] + (if tag == A then ANCHOR_KEYS else [])
    + (if tag == Td || tag == Th then SPAN_KEYS else [])
  }

  function SpanOrNothing(value: string): string {
    if IsUint(value, 0x100) && Digits(value) > 0 then value else ""
  }

  const ANCHOR_SCHEMES := {Http, Https, Mailto}

  function ElementValue(lib: Library, attrs: seq<Attr>, key: Key): string {
    match key
    case Href => lib.Url(Attribute(attrs, Href), ANCHOR_SCHEMES)
    case Rel => if lib.Url(Attribute(attrs, Href), ANCHOR_SCHEMES) != "" then FOLLOW else ""
    case Colspan | Rowspan => SpanOrNothing(Attribute(attrs, key))
    case _ => CleanText(Attribute(attrs, key))
  }

  function ElementAttributes(lib: Library, keys: seq<Key>, attrs: seq<Attr>): seq<Attr> {
    Build(keys, k => ElementValue(lib, attrs, k))
  }

  function CleanAttributes(lib: Library, tag: Tag, attrs: seq<Attr>): seq<Attr> {
    ElementAttributes(lib, ElementKeys(tag), attrs)
  }

  const IMAGE_TEXT: seq<Key> := [Alt, Title, Width, Height, Class, Id, Style, Dir, Lang, Align]

  function AddressKey(allow: bool): Key {
    if allow then Src else RemoteSrc
  }

  function SizeOrNothing(value: string): string {
    if IsUint(value, 0x1_0000) then value else ""
  }

  function ImageValue(source: string, attrs: seq<Attr>, key: Key): string {
    match key
    case Src | RemoteSrc => source
    case Width | Height => SizeOrNothing(CleanText(Attribute(attrs, key)))
    case _ => CleanText(Attribute(attrs, key))
  }

  /** The address of the image: its source, or when placeholders are accepted the one a placeholder holds. */
  function ImageSource(lib: Library, placeholders: bool, attrs: seq<Attr>): Option<string> {
    var source := lib.normalize(Attribute(attrs, Src), {Https});
    if source.None? && placeholders then lib.normalize(Attribute(attrs, RemoteSrc), {Https}) else source
  }

  function ImageAttributes(allow: bool, source: string, texts: seq<Key>, attrs: seq<Attr>): seq<Attr> {
    Build([AddressKey(allow)] + texts, k => ImageValue(source, attrs, k))
  }

  function StyleAttributes(attrs: seq<Attr>): seq<Attr> {
    Build([Media], k => CleanText(Attribute(attrs, k)))
  }

  function LinkValue(lib: Library, attrs: seq<Attr>, key: Key): string {
    match key
    case Rel => STYLESHEET
    case Href => lib.Url(Attribute(attrs, Href), {Https})
    case _ => CleanText(Attribute(attrs, key))
  }

  const LINK_KEYS: seq<Key> := [Rel, Href, Media]

  function LinkAttributes(lib: Library, keys: seq<Key>, attrs: seq<Attr>): seq<Attr> {
    Build(keys, k => LinkValue(lib, attrs, k))
  }

  // ---- the sanitizer as a function ----

  function Append(f: Siblings, g: Siblings): Siblings {
    match f
    case End => g
    case Sibling(node, next) => Sibling(node, Append(next, g))
  }

  function Only(node: Node): Siblings {
    Sibling(node, End)
  }

  function Texts(f: Siblings): Siblings {
    match f
    case End => End
    case Sibling(Text(data), next) => Sibling(Text(data), Texts(next))
    case Sibling(_, next) => Texts(next)
  }

  datatype Mode = Mode(allow: bool, placeholders: bool)

  function CleanImage(lib: Library, mode: Mode, attrs: seq<Attr>): Siblings {
    match ImageSource(lib, mode.placeholders, attrs)
    case None => End
    case Some(source) => Only(Element(Img, ImageAttributes(mode.allow, source, IMAGE_TEXT, attrs), End))
  }

  function CleanStyle(attrs: seq<Attr>, children: Siblings): Siblings {
    Only(Element(StyleSheet, StyleAttributes(attrs), Texts(children)))
  }

  function CleanLink(lib: Library, attrs: seq<Attr>): Siblings {
    if lib.hasWord(Attribute(attrs, Rel), STYLESHEET) && lib.normalize(Attribute(attrs, Href), {Https}).Some? then
      Only(Element(Link, LinkAttributes(lib, LINK_KEYS, attrs), End))
    else
      End
  }

  function Clean(lib: Library, mode: Mode, node: Node): Siblings {
    match node
    case Text(data) => Only(Text(data))
    case Ignored => End
    case Element(tag, attrs, children) =>
      if tag == Img then CleanImage(lib, mode, attrs)
      else if tag == StyleSheet then CleanStyle(attrs, children)
      else if tag == Link then CleanLink(lib, attrs)
      else if IsDropped(tag) then End
      else if !IsAllowed(tag) then CleanAll(lib, mode, children)
      else Only(Element(tag, CleanAttributes(lib, tag, attrs), CleanAll(lib, mode, children)))
  }

  function CleanAll(lib: Library, mode: Mode, f: Siblings): Siblings {
    match f
    case End => End
    case Sibling(node, next) => Append(Clean(lib, mode, node), CleanAll(lib, mode, next))
  }

  /** Whether cleaning reports that a remote image was held back. */
  predicate HoldsBack(lib: Library, mode: Mode, node: Node) {
    match node
    case Element(tag, attrs, children) =>
      if tag == Img then
        if ImageSource(lib, mode.placeholders, attrs).Some? then !mode.allow else Attribute(attrs, Src) != ""
      else !IsDropped(tag) && HoldsBackIn(lib, mode, children)
    case _ => false
  }

  predicate HoldsBackIn(lib: Library, mode: Mode, f: Siblings) {
    match f
    case End => false
    case Sibling(node, next) => HoldsBack(lib, mode, node) || HoldsBackIn(lib, mode, next)
  }

  // ---- cleaning what is clean ----

  lemma {:induction false} AppendAssociates(f: Siblings, g: Siblings, h: Siblings)
    ensures Append(Append(f, g), h) == Append(f, Append(g, h))
  {
    match f
    case End =>
    case Sibling(_, next) => AppendAssociates(next, g, h);
  }

  lemma {:induction false} AppendEnd(f: Siblings)
    ensures Append(f, End) == f
  {
    match f
    case End =>
    case Sibling(_, next) => AppendEnd(next);
  }

  lemma {:induction false} CleanAllJoins(lib: Library, mode: Mode, f: Siblings, g: Siblings)
    ensures CleanAll(lib, mode, Append(f, g)) == Append(CleanAll(lib, mode, f), CleanAll(lib, mode, g))
  {
    match f
    case End =>
    case Sibling(node, next) =>
      CleanAllJoins(lib, mode, next, g);
      AppendAssociates(Clean(lib, mode, node), CleanAll(lib, mode, next), CleanAll(lib, mode, g));
  }

  lemma CleanOnly(lib: Library, mode: Mode, node: Node)
    ensures CleanAll(lib, mode, Only(node)) == Clean(lib, mode, node)
  {
    AppendEnd(Clean(lib, mode, node));
  }

  lemma {:induction false} TextsStay(lib: Library, f: Siblings)
    ensures Texts(Texts(f)) == Texts(f)
  {
    match f
    case End =>
    case Sibling(_, next) => TextsStay(lib, next);
  }

  lemma ElementValueStays(lib: Library, attrs: seq<Attr>, kept: seq<Attr>, key: Key)
    requires lib.Valid() && Attribute(kept, key) == ElementValue(lib, attrs, key)
    requires key == Rel ==> Attribute(kept, Href) == ElementValue(lib, attrs, Href)
    ensures ElementValue(lib, kept, key) == ElementValue(lib, attrs, key)
  {
    CleaningTwice(Attribute(attrs, key));
  }

  /** The attributes kept of an element are what would be kept of the kept ones. */
  lemma ElementAttributesStay(lib: Library, keys: seq<Key>, attrs: seq<Attr>)
    requires lib.Valid() && (Rel in keys ==> Href in keys)
    ensures ElementAttributes(lib, keys, ElementAttributes(lib, keys, attrs)) == ElementAttributes(lib, keys, attrs)
  {
    var v := k => ElementValue(lib, attrs, k);
    var kept := Build(keys, v);
    var w := k => ElementValue(lib, kept, k);
    forall k | k in keys ensures w(k) == v(k) {
      BuiltAttribute(keys, v, k);
      BuiltAttribute(keys, v, Href);
      ElementValueStays(lib, attrs, kept, k);
    }
    SameValuesBuildSame(keys, w, v);
  }

  lemma AnchorsNameTheirTarget(tag: Tag)
    ensures Rel in ElementKeys(tag) ==> Href in ElementKeys(tag)
  {
    assert tag == A ==> ANCHOR_KEYS[0] == Href;
  }

  predicate NoAddress(keys: seq<Key>) {
    Src !in keys && RemoteSrc !in keys
  }

  /** The attributes of an image survive a change of mode, apart from the name of its address. */
  lemma ImageAttributesStay(a: bool, b: bool, source: string, texts: seq<Key>, attrs: seq<Attr>)
    requires NoAddress(texts)
    ensures ImageAttributes(b, source, texts, ImageAttributes(a, source, texts, attrs))
         == ImageAttributes(b, source, texts, attrs)
  {
    var keys, keys' := [AddressKey(a)] + texts, [AddressKey(b)] + texts;
    var v := k => ImageValue(source, attrs, k);
    var w := k => ImageValue(source, Build(keys, v), k);
    forall k | k in keys' ensures w(k) == v(k) {
      if k in texts {
        BuiltAttribute(keys, v, k);
        CleaningTwice(Attribute(attrs, k));
      }
    }
    SameValuesBuildSame(keys', w, v);
  }

  /** The address of a kept image is found again. */
  lemma ImageSourceStays(lib: Library, a: bool, placeholders: bool, texts: seq<Key>, attrs: seq<Attr>)
    requires lib.Valid() && ImageSource(lib, placeholders, attrs).Some? && NoAddress(texts)
    ensures var source := ImageSource(lib, placeholders, attrs).value;
      ImageSource(lib, true, ImageAttributes(a, source, texts, attrs)) == Some(source)
  {
    var source := ImageSource(lib, placeholders, attrs).value;
    var keys, v := [AddressKey(a)] + texts, k => ImageValue(source, attrs, k);
    BuiltAttribute(keys, v, Src);
    BuiltAttribute(keys, v, RemoteSrc);
  }

  lemma StyleAttributesStay(attrs: seq<Attr>)
    ensures StyleAttributes(StyleAttributes(attrs)) == StyleAttributes(attrs)
  {
    var v := k => CleanText(Attribute(attrs, k));
    BuiltAttribute([Media], v, Media);
    CleaningTwice(Attribute(attrs, Media));
    SameValuesBuildSame([Media], k => CleanText(Attribute(StyleAttributes(attrs), k)), v);
  }

  lemma LinkValueStays(lib: Library, attrs: seq<Attr>, kept: seq<Attr>, key: Key)
    requires lib.Valid() && Attribute(kept, key) == LinkValue(lib, attrs, key)
    ensures LinkValue(lib, kept, key) == LinkValue(lib, attrs, key)
  {
    CleaningTwice(Attribute(attrs, key));
  }

  lemma LinkAttributesStay(lib: Library, keys: seq<Key>, attrs: seq<Attr>)
    requires lib.Valid() && Href in keys && Rel in keys && lib.normalize(Attribute(attrs, Href), {Https}).Some?
    ensures var kept := LinkAttributes(lib, keys, attrs);
      && LinkAttributes(lib, keys, kept) == kept
      && lib.hasWord(Attribute(kept, Rel), STYLESHEET) && lib.normalize(Attribute(kept, Href), {Https}).Some?
  {
    var v := k => LinkValue(lib, attrs, k);
    var kept := Build(keys, v);
    var w := k => LinkValue(lib, kept, k);
    forall k | k in keys ensures w(k) == v(k) {
      BuiltAttribute(keys, v, k);
      LinkValueStays(lib, attrs, kept, k);
    }
    SameValuesBuildSame(keys, w, v);
    BuiltAttribute(keys, v, Rel);
    BuiltAttribute(keys, v, Href);
  }

  lemma CleanLinkElement(lib: Library, mode: Mode, attrs: seq<Attr>)
    ensures CleanAll(lib, mode, Only(Element(Link, attrs, End))) == CleanLink(lib, attrs)
  {
    CleanOnly(lib, mode, Element(Link, attrs, End));
  }

  lemma LinkStays(lib: Library, mode: Mode, attrs: seq<Attr>)
    requires lib.Valid()
    ensures CleanAll(lib, mode, CleanLink(lib, attrs)) == CleanLink(lib, attrs)
  {
    if lib.hasWord(Attribute(attrs, Rel), STYLESHEET) && lib.normalize(Attribute(attrs, Href), {Https}).Some? {
      LinkAttributesStay(lib, LINK_KEYS, attrs);
      CleanLinkElement(lib, mode, LinkAttributes(lib, LINK_KEYS, attrs));
    }
  }

  lemma CleanStyleElement(lib: Library, mode: Mode, attrs: seq<Attr>, children: Siblings)
    ensures CleanAll(lib, mode, Only(Element(StyleSheet, attrs, children))) == CleanStyle(attrs, children)
  {
    CleanOnly(lib, mode, Element(StyleSheet, attrs, children));
  }

  lemma StyleStays(lib: Library, mode: Mode, attrs: seq<Attr>, children: Siblings)
    ensures CleanAll(lib, mode, CleanStyle(attrs, children)) == CleanStyle(attrs, children)
  {
    StyleAttributesStay(attrs);
    TextsStay(lib, children);
    CleanStyleElement(lib, mode, StyleAttributes(attrs), Texts(children));
  }

  lemma ImageStays(lib: Library, a: bool, b: bool, placeholders: bool, attrs: seq<Attr>)
    requires lib.Valid()
    ensures CleanAll(lib, Mode(b, true), CleanImage(lib, Mode(a, placeholders), attrs))
         == CleanImage(lib, Mode(b, placeholders), attrs)
  {
    var source := ImageSource(lib, placeholders, attrs);
    if source.Some? {
      var kept := ImageAttributes(a, source.value, IMAGE_TEXT, attrs);
      ImageSourceStays(lib, a, placeholders, IMAGE_TEXT, attrs);
      ImageAttributesStay(a, b, source.value, IMAGE_TEXT, attrs);
      assert CleanImage(lib, Mode(a, placeholders), attrs) == Only(Element(Img, kept, End));
      CleanOnly(lib, Mode(b, true), Element(Img, kept, End));
      assert CleanImage(lib, Mode(b, true), kept) == CleanImage(lib, Mode(b, placeholders), attrs);
    }
  }

  lemma CleanAllowedElement(lib: Library, mode: Mode, tag: Tag, attrs: seq<Attr>, children: Siblings)
    requires IsAllowed(tag)
    ensures CleanAll(lib, mode, Only(Element(tag, attrs, children)))
         == Only(Element(tag, CleanAttributes(lib, tag, attrs), CleanAll(lib, mode, children)))
  {
    CleanOnly(lib, mode, Element(tag, attrs, children));
  }

  lemma ElementStays(lib: Library, mode: Mode, tag: Tag, attrs: seq<Attr>, children: Siblings)
    requires lib.Valid() && IsAllowed(tag)
    ensures CleanAll(lib, mode, Only(Element(tag, CleanAttributes(lib, tag, attrs), children)))
         == Only(Element(tag, CleanAttributes(lib, tag, attrs), CleanAll(lib, mode, children)))
  {
    AnchorsNameTheirTarget(tag);
    ElementAttributesStay(lib, ElementKeys(tag), attrs);
    CleanAllowedElement(lib, mode, tag, CleanAttributes(lib, tag, attrs), children);
  }

  /** Rendering what was sanitized in mode `a` gives what sanitizing in mode `b` would have given. */
  lemma {:induction false} NodeRendersAs(lib: Library, a: bool, b: bool, placeholders: bool, node: Node)
    requires lib.Valid()
    ensures CleanAll(lib, Mode(b, true), Clean(lib, Mode(a, placeholders), node)) == Clean(lib, Mode(b, placeholders), node)
  {
    match node
    case Text(_) => CleanOnly(lib, Mode(b, true), node);
    case Ignored =>
    case Element(tag, attrs, children) =>
      if tag == Img {
        ImageStays(lib, a, b, placeholders, attrs);
      } else if tag == StyleSheet {
        StyleStays(lib, Mode(b, true), attrs, children);
      } else if tag == Link {
        LinkStays(lib, Mode(b, true), attrs);
      } else if !IsDropped(tag) {
        RendersAs(lib, a, b, placeholders, children);
        if IsAllowed(tag) {
          ElementStays(lib, Mode(b, true), tag, attrs, CleanAll(lib, Mode(a, placeholders), children));
        }
      }
  }

  lemma {:induction false} RendersAs(lib: Library, a: bool, b: bool, placeholders: bool, f: Siblings)
    requires lib.Valid()
    ensures CleanAll(lib, Mode(b, true), CleanAll(lib, Mode(a, placeholders), f)) == CleanAll(lib, Mode(b, placeholders), f)
  {
    match f
    case End =>
    case Sibling(node, next) =>
      NodeRendersAs(lib, a, b, placeholders, node);
      RendersAs(lib, a, b, placeholders, next);
      CleanAllJoins(lib, Mode(b, true), Clean(lib, Mode(a, placeholders), node), CleanAll(lib, Mode(a, placeholders), next));
  }

  // ---- the round trip ----

  const BLOCKED := Mode(false, false)
  const SHOWN := Mode(true, false)
  const ACTIVATE := Mode(true, true)
  const KEEP_INERT := Mode(false, true)

  /** Activating the placeholders of a blocked document gives the document sanitized with images. */
  lemma ActivatingRestoresImages(lib: Library, f: Siblings)
    requires lib.Valid()
    ensures CleanAll(lib, ACTIVATE, CleanAll(lib, BLOCKED, f)) == CleanAll(lib, SHOWN, f)
  {
    RendersAs(lib, false, true, false, f);
  }

  /** Rendering a blocked document without images changes nothing. */
  lemma InertRenderingIsIdentity(lib: Library, f: Siblings)
    requires lib.Valid()
    ensures CleanAll(lib, KEEP_INERT, CleanAll(lib, BLOCKED, f)) == CleanAll(lib, BLOCKED, f)
  {
    RendersAs(lib, false, false, false, f);
  }

  /** Every image of the document is inert, and every element one of those that are kept. */
  predicate IsInert(node: Node) {
    match node
    case Text(_) => true
    case Ignored => false
    case Element(tag, attrs, children) =>
      && (IsAllowed(tag) || tag == Img || tag == StyleSheet || tag == Link)
      && (tag == Img ==> Attribute(attrs, Src) == "")
      && AllInert(children)
  }

  predicate AllInert(f: Siblings) {
    match f
    case End => true
    case Sibling(node, next) => IsInert(node) && AllInert(next)
  }

  lemma {:induction false} InertJoins(f: Siblings, g: Siblings)
    requires AllInert(f) && AllInert(g)
    ensures AllInert(Append(f, g))
  {
    match f
    case End =>
    case Sibling(_, next) => InertJoins(next, g);
  }

  lemma {:induction false} TextsAreInert(f: Siblings)
    ensures AllInert(Texts(f))
  {
    match f
    case End =>
    case Sibling(_, next) => TextsAreInert(next);
  }

  lemma BlockedAddressIsHidden(source: string, texts: seq<Key>, attrs: seq<Attr>)
    requires NoAddress(texts)
    ensures Attribute(ImageAttributes(false, source, texts, attrs), Src) == ""
  {
    BuiltAttribute([RemoteSrc] + texts, k => ImageValue(source, attrs, k), Src);
  }

  lemma BlockedImageIsInert(lib: Library, placeholders: bool, attrs: seq<Attr>)
    ensures AllInert(CleanImage(lib, Mode(false, placeholders), attrs))
  {
    var source := ImageSource(lib, placeholders, attrs);
    if source.Some? {
      BlockedAddressIsHidden(source.value, IMAGE_TEXT, attrs);
    }
  }

  lemma {:induction false} BlockedNodeIsInert(lib: Library, placeholders: bool, node: Node)
    ensures AllInert(Clean(lib, Mode(false, placeholders), node))
  {
    match node
    case Text(_) =>
    case Ignored =>
    case Element(tag, attrs, children) =>
      if tag == Img {
        BlockedImageIsInert(lib, placeholders, attrs);
      } else if tag == StyleSheet {
        TextsAreInert(children);
      } else if !IsDropped(tag) {
        BlockedIsInert(lib, placeholders, children);
      }
  }

  /** A document sanitized or rendered without images holds no element outside the list and no active image. */
  lemma {:induction false} BlockedIsInert(lib: Library, placeholders: bool, f: Siblings)
    ensures AllInert(CleanAll(lib, Mode(false, placeholders), f))
  {
    match f
    case End =>
    case Sibling(node, next) =>
      BlockedNodeIsInert(lib, placeholders, node);
      BlockedIsInert(lib, placeholders, next);
      InertJoins(Clean(lib, Mode(false, placeholders), node), CleanAll(lib, Mode(false, placeholders), next));
  }

  lemma {:induction false} NothingHeldBackInNode(lib: Library, placeholders: bool, node: Node)
    requires !HoldsBack(lib, Mode(false, placeholders), node)
    ensures Clean(lib, Mode(false, placeholders), node) == Clean(lib, Mode(true, placeholders), node)
  {
    match node
    case Text(_) =>
    case Ignored =>
    case Element(tag, attrs, children) =>
      if tag != Img && !IsDropped(tag) {
        NothingHeldBack(lib, placeholders, children);
      }
  }

  /** Without a report of held back images, blocking them made no difference. */
  lemma {:induction false} NothingHeldBack(lib: Library, placeholders: bool, f: Siblings)
    requires !HoldsBackIn(lib, Mode(false, placeholders), f)
    ensures CleanAll(lib, Mode(false, placeholders), f) == CleanAll(lib, Mode(true, placeholders), f)
  {
    match f
    case End =>
    case Sibling(node, next) =>
      NothingHeldBackInNode(lib, placeholders, node);
      NothingHeldBack(lib, placeholders, next);
  }
}
