/**
 What a reader of a sanitized message can rely on: the text is all there, the elements and attributes are
 those of fixed lists, and addresses are absolute ones of the schemes that are let through.
 */
module SanitizerFacts {
  import opened HtmlText
  import opened ImagePlaceholders
  import opened Options
  import opened Strings

  // ---- the lists ----

  /** Elements that go with everything inside them. Style sheets and links have rules of their own. */
  const REMOVED: set<Tag> :=
    {Applet, Audio, Base, Button, Canvas, Embed, Form, Frame, Frameset, Iframe, Input, Math, Meta, Object, Script,
     Select, Source, Svg, Textarea, Video}

  /** Elements that stay. */
  const KEPT: set<Tag> :=
    {A, B, Blockquote, Br, Code, Del, Div, Em, H1, H2, H3, H4, H5, H6, Hr, I, Li, Ol, P, Pre, S, Span, Strong, Table,
     Tbody, Td, Tfoot, Th, Thead, Tr, U, Ul}

  lemma ListsAreExact(tag: Tag)
    ensures IsAllowed(tag) <==> tag in KEPT
    ensures IsDropped(tag) <==> tag in REMOVED || tag == Link || tag == StyleSheet
  {
  }

  /** An element of the first list goes, one of the second stays with its cleaned inside, and any other is unwrapped. */
  lemma ElementsByList(lib: Library, mode: Mode, tag: Tag, attrs: seq<Attr>, children: Siblings)
    requires tag !in {Img, Link, StyleSheet}
    ensures tag in REMOVED ==> Clean(lib, mode, Element(tag, attrs, children)) == End
    ensures tag in KEPT ==> Clean(lib, mode, Element(tag, attrs, children)) ==
                            Sibling(Element(tag, CleanAttributes(lib, tag, attrs), CleanAll(lib, mode, children)), End)
    ensures tag !in REMOVED && tag !in KEPT ==> Clean(lib, mode, Element(tag, attrs, children)) == CleanAll(lib, mode, children)
  {
    ListsAreExact(tag);
  }

  // ---- the text survives ----

  /** The pieces of text that a reader sees, in order. */
  function Reading(node: Node): seq<string> {
    match node
    case Text(data) => [data]
    case Ignored => []
    case Element(tag, _, children) =>
      if tag in REMOVED || tag in {Img, Link, StyleSheet} then [] else ReadingAll(children)
  }

  function ReadingAll(f: Siblings): seq<string> {
    match f
    case End => []
    case Sibling(node, next) => Reading(node) + ReadingAll(next)
  }

  lemma {:induction false} ReadingJoins(f: Siblings, g: Siblings)
    ensures ReadingAll(Append(f, g)) == ReadingAll(f) + ReadingAll(g)
  {
    match f
    case End =>
    case Sibling(_, next) => ReadingJoins(next, g);
  }

  lemma {:induction false} NodeTextSurvives(lib: Library, mode: Mode, node: Node)
    ensures ReadingAll(Clean(lib, mode, node)) == Reading(node)
  {
    match node
    case Text(data) => assert [data] + [] == [data];
    case Ignored =>
    case Element(tag, attrs, children) =>
      ListsAreExact(tag);
      if tag !in REMOVED && tag !in {Img, Link, StyleSheet} {
        TextSurvives(lib, mode, children);
        assert ReadingAll(children) + [] == ReadingAll(children);
      }
  }

  /** Sanitizing and rendering, in every mode, keep all text that a reader sees, in its order, and add none. */
  lemma {:induction false} TextSurvives(lib: Library, mode: Mode, f: Siblings)
    ensures ReadingAll(CleanAll(lib, mode, f)) == ReadingAll(f)
  {
    match f
    case End =>
    case Sibling(node, next) =>
      NodeTextSurvives(lib, mode, node);
      TextSurvives(lib, mode, next);
      ReadingJoins(Clean(lib, mode, node), CleanAll(lib, mode, next));
  }

  // ---- nothing else survives ----

  predicate IsAbsolute(lib: Library, value: string, schemes: set<Scheme>) {
    lib.normalize(value, schemes) == Some(value)
  }

  predicate IsPlain(value: string) {
    forall i :: 0 <= i < |value| ==> !(value[i] as int < 0x20 || 0x7F <= value[i] as int < 0xA0)
  }

  /** The attribute may stand on an element of this kind. */
  predicate IsSafeAttr(lib: Library, allow: bool, tag: Tag, attr: Attr) {
    match attr.key
    case OtherKey(_) => false
    case Src => tag == Img && allow && IsAbsolute(lib, attr.value, {Https})
    case RemoteSrc => tag == Img && !allow && IsAbsolute(lib, attr.value, {Https})
    case Href => (tag == A && IsAbsolute(lib, attr.value, {Http, Https, Mailto})) || (tag == Link && IsAbsolute(lib, attr.value, {Https}))
    case Rel => (tag == A && attr.value == "nofollow noopener noreferrer") || (tag == Link && attr.value == "stylesheet")
    case Colspan | Rowspan => (tag == Td || tag == Th) && IsUint(attr.value, 256) && Digits(attr.value) > 0
    case Alt => tag == Img && IsPlain(attr.value)
    case Media => (tag == Link || tag == StyleSheet) && IsPlain(attr.value)
    case _ => IsPlain(attr.value)
  }

  predicate IsSafe(lib: Library, allow: bool, node: Node) {
    match node
    case Text(_) => true
    case Ignored => false
    case Element(tag, attrs, children) =>
      && (tag in KEPT || tag in {Img, Link, StyleSheet})
      && (forall i :: 0 <= i < |attrs| ==> IsSafeAttr(lib, allow, tag, attrs[i]))
      && (tag == Img || tag == Link ==> children == End)
      && (tag == StyleSheet ==> OnlyText(children))
      && AllSafe(lib, allow, children)
  }

  predicate AllSafe(lib: Library, allow: bool, f: Siblings) {
    match f
    case End => true
    case Sibling(node, next) => IsSafe(lib, allow, node) && AllSafe(lib, allow, next)
  }

  predicate OnlyText(f: Siblings) {
    match f
    case End => true
    case Sibling(node, next) => node.Text? && OnlyText(next)
  }

  lemma {:induction false} SafeJoins(lib: Library, allow: bool, f: Siblings, g: Siblings)
    requires AllSafe(lib, allow, f) && AllSafe(lib, allow, g)
    ensures AllSafe(lib, allow, Append(f, g))
  {
    match f
    case End =>
    case Sibling(_, next) => SafeJoins(lib, allow, next, g);
  }

  lemma {:induction false} TextsAreText(lib: Library, allow: bool, f: Siblings)
    ensures OnlyText(Texts(f)) && AllSafe(lib, allow, Texts(f))
  {
    match f
    case End =>
    case Sibling(_, next) => TextsAreText(lib, allow, next);
  }

  /** What is built stands under one of the keys, with the value for it. */
  lemma {:induction false} BuiltMember(keys: seq<Key>, value: Key -> string, i: nat)
    requires i < |Build(keys, value)|
    ensures var attr := Build(keys, value)[i]; attr.key in keys && attr.value == value(attr.key) && attr.value != ""
  {
    var rest := Build(keys[1..], value);
    if value(keys[0]) == "" {
      assert Build(keys, value) == rest;
      BuiltMember(keys[1..], value, i);
    } else if i > 0 {
      assert Build(keys, value)[i] == rest[i - 1];
      BuiltMember(keys[1..], value, i - 1);
    }
  }

  lemma CleanTextIsPlain(value: string)
    ensures IsPlain(CleanText(value))
  {
    var plain := WithoutControls(value);
    var left := TrimLeft(plain, IsSpace);
    TrimLeftCuts(plain, IsSpace);
    TrimRightCuts(left, IsSpace);
  }

  lemma ElementValueIsSafe(lib: Library, allow: bool, tag: Tag, attrs: seq<Attr>, key: Key)
    requires lib.Valid() && key in ElementKeys(tag) && ElementValue(lib, attrs, key) != ""
    ensures IsSafeAttr(lib, allow, tag, Attr(key, ElementValue(lib, attrs, key)))
  {
    CleanTextIsPlain(Attribute(attrs, key));
    match key
    case Href | Rel => OnlyAnchorsLead(tag, key);
    case Colspan | Rowspan => OnlyCellsSpan(tag, key);
    case _ => OnlyListed(tag, key);
  }

  lemma OnlyAnchorsLead(tag: Tag, key: Key)
    requires key in ElementKeys(tag) && (key == Href || key == Rel)
    ensures tag == A
  {
  }

  lemma OnlyCellsSpan(tag: Tag, key: Key)
    requires key in ElementKeys(tag) && (key == Colspan || key == Rowspan)
    ensures tag == Td || tag == Th
  {
  }

  lemma OnlyListed(tag: Tag, key: Key)
    requires key in ElementKeys(tag)
    ensures key !in {Src, RemoteSrc, Alt, Media} && !key.OtherKey?
  {
  }

  lemma ElementAttrIsSafe(lib: Library, allow: bool, tag: Tag, attrs: seq<Attr>, i: nat)
    requires lib.Valid() && tag in KEPT && i < |CleanAttributes(lib, tag, attrs)|
    ensures IsSafeAttr(lib, allow, tag, CleanAttributes(lib, tag, attrs)[i])
  {
    BuiltMember(ElementKeys(tag), k => ElementValue(lib, attrs, k), i);
    ElementValueIsSafe(lib, allow, tag, attrs, CleanAttributes(lib, tag, attrs)[i].key);
  }

  lemma ImageKeys(allow: bool, key: Key)
    requires key in [AddressKey(allow)] + IMAGE_TEXT
    ensures key == (if allow then Src else RemoteSrc) || key in {Alt, Title, Width, Height, Class, Id, Style, Dir, Lang, Align}
  {
  }

  lemma ImageValueIsSafe(lib: Library, allow: bool, source: string, attrs: seq<Attr>, key: Key)
    requires IsAbsolute(lib, source, {Https}) && key in [AddressKey(allow)] + IMAGE_TEXT
    ensures IsSafeAttr(lib, allow, Img, Attr(key, ImageValue(source, attrs, key)))
  {
    ImageKeys(allow, key);
    CleanTextIsPlain(Attribute(attrs, key));
  }

  lemma ImageAttrIsSafe(lib: Library, allow: bool, source: string, attrs: seq<Attr>, i: nat)
    requires IsAbsolute(lib, source, {Https}) && i < |ImageAttributes(allow, source, IMAGE_TEXT, attrs)|
    ensures IsSafeAttr(lib, allow, Img, ImageAttributes(allow, source, IMAGE_TEXT, attrs)[i])
  {
    BuiltMember([AddressKey(allow)] + IMAGE_TEXT, k => ImageValue(source, attrs, k), i);
    ImageValueIsSafe(lib, allow, source, attrs, ImageAttributes(allow, source, IMAGE_TEXT, attrs)[i].key);
  }

  lemma LinkAttrIsSafe(lib: Library, allow: bool, attrs: seq<Attr>, i: nat)
    requires lib.Valid() && i < |LinkAttributes(lib, LINK_KEYS, attrs)|
    ensures IsSafeAttr(lib, allow, Link, LinkAttributes(lib, LINK_KEYS, attrs)[i])
  {
    BuiltMember(LINK_KEYS, k => LinkValue(lib, attrs, k), i);
    CleanTextIsPlain(Attribute(attrs, LinkAttributes(lib, LINK_KEYS, attrs)[i].key));
  }

  lemma StyleAttrIsSafe(lib: Library, allow: bool, attrs: seq<Attr>, i: nat)
    requires i < |StyleAttributes(attrs)|
    ensures IsSafeAttr(lib, allow, StyleSheet, StyleAttributes(attrs)[i])
  {
    BuiltMember([Media], k => CleanText(Attribute(attrs, k)), i);
    CleanTextIsPlain(Attribute(attrs, Media));
  }

  lemma ImageIsSafe(lib: Library, mode: Mode, attrs: seq<Attr>)
    requires lib.Valid()
    ensures AllSafe(lib, mode.allow, CleanImage(lib, mode, attrs))
  {
    var source := ImageSource(lib, mode.placeholders, attrs);
    if source.Some? {
      forall i | 0 <= i < |ImageAttributes(mode.allow, source.value, IMAGE_TEXT, attrs)|
        ensures IsSafeAttr(lib, mode.allow, Img, ImageAttributes(mode.allow, source.value, IMAGE_TEXT, attrs)[i])
      {
        ImageAttrIsSafe(lib, mode.allow, source.value, attrs, i);
      }
    }
  }

  lemma StyleIsSafe(lib: Library, allow: bool, attrs: seq<Attr>, children: Siblings)
    ensures AllSafe(lib, allow, CleanStyle(attrs, children))
  {
    TextsAreText(lib, allow, children);
    forall i | 0 <= i < |StyleAttributes(attrs)|
      ensures IsSafeAttr(lib, allow, StyleSheet, StyleAttributes(attrs)[i])
    {
      StyleAttrIsSafe(lib, allow, attrs, i);
    }
  }

  lemma LinkIsSafe(lib: Library, allow: bool, attrs: seq<Attr>)
    requires lib.Valid()
    ensures AllSafe(lib, allow, CleanLink(lib, attrs))
  {
    forall i | 0 <= i < |LinkAttributes(lib, LINK_KEYS, attrs)|
      ensures IsSafeAttr(lib, allow, Link, LinkAttributes(lib, LINK_KEYS, attrs)[i])
    {
      LinkAttrIsSafe(lib, allow, attrs, i);
    }
  }

  lemma {:induction false} NodeComesOutSafe(lib: Library, mode: Mode, node: Node)
    requires lib.Valid()
    ensures AllSafe(lib, mode.allow, Clean(lib, mode, node))
  {
    match node
    case Text(_) =>
    case Ignored =>
    case Element(tag, attrs, children) =>
      ListsAreExact(tag);
      if tag == Img {
        ImageIsSafe(lib, mode, attrs);
      } else if tag == StyleSheet {
        StyleIsSafe(lib, mode.allow, attrs, children);
      } else if tag == Link {
        LinkIsSafe(lib, mode.allow, attrs);
      } else if !IsDropped(tag) {
        ComesOutSafe(lib, mode, children);
        if IsAllowed(tag) {
          forall i | 0 <= i < |CleanAttributes(lib, tag, attrs)|
            ensures IsSafeAttr(lib, mode.allow, tag, CleanAttributes(lib, tag, attrs)[i])
          {
            ElementAttrIsSafe(lib, mode.allow, tag, attrs, i);
          }
        }
      }
  }

  /**
   In every mode the result holds listed elements and attributes only. Links lead to absolute web or mail
   addresses, image and style sheet addresses are absolute HTTPS ones, images are active in the modes that
   allow them and inert in the others, and a style sheet holds text only.
   */
  lemma {:induction false} ComesOutSafe(lib: Library, mode: Mode, f: Siblings)
    requires lib.Valid()
    ensures AllSafe(lib, mode.allow, CleanAll(lib, mode, f))
  {
    match f
    case End =>
    case Sibling(node, next) =>
      NodeComesOutSafe(lib, mode, node);
      ComesOutSafe(lib, mode, next);
      SafeJoins(lib, mode.allow, Clean(lib, mode, node), CleanAll(lib, mode, next));
  }

  // ---- attributes that survive ----

  predicate IsPresentation(key: Key) {
    key in {Class, Id, Style, Dir, Lang, Align, Valign, Bgcolor, Border, Cellpadding, Cellspacing, Width, Height, Title}
  }

  lemma KeptElementValue(lib: Library, tag: Tag, attrs: seq<Attr>, key: Key)
    requires key in ElementKeys(tag)
    ensures Attribute(CleanAttributes(lib, tag, attrs), key) == ElementValue(lib, attrs, key)
  {
    BuiltAttribute(ElementKeys(tag), k => ElementValue(lib, attrs, k), key);
  }

  lemma TextKeysAreListed(key: Key)
    requires key in {Class, Id, Style, Dir, Lang, Align}
    ensures key in PRESENTATION
  {
    var list := PRESENTATION;
    assert list[0] == Class && list[1] == Id && list[2] == Style && list[3] == Dir && list[4] == Lang && list[5] == Align;
  }

  lemma TableKeysAreListed(key: Key)
    requires key in {Valign, Bgcolor, Border, Cellpadding, Cellspacing, Width, Height}
    ensures key in PRESENTATION
  {
    var list := PRESENTATION;
    assert list[6] == Valign && list[7] == Bgcolor && list[8] == Border && list[9] == Cellpadding && list[10] == Cellspacing
        && list[11] == Width && list[12] == Height;
  }

  lemma PresentationIsListed(tag: Tag, key: Key)
    requires IsPresentation(key)
    ensures key in ElementKeys(tag)
  {
    if key in {Class, Id, Style, Dir, Lang, Align} {
      TextKeysAreListed(key);
    } else if key != Title {
      TableKeysAreListed(key);
    }
  }

  /** A kept element keeps its presentation and title as clean text. */
  lemma PresentationSurvives(lib: Library, tag: Tag, attrs: seq<Attr>, key: Key)
    requires tag in KEPT && IsPresentation(key)
    ensures Attribute(CleanAttributes(lib, tag, attrs), key) == CleanText(Attribute(attrs, key))
  {
    PresentationIsListed(tag, key);
    KeptElementValue(lib, tag, attrs, key);
  }

  lemma SpansAreListed(tag: Tag, key: Key)
    requires (tag == A && key == Href) || ((tag == Td || tag == Th) && (key == Colspan || key == Rowspan))
    ensures key in ElementKeys(tag)
  {
    assert ANCHOR_KEYS[0] == Href && SPAN_KEYS[0] == Colspan && SPAN_KEYS[1] == Rowspan;
  }

  /** An anchor keeps its address in normal form when that is of a scheme let through. */
  lemma AddressSurvives(lib: Library, attrs: seq<Attr>)
    ensures var normal := lib.normalize(Attribute(attrs, Href), {Http, Https, Mailto});
      Attribute(CleanAttributes(lib, A, attrs), Href) == if normal.Some? then normal.value else ""
  {
    SpansAreListed(A, Href);
    KeptElementValue(lib, A, attrs, Href);
  }

  lemma SpanValue(lib: Library, attrs: seq<Attr>, key: Key)
    requires key == Colspan || key == Rowspan
    ensures ElementValue(lib, attrs, key) ==
            if IsUint(Attribute(attrs, key), 256) && Digits(Attribute(attrs, key)) > 0 then Attribute(attrs, key) else ""
  {
  }

  /** A cell keeps how many columns or rows it spans when that is a number from 1 to 255. */
  lemma SpanSurvives(lib: Library, tag: Tag, attrs: seq<Attr>, key: Key)
    requires (tag == Td || tag == Th) && (key == Colspan || key == Rowspan)
    ensures var value := Attribute(attrs, key);
      Attribute(CleanAttributes(lib, tag, attrs), key) == if IsUint(value, 256) && Digits(value) > 0 then value else ""
  {
    SpansAreListed(tag, key);
    KeptElementValue(lib, tag, attrs, key);
    SpanValue(lib, attrs, key);
  }

  predicate CarriesAddress(allow: bool, source: string, kept: seq<Attr>) {
    Attribute(kept, Src) == (if allow then source else "") && Attribute(kept, RemoteSrc) == (if allow then "" else source)
  }

  predicate CarriesTexts(attrs: seq<Attr>, kept: seq<Attr>) {
    && Attribute(kept, Alt) == CleanText(Attribute(attrs, Alt))
    && Attribute(kept, Title) == CleanText(Attribute(attrs, Title))
  }

  predicate CarriesSize(attrs: seq<Attr>, kept: seq<Attr>) {
    && (IsUint(CleanText(Attribute(attrs, Width)), 65536) ==> Attribute(kept, Width) == CleanText(Attribute(attrs, Width)))
    && (IsUint(CleanText(Attribute(attrs, Height)), 65536) ==> Attribute(kept, Height) == CleanText(Attribute(attrs, Height)))
  }

  /** What a kept image carries: its address as source or as placeholder, its texts and its size. */
  predicate CarriesImage(allow: bool, source: string, attrs: seq<Attr>, kept: seq<Attr>) {
    CarriesAddress(allow, source, kept) && CarriesTexts(attrs, kept) && CarriesSize(attrs, kept)
  }

  lemma KeptValue(allow: bool, source: string, texts: seq<Key>, attrs: seq<Attr>, key: Key)
    ensures Attribute(ImageAttributes(allow, source, texts, attrs), key) ==
            if key == AddressKey(allow) || key in texts then ImageValue(source, attrs, key) else ""
  {
    BuiltAttribute([AddressKey(allow)] + texts, k => ImageValue(source, attrs, k), key);
  }

  lemma AddressIsCarried(allow: bool, source: string, texts: seq<Key>, attrs: seq<Attr>)
    requires NoAddress(texts)
    ensures CarriesAddress(allow, source, ImageAttributes(allow, source, texts, attrs))
  {
    KeptValue(allow, source, texts, attrs, Src);
    KeptValue(allow, source, texts, attrs, RemoteSrc);
  }

  lemma TextsAreCarried(allow: bool, source: string, texts: seq<Key>, attrs: seq<Attr>)
    requires Alt in texts && Title in texts
    ensures CarriesTexts(attrs, ImageAttributes(allow, source, texts, attrs))
  {
    KeptValue(allow, source, texts, attrs, Alt);
    KeptValue(allow, source, texts, attrs, Title);
  }

  lemma SizeIsCarried(allow: bool, source: string, texts: seq<Key>, attrs: seq<Attr>)
    requires Width in texts && Height in texts
    ensures CarriesSize(attrs, ImageAttributes(allow, source, texts, attrs))
  {
    KeptValue(allow, source, texts, attrs, Width);
    KeptValue(allow, source, texts, attrs, Height);
  }

  lemma KeptImageCarries(allow: bool, source: string, attrs: seq<Attr>)
    ensures CarriesImage(allow, source, attrs, ImageAttributes(allow, source, IMAGE_TEXT, attrs))
  {
    assert IMAGE_TEXT[0] == Alt && IMAGE_TEXT[1] == Title && IMAGE_TEXT[2] == Width && IMAGE_TEXT[3] == Height;
    AddressIsCarried(allow, source, IMAGE_TEXT, attrs);
    TextsAreCarried(allow, source, IMAGE_TEXT, attrs);
    SizeIsCarried(allow, source, IMAGE_TEXT, attrs);
  }

  /** The cleaned image is one image that carries what it has to. */
  ghost predicate IsKeptImage(clean: Siblings, allow: bool, source: string, attrs: seq<Attr>) {
    exists kept :: clean == Sibling(Element(Img, kept, End), End) && CarriesImage(allow, source, attrs, kept)
  }

  lemma FoundImageIsKept(lib: Library, mode: Mode, attrs: seq<Attr>)
    requires lib.normalize(Attribute(attrs, Src), {Https}).Some?
    ensures IsKeptImage(CleanImage(lib, mode, attrs), mode.allow, lib.normalize(Attribute(attrs, Src), {Https}).value, attrs)
  {
    KeptImageCarries(mode.allow, lib.normalize(Attribute(attrs, Src), {Https}).value, attrs);
  }

  /** An image with an HTTPS address stays an image with that address; one without is dropped. */
  lemma ImageSurvives(lib: Library, mode: Mode, attrs: seq<Attr>, children: Siblings)
    ensures var source, clean := lib.normalize(Attribute(attrs, Src), {Https}), Clean(lib, mode, Element(Img, attrs, children));
      if source.Some? then IsKeptImage(clean, mode.allow, source.value, attrs)
      else !mode.placeholders ==> clean == End
  {
    if lib.normalize(Attribute(attrs, Src), {Https}).Some? {
      FoundImageIsKept(lib, mode, attrs);
    }
  }

  // ---- style sheets ----

  /** The pieces of text directly inside an element. */
  function Lines(f: Siblings): seq<string> {
    match f
    case End => []
    case Sibling(node, next) => (if node.Text? then [node.data] else []) + Lines(next)
  }

  lemma {:induction false} TextsKeepLines(f: Siblings)
    ensures Lines(Texts(f)) == Lines(f)
  {
    match f
    case End =>
    case Sibling(_, next) => TextsKeepLines(next);
  }

  /** A style sheet stays one with all its text and its medium, and loses everything else. */
  lemma StyleSurvives(lib: Library, mode: Mode, attrs: seq<Attr>, children: Siblings)
    ensures var kept := Clean(lib, mode, Element(StyleSheet, attrs, children));
      && kept.Sibling? && kept.next == End && kept.node.Element? && kept.node.tag == StyleSheet
      && Lines(kept.node.children) == Lines(children) && OnlyText(kept.node.children)
      && Attribute(kept.node.attrs, Media) == CleanText(Attribute(attrs, Media))
  {
    TextsKeepLines(children);
    TextsAreText(lib, mode.allow, children);
    BuiltAttribute([Media], k => CleanText(Attribute(attrs, k)), Media);
  }

  lemma KeptLinkCarries(lib: Library, attrs: seq<Attr>)
    ensures Attribute(LinkAttributes(lib, LINK_KEYS, attrs), Href) == lib.Url(Attribute(attrs, Href), {Https})
    ensures Attribute(LinkAttributes(lib, LINK_KEYS, attrs), Rel) == "stylesheet"
  {
    assert LINK_KEYS[0] == Rel && LINK_KEYS[1] == Href;
    BuiltAttribute(LINK_KEYS, k => LinkValue(lib, attrs, k), Href);
    BuiltAttribute(LINK_KEYS, k => LinkValue(lib, attrs, k), Rel);
  }

  /** The clean link is one link to a style sheet at this address. */
  predicate IsKeptLink(kept: Siblings, address: string) {
    && kept.Sibling? && kept.next == End && kept.node.Element? && kept.node.tag == Link && kept.node.children == End
    && Attribute(kept.node.attrs, Href) == address && Attribute(kept.node.attrs, Rel) == "stylesheet"
  }

  lemma CleanedLink(lib: Library, attrs: seq<Attr>)
    ensures var address := lib.normalize(Attribute(attrs, Href), {Https});
      if lib.hasWord(Attribute(attrs, Rel), "stylesheet") && address.Some? then IsKeptLink(CleanLink(lib, attrs), address.value)
      else CleanLink(lib, attrs) == End
  {
    KeptLinkCarries(lib, attrs);
  }

  /** A link stays exactly when it is one to a style sheet with an HTTPS address, and keeps that address. */
  lemma LinkSurvives(lib: Library, mode: Mode, attrs: seq<Attr>, children: Siblings)
    ensures var kept, address := Clean(lib, mode, Element(Link, attrs, children)), lib.normalize(Attribute(attrs, Href), {Https});
      if lib.hasWord(Attribute(attrs, Rel), "stylesheet") && address.Some? then IsKeptLink(kept, address.value) else kept == End
  {
    CleanedLink(lib, attrs);
  }

  // ---- the report ----

  /** The attributes of the images that a reader would come across. */
  function Images(node: Node): seq<seq<Attr>> {
    match node
    case Element(tag, attrs, children) =>
      if tag == Img then [attrs] else if tag in REMOVED || tag in {Link, StyleSheet} then [] else ImagesIn(children)
    case _ => []
  }

  function ImagesIn(f: Siblings): seq<seq<Attr>> {
    match f
    case End => []
    case Sibling(node, next) => Images(node) + ImagesIn(next)
  }

  /** The image has an HTTPS address, in its source or where the mode looks for one in its placeholder. */
  predicate HasAddress(lib: Library, mode: Mode, attrs: seq<Attr>) {
    || lib.normalize(Attribute(attrs, Src), {Https}).Some?
    || (mode.placeholders && lib.normalize(Attribute(attrs, RemoteSrc), {Https}).Some?)
  }

  predicate IsHeldBack(lib: Library, mode: Mode, attrs: seq<Attr>) {
    if HasAddress(lib, mode, attrs) then !mode.allow else Attribute(attrs, Src) != ""
  }

  ghost predicate AnyHeldBack(lib: Library, mode: Mode, images: seq<seq<Attr>>) {
    exists i :: 0 <= i < |images| && IsHeldBack(lib, mode, images[i])
  }

  lemma AnyJoins(lib: Library, mode: Mode, a: seq<seq<Attr>>, b: seq<seq<Attr>>)
    ensures AnyHeldBack(lib, mode, a + b) <==> AnyHeldBack(lib, mode, a) || AnyHeldBack(lib, mode, b)
  {
    if i :| 0 <= i < |a| && IsHeldBack(lib, mode, a[i]) {
      assert (a + b)[i] == a[i];
    }
    if i :| 0 <= i < |b| && IsHeldBack(lib, mode, b[i]) {
      assert (a + b)[|a| + i] == b[i];
    }
    if i :| 0 <= i < |a + b| && IsHeldBack(lib, mode, (a + b)[i]) {
      assert (a + b)[i] == if i < |a| then a[i] else b[i - |a|];
    }
  }

  lemma ImageReport(lib: Library, mode: Mode, attrs: seq<Attr>, children: Siblings)
    ensures HoldsBack(lib, mode, Element(Img, attrs, children)) <==> IsHeldBack(lib, mode, attrs)
  {
  }

  lemma {:induction false} NodeReport(lib: Library, mode: Mode, node: Node)
    ensures HoldsBack(lib, mode, node) <==> AnyHeldBack(lib, mode, Images(node))
  {
    match node
    case Text(_) =>
    case Ignored =>
    case Element(tag, attrs, children) =>
      ListsAreExact(tag);
      if tag == Img {
        ImageReport(lib, mode, attrs, children);
        assert Images(node)[0] == attrs;
      } else if !IsDropped(tag) {
        ReportIsExact(lib, mode, children);
        assert Images(node) == ImagesIn(children);
      }
  }

  /** It is reported that images were held back exactly when an image with an address is not shown, or one has another address. */
  lemma {:induction false} ReportIsExact(lib: Library, mode: Mode, f: Siblings)
    ensures HoldsBackIn(lib, mode, f) <==> AnyHeldBack(lib, mode, ImagesIn(f))
  {
    match f
    case End =>
    case Sibling(node, next) =>
      NodeReport(lib, mode, node);
      ReportIsExact(lib, mode, next);
      AnyJoins(lib, mode, Images(node), ImagesIn(next));
  }

  // ---- clean text ----

  /** Controls are taken out one by one, wherever they stand. */
  lemma {:induction false} ControlsGo(s: string, c: char, t: string)
    ensures WithoutControls(s + [c] + t) ==
            WithoutControls(s) + (if c as int < 0x20 || 0x7F <= c as int < 0xA0 then "" else [c]) + WithoutControls(t)
    decreases |s|
  {
    if s == "" {
      assert s + [c] + t == [c] + t && ([c] + t)[1..] == t;
    } else {
      assert (s + [c] + t)[0] == s[0] && (s + [c] + t)[1..] == s[1..] + [c] + t;
      ControlsGo(s[1..], c, t);
    }
  }

  /** Text without controls and without white space at its ends is clean as it is. */
  lemma PlainTextStays(s: string)
    requires IsPlain(s) && (s != "" ==> !IsSpace(s[0]) && !IsSpace(s[|s| - 1]))
    ensures CleanText(s) == s
  {
    assert forall i :: 0 <= i < |s| ==> !IsControl(s[i]);
    CleanHasNoControls(s);
  }
}
