/**
 The sanitizer as it runs: it walks the document, appends what it keeps, and notes when it holds back
 a remote image. Every method is proved against the functions of ImagePlaceholders.
 */
module Sanitizer {
  import opened HtmlText
  import opened ImagePlaceholders
  import opened Options

  function NodeSize(node: Node): nat {
    match node
    case Element(_, _, children) => 1 + Size(children)
    case _ => 1
  }

  function Size(f: Siblings): nat {
    match f
    case End => 0
    case Sibling(node, next) => 1 + NodeSize(node) + Size(next)
  }

  lemma {:induction false} BuildJoins(xs: seq<Key>, ys: seq<Key>, value: Key -> string)
    ensures Build(xs + ys, value) == Build(xs, value) + Build(ys, value)
  {
    if xs == [] {
      assert xs + ys == ys;
    } else {
      assert (xs + ys)[1..] == xs[1..] + ys;
      BuildJoins(xs[1..], ys, value);
    }
  }

  /** The attributes of these keys that have a value once cleaned. */
  method CleanPresentationAttributes(attrs: seq<Attr>, keys: seq<Key>, ghost value: Key -> string) returns (r: seq<Attr>)
    requires forall k :: k in keys ==> value(k) == CleanText(Attribute(attrs, k))
    ensures r == Build(keys, value)
  {
    r := [];
    for i := 0 to |keys|
      invariant r == Build(keys[..i], value)
    {
      assert keys[..i + 1] == keys[..i] + [keys[i]];
      BuildJoins(keys[..i], [keys[i]], value);
      var kept := CleanText(Attribute(attrs, keys[i]));
      if kept != "" {
        r := r + [Attr(keys[i], kept)];
      }
    }
    assert keys[..|keys|] == keys;
  }

  /** The target of an anchor, together with the relation every kept target gets. */
  method AnchorAttributes(lib: Library, attrs: seq<Attr>, ghost value: Key -> string) returns (r: seq<Attr>)
    requires lib.Valid() && value(Href) == ElementValue(lib, attrs, Href) && value(Rel) == ElementValue(lib, attrs, Rel)
    ensures r == Build(ANCHOR_KEYS, value)
  {
    r := [];
    var href := lib.normalize(Attribute(attrs, Href), ANCHOR_SCHEMES);
    if href.Some? {
      r := [Attr(Href, href.value), Attr(Rel, FOLLOW)];
      assert href.value != "";
    }
    BuildJoins([Href], [Rel], value);
    assert [Href] + [Rel] == [Href, Rel];
  }

  method SpanAttributes(attrs: seq<Attr>, keys: seq<Key>, ghost value: Key -> string) returns (r: seq<Attr>)
    requires forall k :: k in keys ==> value(k) == SpanOrNothing(Attribute(attrs, k))
    ensures r == Build(keys, value)
  {
    r := [];
    for i := 0 to |keys|
      invariant r == Build(keys[..i], value)
    {
      assert keys[..i + 1] == keys[..i] + [keys[i]];
      BuildJoins(keys[..i], [keys[i]], value);
      var span := Attribute(attrs, keys[i]);
      if IsUint(span, 0x100) && Digits(span) > 0 {
        r := r + [Attr(keys[i], span)];
      }
    }
    assert keys[..|keys|] == keys;
  }

  predicate IsTextKey(key: Key) {
    !key.Href? && !key.Rel? && !key.Colspan? && !key.Rowspan?
  }

  lemma BaseKeysAreText()
    ensures forall k :: k in PRESENTATION + [Title] ==> IsTextKey(k)
  {
  }

  lemma ThreeParts(xs: seq<Key>, ys: seq<Key>, zs: seq<Key>, value: Key -> string)
    ensures Build(xs + ys + zs, value) == Build(xs, value) + Build(ys, value) + Build(zs, value)
  {
    BuildJoins(xs, ys, value);
    BuildJoins(xs + ys, zs, value);
  }

  lemma TextValues(lib: Library, attrs: seq<Attr>, keys: seq<Key>)
    requires forall k :: k in keys ==> IsTextKey(k)
    ensures forall k :: k in keys ==> ElementValue(lib, attrs, k) == CleanText(Attribute(attrs, k))
  {
  }

  lemma SpanValues(lib: Library, attrs: seq<Attr>)
    ensures forall k :: k in SPAN_KEYS ==> ElementValue(lib, attrs, k) == SpanOrNothing(Attribute(attrs, k))
  {
  }

  /** The attributes in the order they are written: plain texts, the target of an anchor, the spans of a cell. */
  method AttributesInOrder(lib: Library, base: seq<Key>, anchor: bool, cell: bool, attrs: seq<Attr>) returns (r: seq<Attr>)
    requires lib.Valid() && forall k :: k in base ==> IsTextKey(k)
    ensures r == ElementAttributes(lib, base + (if anchor then ANCHOR_KEYS else []) + (if cell then SPAN_KEYS else []), attrs)
  {
    ghost var value := k => ElementValue(lib, attrs, k);
    ThreeParts(base, if anchor then ANCHOR_KEYS else [], if cell then SPAN_KEYS else [], value);
    TextValues(lib, attrs, base);
    var texts := CleanPresentationAttributes(attrs, base, value);
    var target: seq<Attr>, spans: seq<Attr> := [], [];
    if anchor {
      target := AnchorAttributes(lib, attrs, value);
    }
    if cell {
      SpanValues(lib, attrs);
      spans := SpanAttributes(attrs, SPAN_KEYS, value);
    }
    r := texts + target + spans;
  }

  method ElementAttributesOf(lib: Library, tag: Tag, attrs: seq<Attr>) returns (r: seq<Attr>)
    requires lib.Valid()
    ensures r == CleanAttributes(lib, tag, attrs)
  {
    BaseKeysAreText();
    r := AttributesInOrder(lib, PRESENTATION + [Title], tag == A, tag == Td || tag == Th, attrs);
  }

  method SizedTexts(attrs: seq<Attr>, keys: seq<Key>, ghost value: Key -> string) returns (r: seq<Attr>)
    requires forall k :: k in keys ==>
      value(k) == (if k in {Width, Height} then SizeOrNothing(CleanText(Attribute(attrs, k))) else CleanText(Attribute(attrs, k)))
    ensures r == Build(keys, value)
  {
    r := [];
    for i := 0 to |keys|
      invariant r == Build(keys[..i], value)
    {
      assert keys[..i + 1] == keys[..i] + [keys[i]];
      BuildJoins(keys[..i], [keys[i]], value);
      var text := CleanText(Attribute(attrs, keys[i]));
      if text != "" {
        if keys[i] in {Width, Height} && !IsUint(text, 0x1_0000) {
          continue;
        }
        r := r + [Attr(keys[i], text)];
      }
    }
    assert keys[..|keys|] == keys;
  }

  const IMAGE_SIZED: seq<Key> := [Alt, Title, Width, Height]
  const IMAGE_PRESENTATION: seq<Key> := [Class, Id, Style, Dir, Lang, Align]

  /** The address first, then the texts and sizes, then the presentation. */
  method ImageAttributesInOrder(allow: bool, source: string, sized: seq<Key>, plain: seq<Key>, attrs: seq<Attr>)
    returns (r: seq<Attr>)
    requires source != "" && (forall k :: k in sized ==> !k.Src? && !k.RemoteSrc?)
    requires forall k :: k in plain ==> !k.Src? && !k.RemoteSrc? && !k.Width? && !k.Height?
    ensures r == ImageAttributes(allow, source, sized + plain, attrs)
  {
    ghost var value := k => ImageValue(source, attrs, k);
    var address := AddressKey(allow);
    r := [Attr(address, source)];
    assert Build([address], value) == r;
    var texts := SizedTexts(attrs, sized, value);
    var presentation := CleanPresentationAttributes(attrs, plain, value);
    BuildJoins(sized, plain, value);
    BuildJoins([address], sized + plain, value);
    r := r + (texts + presentation);
  }

  lemma ImageKeysInOrder()
    ensures IMAGE_SIZED + IMAGE_PRESENTATION == IMAGE_TEXT
    ensures forall k :: k in IMAGE_SIZED ==> !k.Src? && !k.RemoteSrc?
    ensures forall k :: k in IMAGE_PRESENTATION ==> !k.Src? && !k.RemoteSrc? && !k.Width? && !k.Height?
  {
  }

  method ImageAttributesOf(allow: bool, source: string, attrs: seq<Attr>) returns (r: seq<Attr>)
    requires source != ""
    ensures r == ImageAttributes(allow, source, IMAGE_TEXT, attrs)
  {
    ImageKeysInOrder();
    r := ImageAttributesInOrder(allow, source, IMAGE_SIZED, IMAGE_PRESENTATION, attrs);
  }

  class Walker {
    const lib: Library
    const mode: Mode
    var remoteImagesRemoved: bool

    constructor (lib: Library, mode: Mode)
      ensures this.lib == lib && this.mode == mode && !remoteImagesRemoved
    {
      this.lib, this.mode, remoteImagesRemoved := lib, mode, false;
    }

    method CleanImageNode(attrs: seq<Attr>) returns (r: Siblings)
      requires lib.Valid()
      modifies this`remoteImagesRemoved
      ensures r == CleanImage(lib, mode, attrs)
      ensures remoteImagesRemoved == (old(remoteImagesRemoved) || HoldsBack(lib, mode, Element(Img, attrs, End)))
    {
      var source := Attribute(attrs, Src);
      var parsed := lib.normalize(source, {Https});
      if parsed.None? && mode.placeholders {
        parsed := lib.normalize(Attribute(attrs, RemoteSrc), {Https});
      }
      if parsed.None? {
        if source != "" {
          remoteImagesRemoved := true;
        }
        return End;
      }
      assert parsed.value != "";
      var kept := ImageAttributesOf(mode.allow, parsed.value, attrs);
      if !mode.allow {
        remoteImagesRemoved := true;
      }
      r := Only(Element(Img, kept, End));
    }

    method CleanNode(node: Node) returns (r: Siblings)
      requires lib.Valid()
      modifies this`remoteImagesRemoved
      ensures r == Clean(lib, mode, node)
      ensures remoteImagesRemoved == (old(remoteImagesRemoved) || HoldsBack(lib, mode, node))
      decreases NodeSize(node), 0
    {
      match node
      case Text(data) => r := Only(Text(data));
      case Ignored => r := End;
      case Element(tag, attrs, children) =>
        if tag == Img {
          r := CleanImageNode(attrs);
        } else if tag == StyleSheet {
          r := CleanStyle(attrs, children);
        } else if tag == Link {
          r := CleanLink(lib, attrs);
        } else if IsDropped(tag) {
          r := End;
        } else {
          r := CleanChildren(children);
          if IsAllowed(tag) {
            var kept := ElementAttributesOf(lib, tag, attrs);
            r := Only(Element(tag, kept, r));
          }
        }
    }

    /** Cleans the siblings one after the other and appends what each leaves. */
    method CleanChildren(f: Siblings) returns (r: Siblings)
      requires lib.Valid()
      modifies this`remoteImagesRemoved
      ensures r == CleanAll(lib, mode, f)
      ensures remoteImagesRemoved == (old(remoteImagesRemoved) || HoldsBackIn(lib, mode, f))
      decreases Size(f), 1
    {
      r := End;
      var child := f;
      while child.Sibling?
        invariant Size(child) <= Size(f)
        invariant Append(r, CleanAll(lib, mode, child)) == CleanAll(lib, mode, f)
        invariant (remoteImagesRemoved || HoldsBackIn(lib, mode, child)) == (old(remoteImagesRemoved) || HoldsBackIn(lib, mode, f))
        decreases Size(child)
      {
        var cleaned := CleanNode(child.node);
        AppendAssociates(r, cleaned, CleanAll(lib, mode, child.next));
        r := Append(r, cleaned);
        child := child.next;
      }
      AppendEnd(r);
    }
  }

  /** Sanitizes or renders a whole document. */
  method Sanitize(lib: Library, allow: bool, placeholders: bool, document: Siblings)
    returns (r: Siblings, remoteImagesRemoved: bool)
    requires lib.Valid()
    ensures r == CleanAll(lib, Mode(allow, placeholders), document)
    ensures remoteImagesRemoved == HoldsBackIn(lib, Mode(allow, placeholders), document)
  {
    var walker := new Walker(lib, Mode(allow, placeholders));
    r := walker.CleanChildren(document);
    remoteImagesRemoved := walker.remoteImagesRemoved;
  }
}
