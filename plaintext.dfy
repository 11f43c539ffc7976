/** The plain-text serialiser of the option build script (nix/build.py):
    Markdown is rendered to an element tree and the tree is flattened to the
    text a reader sees, dropping comments, processing instructions and the
    bodies of `script` and `style` elements. */
module PlainText {
  import opened Types

  /** The tag of an element: the two special node kinds, the tag-less root
      that Markdown builds (Python's `None`), or an ordinary named tag. */
  datatype Tag = Comment | ProcessingInstruction | NoTag | Named(name: string)

  /** An element of the tree. `text` is the text before the first child,
      `tail` the text after the element's end tag, inside its parent. */
  datatype Element = Element(tag: Tag, text: Option<string>, children: seq<Element>, tail: Option<string>)

  // ---------------------------------------------------------------------------
  // Tag names
  // ---------------------------------------------------------------------------

  function LowerChar(c: char): (r: char)
    ensures 'A' <= c <= 'Z' ==> r as int == c as int + 32
    ensures !('A' <= c <= 'Z') ==> r == c
  {
    if 'A' <= c <= 'Z' then (c as int + 32) as char else c
  }

  /** `str.lower()` restricted to ASCII letters. */
  function LowerAscii(s: string): (r: string)
    ensures |r| == |s|
    ensures forall i :: 0 <= i < |s| ==> r[i] == LowerChar(s[i])
  {
    seq(|s|, i requires 0 <= i < |s| => LowerChar(s[i]))
  }

  /** True for the tags whose own text is not written: `script` and `style`,
      in any letter case. */
  predicate SuppressesText(name: string)
  {
    LowerAscii(name) in ["script", "style"]
  }

  lemma SuppressesTextExamples()
    ensures SuppressesText("script") && SuppressesText("SCRIPT") && SuppressesText("Style")
    ensures !SuppressesText("scripts") && !SuppressesText("p") && !SuppressesText("")
  {
    assert LowerAscii("script") == "script";
    assert LowerAscii("SCRIPT") == "script";
    assert LowerAscii("Style") == "style";
    assert |LowerAscii("scripts")| == 7;
  }

  // ---------------------------------------------------------------------------
  // What the serialiser writes
  // ---------------------------------------------------------------------------

  /** The pieces one optional field contributes: Python's `if text: write(text)`,
      so an absent or empty string is never written. */
  function Emit(s: Option<string>): (r: seq<string>)
    ensures |r| <= 1
  {
    if s.Some? && s.value != "" then [s.value] else []
  }

  /** The element's own text if its tag lets it through. */
  function OwnText(e: Element): Option<string>
  {
    match e.tag
    case Comment => None
    case ProcessingInstruction => None
    case NoTag => e.text
    case Named(n) => if SuppressesText(n) then None else e.text
  }

  /** True when the serialiser descends into the element's children. */
  predicate Descends(t: Tag)
  {
    t.NoTag? || t.Named?
  }

  /** The sequence of strings handed to `write`, in call order, for one
      element: its text (when emitted), each child's pieces, its tail. */
  function Pieces(e: Element): seq<string>
    decreases e
  {
    Emit(OwnText(e)) + (if Descends(e.tag) then ChildPieces(e.children) else []) + Emit(e.tail)
  }

  function ChildPieces(cs: seq<Element>): seq<string>
    decreases cs
  {
    if cs == [] then [] else Pieces(cs[0]) + ChildPieces(cs[1..])
  }

  /** `"".join(pieces)`. */
  function Join(ps: seq<string>): string
  {
    if ps == [] then "" else ps[0] + Join(ps[1..])
  }

  // ---------------------------------------------------------------------------
  // The pure definition
  // ---------------------------------------------------------------------------

  function Text(s: Option<string>): string
  {
    s.GetOr("")
  }

  /** The plain text of an element: text, then the children's text in
      order, then the tail. Comments and processing instructions contribute
      their tail only; `script` and `style` drop their own text only. */
  function PlainText(e: Element): string
    decreases e
  {
    match e.tag
    case Comment => Text(e.tail)
    case ProcessingInstruction => Text(e.tail)
    case NoTag => Text(e.text) + ChildrenText(e.children) + Text(e.tail)
    case Named(n) =>
      (if SuppressesText(n) then "" else Text(e.text)) + ChildrenText(e.children) + Text(e.tail)
  }

  function ChildrenText(cs: seq<Element>): string
    decreases cs
  {
    if cs == [] then "" else PlainText(cs[0]) + ChildrenText(cs[1..])
  }

  /** The sum of the lengths of every text and tail field in the tree. */
  function TextBudget(e: Element): nat
    decreases e
  {
    |Text(e.text)| + ChildrenBudget(e.children) + |Text(e.tail)|
  }

  function ChildrenBudget(cs: seq<Element>): nat
    decreases cs
  {
    if cs == [] then 0 else TextBudget(cs[0]) + ChildrenBudget(cs[1..])
  }

  /** Every non-empty text and tail value anywhere in the tree. */
  function FieldValues(e: Element): set<string>
    decreases e
  {
    NonEmpty(e.text) + ChildFieldValues(e.children) + NonEmpty(e.tail)
  }

  function ChildFieldValues(cs: seq<Element>): set<string>
    decreases cs
  {
    if cs == [] then {} else FieldValues(cs[0]) + ChildFieldValues(cs[1..])
  }

  function NonEmpty(s: Option<string>): set<string>
  {
    if s.Some? && s.value != "" then {s.value} else {}
  }

  // ---------------------------------------------------------------------------
  // Lemmas
  // ---------------------------------------------------------------------------

  lemma {:induction false} JoinAppend(a: seq<string>, b: seq<string>)
    ensures Join(a + b) == Join(a) + Join(b)
    decreases a
  {
    if a == [] {
      assert a + b == b;
    } else {
      assert (a + b)[1..] == a[1..] + b;
      JoinAppend(a[1..], b);
    }
  }

  lemma {:induction false} JoinEmit(s: Option<string>)
    ensures Join(Emit(s)) == Text(s)
  {
    if s.Some? && s.value != "" {
      assert Join([s.value]) == s.value + Join([]);
    }
  }

  /** Joining what the serialiser writes gives the pure plain text. */
  lemma {:induction false} JoinPieces(e: Element)
    ensures Join(Pieces(e)) == PlainText(e)
    decreases e, 1
  {
    var own, kids, tail := Emit(OwnText(e)), (if Descends(e.tag) then ChildPieces(e.children) else []), Emit(e.tail);
    JoinAppend(own + kids, tail);
    JoinAppend(own, kids);
    JoinEmit(OwnText(e));
    JoinEmit(e.tail);
    if Descends(e.tag) {
      JoinChildPieces(e.children);
    }
  }

  lemma {:induction false} JoinChildPieces(cs: seq<Element>)
    ensures Join(ChildPieces(cs)) == ChildrenText(cs)
    decreases cs, 0
  {
    if cs != [] {
      JoinAppend(Pieces(cs[0]), ChildPieces(cs[1..]));
      JoinPieces(cs[0]);
      JoinChildPieces(cs[1..]);
    }
  }

  /** The children's pieces of a concatenation are the concatenation of their pieces. */
  lemma {:induction false} ChildPiecesAppend(a: seq<Element>, b: seq<Element>)
    ensures ChildPieces(a + b) == ChildPieces(a) + ChildPieces(b)
    decreases a
  {
    if a == [] {
      assert a + b == b;
    } else {
      assert (a + b)[1..] == a[1..] + b;
      ChildPiecesAppend(a[1..], b);
    }
  }

  /** One turn of the loop of `SerializeChildren`. */
  lemma ChildPiecesLoopStep(start: seq<string>, cs: seq<Element>, i: nat)
    requires i < |cs|
    ensures start + ChildPieces(cs[..i]) + Pieces(cs[i]) == start + ChildPieces(cs[..i + 1])
  {
    ChildPiecesStep(cs, i);
    ConcatAssoc(start, ChildPieces(cs[..i]), Pieces(cs[i]));
  }

  lemma ConcatAssoc<T>(a: seq<T>, b: seq<T>, c: seq<T>)
    ensures a + b + c == a + (b + c)
  {
  }

  lemma ChildPiecesStep(cs: seq<Element>, i: nat)
    requires i < |cs|
    ensures ChildPieces(cs[..i + 1]) == ChildPieces(cs[..i]) + Pieces(cs[i])
  {
    assert cs[..i + 1] == cs[..i] + [cs[i]];
    ChildPiecesAppend(cs[..i], [cs[i]]);
    assert ChildPieces([cs[i]]) == Pieces(cs[i]) + ChildPieces([]);
  }

  /** Every piece written is a non-empty text or tail value of the tree. */
  lemma {:induction false} PiecesAreFields(e: Element)
    ensures forall p :: p in Pieces(e) ==> p != "" && p in FieldValues(e)
    decreases e, 1
  {
    ChildPiecesAreFields(e.children);
  }

  lemma {:induction false} ChildPiecesAreFields(cs: seq<Element>)
    ensures forall p :: p in ChildPieces(cs) ==> p != "" && p in ChildFieldValues(cs)
    decreases cs, 0
  {
    if cs != [] {
      PiecesAreFields(cs[0]);
      ChildPiecesAreFields(cs[1..]);
    }
  }

  /** Only text and tail fields are ever written, so the output is never
      longer than all of them together. */
  lemma {:induction false} PlainTextWithinBudget(e: Element)
    ensures |PlainText(e)| <= TextBudget(e)
    decreases e, 1
  {
    ChildrenTextWithinBudget(e.children);
  }

  lemma {:induction false} ChildrenTextWithinBudget(cs: seq<Element>)
    ensures |ChildrenText(cs)| <= ChildrenBudget(cs)
    decreases cs, 0
  {
    if cs != [] {
      PlainTextWithinBudget(cs[0]);
      ChildrenTextWithinBudget(cs[1..]);
    }
  }

  /** A comment or a processing instruction writes its tail and nothing of
      its text or its subtree. */
  lemma SkippedNodeWritesOnlyTail(e: Element)
    requires e.tag == Comment || e.tag == ProcessingInstruction
    ensures Pieces(e) == Emit(e.tail)
    ensures PlainText(e) == Text(e.tail)
  {
  }

  /** A named element's text is written iff it is non-empty and the tag is
      not `script` or `style`; its children and tail are written either way. */
  lemma NamedElementPieces(e: Element)
    requires e.tag.Named?
    ensures Pieces(e) == (if SuppressesText(e.tag.name) then [] else Emit(e.text))
                         + ChildPieces(e.children) + Emit(e.tail)
    ensures e.text.Some? && e.text.value != "" ==>
              (SuppressesText(e.tag.name) <==> |Pieces(e)| == |ChildPieces(e.children)| + |Emit(e.tail)|)
  {
  }

  /** A tag-less element is written exactly as a named one that is neither
      `script` nor `style`. */
  lemma NoTagLikeOrdinaryTag(text: Option<string>, children: seq<Element>, tail: Option<string>, name: string)
    requires !SuppressesText(name)
    ensures Pieces(Element(NoTag, text, children, tail)) == Pieces(Element(Named(name), text, children, tail))
    ensures PlainText(Element(NoTag, text, children, tail)) == PlainText(Element(Named(name), text, children, tail))
  {
  }

  // ---------------------------------------------------------------------------
  // The buffer-appending implementation
  // ---------------------------------------------------------------------------

  /** The list `data` that `write = data.append` appends to. */
  class TextBuffer {
    var data: seq<string>

    constructor ()
      ensures data == []
    {
      data := [];
    }

    method Write(s: string)
      modifies this
      ensures data == old(data) + [s]
    {
      data := data + [s];
    }
  }

  /** `_serialize_plain_text`: walks the element and appends to the buffer
      exactly the pieces of `Pieces(e)`, in order. */
  method SerializePlainText(w: TextBuffer, e: Element)
    modifies w
    ensures w.data == old(w.data) + Pieces(e)
    decreases e, 1
  {
    ghost var start := w.data;
    var own := OwnText(e);
    if own.Some? && own.value != "" {
      w.Write(own.value);
    }
    ghost var afterText := w.data;
    if Descends(e.tag) {
      SerializeChildren(w, e.children);
    }
    ghost var kids := if Descends(e.tag) then ChildPieces(e.children) else [];
    assert w.data == afterText + kids;
    ghost var afterKids := w.data;
    if e.tail.Some? && e.tail.value != "" {
      w.Write(e.tail.value);
    }
    assert w.data == afterKids + Emit(e.tail);
    ConcatAssoc(start, Emit(own), kids);
    ConcatAssoc(start, Emit(own) + kids, Emit(e.tail));
  }

  /** The `for e in elem` loop of `_serialize_plain_text`. */
  method SerializeChildren(w: TextBuffer, cs: seq<Element>)
    modifies w
    ensures w.data == old(w.data) + ChildPieces(cs)
    decreases cs, 0
  {
    ghost var start := w.data;
    assert start + ChildPieces(cs[..0]) == start by {
      assert cs[..0] == [];
    }
    for i := 0 to |cs|
      invariant w.data == start + ChildPieces(cs[..i])
    {
      SerializePlainText(w, cs[i]);
      ChildPiecesLoopStep(start, cs, i);
    }
    assert cs[..|cs|] == cs;
  }

  /** `_write_plain_text`: collect the pieces, then join them. */
  method WritePlainText(root: Element) returns (s: string)
    ensures s == PlainText(root)
  {
    var w := new TextBuffer();
    SerializePlainText(w, root);
    assert w.data == Pieces(root);
    s := Join(w.data);
    JoinPieces(root);
  }

  /** `to_plain_text`: the tree's root is the element itself. */
  method ToPlainText(element: Element) returns (s: string)
    ensures s == PlainText(element)
    ensures |s| <= TextBudget(element)
  {
    s := WritePlainText(element);
    PlainTextWithinBudget(element);
  }

  // ---------------------------------------------------------------------------
  // Rewriting the description fields of one option
  // ---------------------------------------------------------------------------

  /** A JSON value of an option record as the script loads it. */
  datatype Json = JString(s: string) | JOther

  datatype ReplaceError = MissingDescription | DescriptionNotText

  /** One option as a Python dict, updated in place. */
  class OptionDict {
    var entries: map<string, Json>

    constructor (entries: map<string, Json>)
      ensures this.entries == entries
    {
      this.entries := entries;
    }

    /** `replace`: render the original description to HTML and to plain text
        (both conversions are parameters) and store them under
        `descriptionHTML` and `description`. A missing key raises before any
        write; so does a description that is not text, which Markdown cannot
        convert. */
    method Replace(toHtml: string -> string, toPlain: string -> string) returns (err: Option<ReplaceError>)
      modifies this
      ensures err == ReplaceFailure(old(entries))
      ensures err.None? ==> entries == Replaced(old(entries), toHtml, toPlain)
      ensures err.Some? ==> entries == old(entries)
    {
      if "description" !in entries {
        return Some(MissingDescription);
      }
      var desc := entries["description"];
      if !desc.JString? {
        return Some(DescriptionNotText);
      }
      entries := entries["descriptionHTML" := JString(toHtml(desc.s))];
      entries := entries["description" := JString(toPlain(desc.s))];
      err := None;
    }
  }

  function ReplaceFailure(entries: map<string, Json>): (r: Option<ReplaceError>)
    ensures r.None? <==> "description" in entries && entries["description"].JString?
  {
    if "description" !in entries then Some(MissingDescription)
    else if !entries["description"].JString? then Some(DescriptionNotText)
    else None
  }

  /** The dict after a successful `replace`: both description fields are
      computed from the original description, every other key is kept. */
  function Replaced(entries: map<string, Json>, toHtml: string -> string, toPlain: string -> string): (r: map<string, Json>)
    requires ReplaceFailure(entries).None?
    ensures r.Keys == entries.Keys + {"descriptionHTML"}
    ensures r["descriptionHTML"] == JString(toHtml(entries["description"].s))
    ensures r["description"] == JString(toPlain(entries["description"].s))
    ensures forall k :: k in entries && k != "description" && k != "descriptionHTML" ==> r[k] == entries[k]
  {
    var desc := entries["description"].s;
    entries["descriptionHTML" := JString(toHtml(desc))]["description" := JString(toPlain(desc))]
  }
}
