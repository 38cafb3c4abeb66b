/** The part of Go's encoding/xml that the hand-written encoders drive:
    tokens written one at a time to an encoder, and the element trees those
    token streams stand for.  Names are the encoder's local names written
    literally (prefixes such as "i:" or "a1:" are part of the name, exactly
    as the encoders spell them); the Space half of Go's xml.Name is always
    empty in the encoders modelled here and is not represented. */
module Xml {
  import opened Wrappers

  /** One attribute of a start tag. */
  datatype Attr = Attr(name: string, value: string)

  /** Go's xml.StartElement: a name and an attribute list. */
  datatype StartElement = StartElement(name: string, attrs: seq<Attr>)

  /** Go's XML tokens as the encoders pass them to EncodeToken. */
  datatype Token =
    | Start(element: StartElement)
    | Chars(text: string)
    | End(name: string)

  /** An element tree: what a well-formed token stream denotes. */
  datatype Node =
    | Element(name: string, attrs: seq<Attr>, children: seq<Node>)
    | Text(text: string)

  /** An element holding just character data, as every scalar field is written. */
  function Leaf(name: string, text: string): (n: Node)
    ensures n.Element? && n.name == name && n.attrs == [] && n.children == [Text(text)]
  {
    Element(name, [], [Text(text)])
  }

  /** The token stream of a tree: start tag, children in order, end tag. */
  function Serialize(n: Node): seq<Token>
    decreases n
  {
    match n
    case Text(t) => [Chars(t)]
    case Element(name, attrs, cs) => [Start(StartElement(name, attrs))] + SerializeAll(cs) + [End(name)]
  }

  function SerializeAll(ns: seq<Node>): seq<Token>
    decreases ns
  {
    if ns == [] then [] else Serialize(ns[0]) + SerializeAll(ns[1..])
  }

  lemma {:induction false} SerializeAllAppend(a: seq<Node>, b: seq<Node>)
    ensures SerializeAll(a + b) == SerializeAll(a) + SerializeAll(b)
    decreases a
  {
    if a == [] {
      assert a + b == b;
    } else {
      assert (a + b)[0] == a[0];
      assert (a + b)[1..] == a[1..] + b;
      SerializeAllAppend(a[1..], b);
    }
  }

  lemma SerializeAllSingle(n: Node)
    ensures SerializeAll([n]) == Serialize(n)
  {
    assert [n][1..] == [];
  }

  lemma SerializeAllSnoc(ns: seq<Node>, n: Node)
    ensures SerializeAll(ns + [n]) == SerializeAll(ns) + Serialize(n)
  {
    SerializeAllAppend(ns, [n]);
    SerializeAllSingle(n);
  }

  /** Regrouping appended token streams, stated once so that callers with
      large concrete streams need not re-derive it element by element. */
  lemma AppendAssoc<T>(a: seq<T>, b: seq<T>, c: seq<T>)
    ensures a + b + c == a + (b + c)
  {
  }

  /** Five writes in a row append their concatenation. */
  lemma AppendFive<T>(t0: seq<T>, a: seq<T>, b: seq<T>, c: seq<T>, d: seq<T>, e: seq<T>,
                      t1: seq<T>, t2: seq<T>, t3: seq<T>, t4: seq<T>, t5: seq<T>)
    requires t1 == t0 + a && t2 == t1 + b && t3 == t2 + c && t4 == t3 + d && t5 == t4 + e
    ensures t5 == t0 + (a + b + c + d + e)
  {
    AppendAssoc(t0, a, b);
    AppendAssoc(t0, a + b, c);
    AppendAssoc(t0, a + b + c, d);
    AppendAssoc(t0, a + b + c + d, e);
  }

  lemma SerializeAllPair(x: Node, y: Node)
    ensures SerializeAll([x, y]) == Serialize(x) + Serialize(y)
  {
    assert [x, y][1..] == [y];
    SerializeAllSingle(y);
  }

  /** Scans a token stream against a stack of open element names (top at the
      end): a start tag pushes, an end tag must match and pop the top.  None
      means an end tag arrived that does not close the innermost open element. */
  function Scan(ts: seq<Token>, open: seq<string>): Option<seq<string>>
    decreases |ts|
  {
    if ts == [] then Some(open)
    else match ts[0]
      case Start(s) => Scan(ts[1..], open + [s.name])
      case Chars(_) => Scan(ts[1..], open)
      case End(name) =>
        if open != [] && open[|open| - 1] == name then Scan(ts[1..], open[..|open| - 1]) else None
  }

  /** Every start tag is closed, by an end tag of the same name, in
      last-opened-first-closed order, and no end tag is unmatched. */
  predicate WellNested(ts: seq<Token>)
  {
    Scan(ts, []) == Some([])
  }

  lemma {:induction false} ScanAppend(a: seq<Token>, b: seq<Token>, open: seq<string>)
    ensures Scan(a + b, open) == match Scan(a, open) case None => None case Some(o) => Scan(b, o)
    decreases |a|
  {
    if a == [] {
      assert a + b == b;
    } else {
      assert (a + b)[0] == a[0];
      assert (a + b)[1..] == a[1..] + b;
      match a[0]
      case Start(s) => ScanAppend(a[1..], b, open + [s.name]);
      case Chars(_) => ScanAppend(a[1..], b, open);
      case End(name) =>
        if open != [] && open[|open| - 1] == name {
          ScanAppend(a[1..], b, open[..|open| - 1]);
        }
    }
  }

  lemma {:induction false} ScanSerialize(n: Node, open: seq<string>)
    ensures Scan(Serialize(n), open) == Some(open)
    decreases n
  {
    match n
    case Text(t) =>
    case Element(name, attrs, cs) =>
      var s := [Start(StartElement(name, attrs))];
      ScanAppend(s + SerializeAll(cs), [End(name)], open);
      ScanAppend(s, SerializeAll(cs), open);
      assert Scan(s, open) == Some(open + [name]) by {
        assert s[1..] == [];
      }
      ScanSerializeAll(cs, open + [name]);
      assert (open + [name])[..|open|] == open;
  }

  lemma {:induction false} ScanSerializeAll(ns: seq<Node>, open: seq<string>)
    ensures Scan(SerializeAll(ns), open) == Some(open)
    decreases ns
  {
    if ns != [] {
      ScanAppend(Serialize(ns[0]), SerializeAll(ns[1..]), open);
      ScanSerialize(ns[0], open);
      ScanSerializeAll(ns[1..], open);
    }
  }

  /** The token stream of an element opens with that element's start tag,
      closes with its matching end tag, and everything between pairs up on
      its own, so the outer tag is closed exactly once, by the last token. */
  lemma SerializeWellNested(n: Node)
    requires n.Element?
    ensures WellNested(Serialize(n))
    ensures Serialize(n)[0] == Start(StartElement(n.name, n.attrs))
    ensures Serialize(n)[|Serialize(n)| - 1] == End(n.name)
    ensures WellNested(Serialize(n)[1..|Serialize(n)| - 1])
  {
    ScanSerialize(n, []);
    var inner := SerializeAll(n.children);
    assert Serialize(n)[1..|Serialize(n)| - 1] == inner;
    ScanSerializeAll(n.children, []);
  }

  /** The concatenation of well-nested streams is well-nested. */
  lemma WellNestedConcat(a: seq<Token>, b: seq<Token>)
    requires WellNested(a) && WellNested(b)
    ensures WellNested(a + b)
  {
    ScanAppend(a, b, []);
  }

  /** The name of a child: its element name, or "" for character data. */
  function NameOf(n: Node): string
  {
    if n.Element? then n.name else ""
  }

  /** The names of a sequence of sibling nodes, in document order. */
  function NamesOf(ns: seq<Node>): (names: seq<string>)
    ensures |names| == |ns|
    ensures forall i :: 0 <= i < |ns| ==> names[i] == NameOf(ns[i])
  {
    seq(|ns|, i requires 0 <= i < |ns| => NameOf(ns[i]))
  }

  lemma NamesOfAppend(a: seq<Node>, b: seq<Node>)
    ensures NamesOf(a + b) == NamesOf(a) + NamesOf(b)
  {
  }

  /** Whether an attribute list has an attribute of the given name. */
  predicate HasAttr(attrs: seq<Attr>, name: string)
  {
    exists a :: a in attrs && a.name == name
  }

  /** Go's *xml.Encoder as the encoders use it: every EncodeToken call
      appends one token to what has been written.  Errors the real encoder
      can report (an I/O failure, its own tag bookkeeping) are not part of
      this model. */
  class Encoder {
    var tokens: seq<Token>

    constructor ()
      ensures tokens == []
    {
      tokens := [];
    }

    method EncodeToken(t: Token)
      modifies this
      ensures tokens == old(tokens) + [t]
    {
      tokens := tokens + [t];
    }
  }

  /** Start tag, character data, end tag: how every scalar field is written. */
  method EncodeTextElement(e: Encoder, name: string, text: string)
    modifies e
    ensures e.tokens == old(e.tokens) + Serialize(Leaf(name, text))
  {
    e.EncodeToken(Start(StartElement(name, [])));
    e.EncodeToken(Chars(text));
    e.EncodeToken(End(name));
    assert Serialize(Leaf(name, text)) == [Start(StartElement(name, []))] + [Chars(text)] + [End(name)] by {
      SerializeAllSingle(Text(text));
    }
  }
}
