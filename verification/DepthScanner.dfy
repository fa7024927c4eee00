/** The byte scanner that bounds JSON nesting before a request body is parsed. It tracks only
    quoting and brackets, yet on every JSON text it finds the nesting depth of the value.
 */
module DepthScanner {
  import opened JsonText

  const LIMIT := 12

  datatype Scan = Scan(depth: int, quoted: bool, escaped: bool)

  const START := Scan(0, false, false)

  function Step(s: Scan, byte: Byte): Scan {
    if s.escaped then s.(escaped := false)
    else if s.quoted && byte == 92 then s.(escaped := true)
    else if byte == 34 then s.(quoted := !s.quoted)
    else if !s.quoted then
      s.(depth := s.depth + (if byte == 91 || byte == 123 then 1 else 0) - (if byte == 93 || byte == 125 then 1 else 0))
    else s
  }

  function Run(s: Scan, bytes: seq<Byte>): Scan {
    if bytes == [] then s else Step(Run(s, bytes[..|bytes| - 1]), bytes[|bytes| - 1])
  }

  /** The greatest depth on the way. */
  function Peak(s: Scan, bytes: seq<Byte>): (p: int)
    ensures p >= s.depth && p >= Run(s, bytes).depth
  {
    if bytes == [] then s.depth else Max(Peak(s, bytes[..|bytes| - 1]), Run(s, bytes).depth)
  }

  lemma PeakGrows(s: Scan, bytes: seq<Byte>, k: nat)
    requires k <= |bytes|
    ensures Peak(s, bytes[..k]) <= Peak(s, bytes)
    decreases |bytes|
  {
    if k < |bytes| {
      assert bytes[..|bytes| - 1][..k] == bytes[..k];
      PeakGrows(s, bytes[..|bytes| - 1], k);
    } else {
      assert bytes[..k] == bytes;
    }
  }

  lemma Idle(s: Scan)
    ensures Run(s, []) == s && Peak(s, []) == s.depth
  {
  }

  lemma Advance(body: seq<Byte>, i: nat)
    requires i < |body|
    ensures Run(START, body[..i + 1]) == Step(Run(START, body[..i]), body[i])
    ensures Peak(START, body[..i + 1]) == Max(Peak(START, body[..i]), Run(START, body[..i + 1]).depth)
  {
    assert body[..i + 1][..i] == body[..i];
  }

  // ---------------------------------------------------------------- fragments

  /** Scanning these bytes from s ends in t, reaching depth p. */
  ghost predicate Passes(s: Scan, bytes: seq<Byte>, t: Scan, p: int) {
    Run(s, bytes) == t && Peak(s, bytes) == p
  }

  lemma {:induction false} Joined(s: Scan, a: seq<Byte>, b: seq<Byte>)
    ensures Run(s, a + b) == Run(Run(s, a), b)
    ensures Peak(s, a + b) == Max(Peak(s, a), Peak(Run(s, a), b))
    decreases |b|
  {
    if b == [] {
      assert a + b == a;
    } else {
      var n := |b| - 1;
      assert (a + b)[..|a + b| - 1] == a + b[..n];
      Joined(s, a, b[..n]);
    }
  }

  lemma Then(s: Scan, a: seq<Byte>, t: Scan, p: int, b: seq<Byte>, u: Scan, q: int)
    requires Passes(s, a, t, p) && Passes(t, b, u, q)
    ensures Passes(s, a + b, u, Max(p, q))
  {
    Joined(s, a, b);
  }

  lemma One(s: Scan, byte: Byte)
    ensures Passes(s, [byte], Step(s, byte), Max(s.depth, Step(s, byte).depth))
  {
    assert [byte][..0] == [];
    assert Run(s, []) == s;
  }

  /** Bytes that are neither quotes nor brackets change nothing outside strings. */
  lemma {:induction false} Inert(d: int, bytes: seq<Byte>)
    requires forall k :: 0 <= k < |bytes| ==> bytes[k] !in [34, 91, 93, 123, 125]
    ensures Passes(Scan(d, false, false), bytes, Scan(d, false, false), d)
  {
    if bytes != [] {
      Inert(d, bytes[..|bytes| - 1]);
    }
  }

  /** Inside a string, brackets count for nothing, and every escape is stepped over whole. */
  lemma PiecePasses(d: int, p: Piece)
    ensures Passes(Scan(d, true, false), PieceBytes(p), Scan(d, true, false), d)
  {
    match p
    case Itself(c) => Ordinary(d, Utf8(c));
    case Short(letter) =>
      One(Scan(d, true, false), 92);
      One(Scan(d, true, true), letter);
      Then(Scan(d, true, false), [92], Scan(d, true, true), d, [letter], Scan(d, true, false), d);
      assert [92] + [letter] == PieceBytes(p);
    case Unicode(h3, h2, h1, h0) =>
      One(Scan(d, true, false), 92);
      One(Scan(d, true, true), 117);
      Then(Scan(d, true, false), [92], Scan(d, true, true), d, [117], Scan(d, true, false), d);
      var digits: seq<Byte> := [h3, h2, h1, h0];
      Ordinary(d, digits);
      assert [92] + [117] == [92, 117];
      Then(Scan(d, true, false), [92, 117], Scan(d, true, false), d, digits, Scan(d, true, false), d);
  }

  lemma {:induction false} Ordinary(d: int, bytes: seq<Byte>)
    requires forall k :: 0 <= k < |bytes| ==> bytes[k] != 34 && bytes[k] != 92
    ensures Passes(Scan(d, true, false), bytes, Scan(d, true, false), d)
  {
    if bytes != [] {
      Ordinary(d, bytes[..|bytes| - 1]);
    }
  }

  lemma {:induction false} PiecesPass(d: int, pieces: seq<Piece>)
    ensures Passes(Scan(d, true, false), PiecesBytes(pieces), Scan(d, true, false), d)
  {
    hide Passes;
    var inside := Scan(d, true, false);
    if pieces == [] {
      Ordinary(d, []);
    } else {
      PiecePasses(d, pieces[0]);
      PiecesPass(d, pieces[1..]);
      Then(inside, PieceBytes(pieces[0]), inside, d, PiecesBytes(pieces[1..]), inside, d);
    }
  }

  lemma QuotePasses(d: int, pieces: seq<Piece>)
    ensures Passes(Scan(d, false, false), Quote(pieces), Scan(d, false, false), d)
  {
    hide Passes;
    var outside, inside := Scan(d, false, false), Scan(d, true, false);
    One(outside, 34);
    PiecesPass(d, pieces);
    One(inside, 34);
    Then(outside, [34], inside, d, PiecesBytes(pieces), inside, d);
    Then(outside, [34] + PiecesBytes(pieces), inside, d, [34], outside, d);
  }

  /** A bracketed fragment rises one level for its contents and comes back. */
  lemma BracketPasses(d: int, open: Byte, inner: seq<Byte>, shut: Byte, p: int)
    requires (open == 91 || open == 123) && (shut == 93 || shut == 125)
    requires Passes(Scan(d + 1, false, false), inner, Scan(d + 1, false, false), p)
    ensures Passes(Scan(d, false, false), [open] + inner + [shut], Scan(d, false, false), p)
  {
    var outside, inside := Scan(d, false, false), Scan(d + 1, false, false);
    assert p >= d + 1;
    hide Passes;
    One(outside, open);
    One(inside, shut);
    Then(outside, [open], inside, d + 1, inner, inside, p);
    Then(outside, [open] + inner, inside, p, [shut], outside, d + 1);
  }

  /** Surrounding a value with whitespace changes nothing. */
  lemma SpacedPasses(d: int, before: Space, bytes: seq<Byte>, after: Space, p: int)
    requires Passes(Scan(d, false, false), bytes, Scan(d, false, false), p) && p >= d
    ensures Passes(Scan(d, false, false), before + bytes + after, Scan(d, false, false), p)
  {
    hide Passes;
    var s := Scan(d, false, false);
    Inert(d, before);
    Inert(d, after);
    Then(s, before, s, d, bytes, s, p);
    Then(s, before + bytes, s, p, after, s, d);
  }

  /** A value's text returns to its level and reaches exactly its nesting above it. */
  lemma {:induction false} WritingPasses(d: int, w: Writing)
    ensures Passes(Scan(d, false, false), Write(w), Scan(d, false, false), d + Nesting(ValueOf(w)))
    decreases w
  {
    hide Passes, Write, Nesting, ValueOf;
    if w.WArray? {
      ArrayPasses(d, w);
    } else if w.WObject? {
      ObjectPasses(d, w);
    } else {
      ScalarPasses(d, w);
    }
  }

  lemma ScalarPasses(d: int, w: Writing)
    requires !w.WArray? && !w.WObject?
    ensures Passes(Scan(d, false, false), Write(w), Scan(d, false, false), d + Nesting(ValueOf(w)))
  {
    hide Passes, Quote;
    match w
    case WText(pieces) => QuotePasses(d, pieces);
    case _ => Inert(d, Write(w));
  }

  lemma ArrayForm(w: Writing)
    requires w.WArray?
    ensures Write(w) == [91] + (if w.items.NoItems? then w.gap else WriteItems(w.items)) + [93]
    ensures Nesting(ValueOf(w)) == 1 + DeepestOf(ItemValues(w.items))
    ensures w.items.NoItems? ==> DeepestOf(ItemValues(w.items)) == 0
  {
  }

  lemma ObjectForm(w: Writing)
    requires w.WObject?
    ensures Write(w) == [123] + (if w.members.NoMembers? then w.gap else WriteMembers(w.members)) + [125]
    ensures Nesting(ValueOf(w)) == 1 + DeepestOf(MemberValues(w.members))
    ensures w.members.NoMembers? ==> DeepestOf(MemberValues(w.members)) == 0
  {
  }

  lemma {:induction false} ArrayPasses(d: int, w: Writing)
    requires w.WArray?
    ensures Passes(Scan(d, false, false), Write(w), Scan(d, false, false), d + Nesting(ValueOf(w)))
    decreases w, 0
  {
    hide Passes, Write, Nesting, ValueOf, DeepestOf, ItemValues, WriteItems;
    ArrayForm(w);
    if w.items.NoItems? {
      Inert(d + 1, w.gap);
      BracketPasses(d, 91, w.gap, 93, d + 1);
    } else {
      ItemsPass(d + 1, w.items);
      BracketPasses(d, 91, WriteItems(w.items), 93, d + 1 + DeepestOf(ItemValues(w.items)));
    }
  }

  lemma {:induction false} ObjectPasses(d: int, w: Writing)
    requires w.WObject?
    ensures Passes(Scan(d, false, false), Write(w), Scan(d, false, false), d + Nesting(ValueOf(w)))
    decreases w, 0
  {
    hide Passes, Write, Nesting, ValueOf, DeepestOf, MemberValues, WriteMembers;
    ObjectForm(w);
    if w.members.NoMembers? {
      Inert(d + 1, w.gap);
      BracketPasses(d, 123, w.gap, 125, d + 1);
    } else {
      MembersPass(d + 1, w.members);
      BracketPasses(d, 123, WriteMembers(w.members), 125, d + 1 + DeepestOf(MemberValues(w.members)));
    }
  }

  /** Followed by a comma and more of the same, or by nothing. */
  lemma Followed(d: int, first: seq<Byte>, p: int, last: bool, rest: seq<Byte>, q: int)
    requires Passes(Scan(d, false, false), first, Scan(d, false, false), p) && p >= d && q >= d
    requires if last then q == d else Passes(Scan(d, false, false), rest, Scan(d, false, false), q)
    ensures Passes(Scan(d, false, false), first + (if last then [] else [44] + rest), Scan(d, false, false), Max(p, q))
  {
    hide Passes;
    var s := Scan(d, false, false);
    if last {
      assert first + [] == first;
    } else {
      Inert(d, [44]);
      Then(s, [44], s, d, rest, s, q);
      Then(s, first, s, p, [44] + rest, s, q);
    }
  }

  lemma {:induction false} ItemsPass(d: int, items: Items)
    requires items.Item?
    ensures Passes(Scan(d, false, false), WriteItems(items), Scan(d, false, false), d + DeepestOf(ItemValues(items)))
    decreases items
  {
    hide Passes, Write, ValueOf, Nesting;
    var p, q := d + Nesting(ValueOf(items.item)), d + DeepestOf(ItemValues(items.rest));
    WritingPasses(d, items.item);
    SpacedPasses(d, items.before, Write(items.item), items.after, p);
    if items.rest.Item? {
      ItemsPass(d, items.rest);
    }
    Followed(d, items.before + Write(items.item) + items.after, p, items.rest.NoItems?, WriteItems(items.rest), q);
    assert ItemValues(items)[1..] == ItemValues(items.rest);
  }

  lemma {:induction false} MembersPass(d: int, members: Members)
    requires members.Member?
    ensures Passes(Scan(d, false, false), WriteMembers(members), Scan(d, false, false),
                   d + DeepestOf(MemberValues(members)))
    decreases members
  {
    hide Passes, Write, ValueOf, Nesting, Quote;
    var p, q := d + Nesting(ValueOf(members.value)), d + DeepestOf(MemberValues(members.rest));
    WritingPasses(d, members.value);
    MemberPasses(d, members, p);
    if members.rest.Member? {
      MembersPass(d, members.rest);
    }
    Followed(d, MemberBytes(members), p, members.rest.NoMembers?, WriteMembers(members.rest), q);
    assert MemberValues(members)[1..] == MemberValues(members.rest);
  }

  ghost function MemberBytes(m: Members): seq<Byte>
    requires m.Member?
  {
    m.before + Quote(m.name) + m.afterName + [58] + m.beforeValue + Write(m.value) + m.after
  }

  lemma MemberPasses(d: int, m: Members, p: int)
    requires m.Member? && p >= d
    requires Passes(Scan(d, false, false), Write(m.value), Scan(d, false, false), p)
    ensures Passes(Scan(d, false, false), MemberBytes(m), Scan(d, false, false), p)
  {
    hide Passes;
    var s := Scan(d, false, false);
    QuotePasses(d, m.name);
    SpacedPasses(d, m.before, Quote(m.name), m.afterName, d);
    var named := m.before + Quote(m.name) + m.afterName;
    Inert(d, [58]);
    Then(s, named, s, d, [58], s, d);
    Inert(d, m.beforeValue);
    Then(s, named + [58], s, d, m.beforeValue, s, d);
    Then(s, named + [58] + m.beforeValue, s, d, Write(m.value), s, p);
    Inert(d, m.after);
    Then(s, named + [58] + m.beforeValue + Write(m.value), s, p, m.after, s, d);
  }

  // ---------------------------------------------------------------- main results

  /** However a value is written, the scanner's greatest depth is the value's nesting depth. */
  lemma PeakIsNesting(doc: Document)
    ensures Peak(START, WriteDocument(doc)) == Nesting(ValueOf(doc.root))
  {
    WritingPasses(0, doc.root);
    SpacedPasses(0, doc.before, Write(doc.root), doc.after, Nesting(ValueOf(doc.root)));
  }

  /** Scan a body, stopping at the first byte that opens a thirteenth level. A body that is
      some writing of a value is refused exactly when the value nests deeper than twelve. */
  method TooDeep(body: seq<Byte>) returns (deep: bool)
    ensures deep <==> Peak(START, body) > LIMIT
    ensures forall doc :: WriteDocument(doc) == body ==> (deep <==> Nesting(ValueOf(doc.root)) > 12)
  {
    hide Peak, WriteDocument, Nesting, ValueOf;
    forall doc | WriteDocument(doc) == body
      ensures Peak(START, body) == Nesting(ValueOf(doc.root))
    {
      PeakIsNesting(doc);
    }
    var depth, quoted, escaped := 0, false, false;
    Idle(START);
    for i := 0 to |body|
      invariant Scan(depth, quoted, escaped) == Run(START, body[..i])
      invariant Peak(START, body[..i]) <= LIMIT
    {
      var byte := body[i];
      Advance(body, i);
      if escaped {
        escaped := false;
      } else if quoted && byte == 92 {
        escaped := true;
      } else if byte == 34 {
        quoted := !quoted;
      } else if !quoted {
        depth := depth + (if byte == 91 || byte == 123 then 1 else 0) - (if byte == 93 || byte == 125 then 1 else 0);
        if depth > LIMIT {
          PeakGrows(START, body, i + 1);
          return true;
        }
      }
    }
    assert body[..|body|] == body;
    return false;
  }
}
