/** JSON values, and every way RFC 8259 lets a value be written: any whitespace around
    structural characters (section 2), any choice of escapes in strings (section 7), and
    UTF-8 for the characters written as themselves (section 8.1).
 */
module JsonText {

  type Byte = b: int | 0 <= b < 256

  // ---------------------------------------------------------------- values

  /** Strings are their UTF-16 code units, numbers their token. */
  datatype Json =
    | Null | True | False
    | Number(token: seq<Byte>)
    | Text(units: seq<nat>)
    | Array(elements: seq<Json>)
    | Object(names: seq<seq<nat>>, values: seq<Json>)

  function Max(a: int, b: int): int {
    if a < b then b else a
  }

  /** How many arrays and objects enclose the innermost point of a value. */
  function Nesting(v: Json): nat {
    match v
    case Array(elements) => 1 + DeepestOf(elements)
    case Object(_, values) => 1 + DeepestOf(values)
    case _ => 0
  }

  function DeepestOf(vs: seq<Json>): nat {
    if vs == [] then 0 else Max(Nesting(vs[0]), DeepestOf(vs[1..]))
  }

  // ---------------------------------------------------------------- texts

  type Space = s: seq<Byte> | forall b :: b in s ==> b == 32 || b == 9 || b == 10 || b == 13

  predicate IsNumeric(b: Byte) {
    48 <= b <= 57 || b == 43 || b == 45 || b == 46 || b == 69 || b == 101
  }

  /** Number tokens, or more: any run of the characters they are written with. */
  type NumberToken = s: seq<Byte> | s != [] && forall b :: b in s ==> IsNumeric(b) witness [48]

  /** A character a string may hold unescaped. */
  type Plain = c: nat | 32 <= c < 0x110000 && c != 34 && c != 92 && !(0xD800 <= c < 0xE000) witness 32

  /** The letter of a two-character escape. */
  type EscapeLetter = b: Byte | b in [34, 92, 47, 98, 102, 110, 114, 116] witness 34

  type Hex = b: Byte | 48 <= b <= 57 || 65 <= b <= 70 || 97 <= b <= 102 witness 48

  datatype Piece = Itself(c: Plain) | Short(letter: EscapeLetter) | Unicode(h3: Hex, h2: Hex, h1: Hex, h0: Hex)

  /** One way of writing a value. */
  datatype Writing =
    | WNull | WTrue | WFalse
    | WNumber(token: NumberToken)
    | WText(pieces: seq<Piece>)
    | WArray(gap: Space, items: Items)
    | WObject(gap: Space, members: Members)

  datatype Items = NoItems | Item(before: Space, item: Writing, after: Space, rest: Items)

  datatype Members =
    | NoMembers
    | Member(before: Space, name: seq<Piece>, afterName: Space, beforeValue: Space, value: Writing,
             after: Space, rest: Members)

  datatype Document = Document(before: Space, root: Writing, after: Space)

  // ---------------------------------------------------------------- what a text means

  function HexValue(h: Hex): nat {
    if h <= 57 then h - 48 else if h <= 70 then h - 55 else h - 87
  }

  function Units(p: Piece): seq<nat> {
    match p
    case Itself(c) =>
      if c < 0x10000 then [c] else [0xD800 + (c - 0x10000) / 1024, 0xDC00 + (c - 0x10000) % 1024]
    case Short(b) =>
      [if b == 98 then 8 else if b == 102 then 12 else if b == 110 then 10
       else if b == 114 then 13 else if b == 116 then 9 else b]
    case Unicode(h3, h2, h1, h0) =>
      [4096 * HexValue(h3) + 256 * HexValue(h2) + 16 * HexValue(h1) + HexValue(h0)]
  }

  function AllUnits(pieces: seq<Piece>): seq<nat> {
    if pieces == [] then [] else Units(pieces[0]) + AllUnits(pieces[1..])
  }

  function ValueOf(w: Writing): Json {
    match w
    case WNull => Null
    case WTrue => True
    case WFalse => False
    case WNumber(token) => Number(token)
    case WText(pieces) => Text(AllUnits(pieces))
    case WArray(_, items) => Array(ItemValues(items))
    case WObject(_, members) => Object(MemberNames(members), MemberValues(members))
  }

  function ItemValues(items: Items): seq<Json> {
    match items
    case NoItems => []
    case Item(_, item, _, rest) => [ValueOf(item)] + ItemValues(rest)
  }

  function MemberNames(members: Members): seq<seq<nat>> {
    match members
    case NoMembers => []
    case Member(_, name, _, _, _, _, rest) => [AllUnits(name)] + MemberNames(rest)
  }

  function MemberValues(members: Members): seq<Json> {
    match members
    case NoMembers => []
    case Member(_, _, _, _, value, _, rest) => [ValueOf(value)] + MemberValues(rest)
  }

  // ---------------------------------------------------------------- the bytes of a text

  /** UTF-8, section 3 of RFC 3629. */
  function Utf8(c: Plain): seq<Byte> {
    if c < 0x80 then [c]
    else if c < 0x800 then [0xC0 + c / 64, 0x80 + c % 64]
    else if c < 0x10000 then [0xE0 + c / 4096, 0x80 + c / 64 % 64, 0x80 + c % 64]
    else [0xF0 + c / 262144, 0x80 + c / 4096 % 64, 0x80 + c / 64 % 64, 0x80 + c % 64]
  }

  function PieceBytes(p: Piece): seq<Byte> {
    match p
    case Itself(c) => Utf8(c)
    case Short(b) => [92, b]
    case Unicode(h3, h2, h1, h0) =>
      var digits: seq<Byte> := [h3, h2, h1, h0];
      [92, 117] + digits
  }

  function PiecesBytes(pieces: seq<Piece>): seq<Byte> {
    if pieces == [] then [] else PieceBytes(pieces[0]) + PiecesBytes(pieces[1..])
  }

  function Quote(pieces: seq<Piece>): seq<Byte> {
    [34] + PiecesBytes(pieces) + [34]
  }

  function Write(w: Writing): seq<Byte> {
    match w
    case WNull => [110, 117, 108, 108]
    case WTrue => [116, 114, 117, 101]
    case WFalse => [102, 97, 108, 115, 101]
    case WNumber(token) => token
    case WText(pieces) => Quote(pieces)
    case WArray(gap, items) => [91] + (if items.NoItems? then gap else WriteItems(items)) + [93]
    case WObject(gap, members) => [123] + (if members.NoMembers? then gap else WriteMembers(members)) + [125]
  }

  function WriteItems(items: Items): seq<Byte> {
    match items
    case NoItems => []
    case Item(before, item, after, rest) =>
      before + Write(item) + after + (if rest.NoItems? then [] else [44] + WriteItems(rest))
  }

  function WriteMembers(members: Members): seq<Byte> {
    match members
    case NoMembers => []
    case Member(before, name, afterName, beforeValue, value, after, rest) =>
      before + Quote(name) + afterName + [58] + beforeValue + Write(value) + after
      + (if rest.NoMembers? then [] else [44] + WriteMembers(rest))
  }

  function WriteDocument(d: Document): seq<Byte> {
    d.before + Write(d.root) + d.after
  }
}
