/** The legacy transaction format as any reader of the ledger takes it apart, and what that
    reader finds in a transaction this program builds or accepts. Counts are compact-u16
    numbers; every one below 128 is its single byte, the only form read here.
 */
module LegacyFormat {
  import opened Wrappers
  import opened Positional
  import opened Base58
  import opened Wire

  datatype Instruction = Instruction(program: nat, accounts: seq<nat>, data: Bytes)

  /** The first `required` accounts sign, the last of them `readonlySigned` only for reading,
      and the last `readonlyUnsigned` accounts are only read. */
  datatype Transaction = Transaction(
    signatures: seq<Bytes>,
    required: nat,
    readonlySigned: nat,
    readonlyUnsigned: nat,
    accounts: seq<Bytes>,
    blockhash: Bytes,
    instructions: seq<Instruction>)

  // ---------------------------------------------------------------- reading

  function ReadCount(bytes: Bytes): Option<(nat, Bytes)> {
    if bytes != [] && 0 <= bytes[0] < 128 then Some((bytes[0], bytes[1..])) else None
  }

  function ReadBytes(bytes: Bytes, n: nat): Option<(Bytes, Bytes)> {
    if n <= |bytes| then Some((bytes[..n], bytes[n..])) else None
  }

  /** So many fields of one size. */
  function ReadFields(bytes: Bytes, n: nat, size: nat): Option<(seq<Bytes>, Bytes)> {
    if n == 0 then Some(([], bytes))
    else
      match ReadBytes(bytes, size)
      case None => None
      case Some((field, rest)) =>
        match ReadFields(rest, n - 1, size)
        case None => None
        case Some((fields, left)) => Some(([field] + fields, left))
  }

  function ReadIndices(bytes: Bytes, n: nat): Option<(seq<nat>, Bytes)> {
    if n == 0 then Some(([], bytes))
    else if bytes == [] || bytes[0] < 0 then None
    else
      match ReadIndices(bytes[1..], n - 1)
      case None => None
      case Some((indices, rest)) => Some(([bytes[0]] + indices, rest))
  }

  function ReadInstruction(bytes: Bytes): Option<(Instruction, Bytes)> {
    if bytes == [] || bytes[0] < 0 then None
    else
      match ReadCount(bytes[1..])
      case None => None
      case Some((accounts, rest)) =>
        match ReadIndices(rest, accounts)
        case None => None
        case Some((indices, tail)) =>
          match ReadCount(tail)
          case None => None
          case Some((size, body)) =>
            match ReadBytes(body, size)
            case None => None
            case Some((data, left)) => Some((Instruction(bytes[0], indices, data), left))
  }

  function ReadInstructions(bytes: Bytes, n: nat): Option<(seq<Instruction>, Bytes)>
    decreases n
  {
    if n == 0 then Some(([], bytes))
    else
      match ReadInstruction(bytes)
      case None => None
      case Some((instruction, rest)) =>
        match ReadInstructions(rest, n - 1)
        case None => None
        case Some((instructions, left)) => Some(([instruction] + instructions, left))
  }

  function ReadMessage(bytes: Bytes, signatures: seq<Bytes>): Option<Transaction> {
    if |bytes| < 3 || bytes[0] < 0 || bytes[1] < 0 || bytes[2] < 0 then None
    else
      match ReadCount(bytes[3..])
      case None => None
      case Some((count, keys)) =>
        match ReadFields(keys, count, 32)
        case None => None
        case Some((accounts, rest)) =>
          match ReadBytes(rest, 32)
          case None => None
          case Some((blockhash, tail)) =>
            match ReadCount(tail)
            case None => None
            case Some((many, body)) =>
              match ReadInstructions(body, many)
              case None => None
              case Some((instructions, left)) =>
                if left != [] then None
                else Some(Transaction(signatures, bytes[0], bytes[1], bytes[2], accounts, blockhash, instructions))
  }

  function ReadTransaction(wire: Bytes): Option<Transaction> {
    match ReadCount(wire)
    case None => None
    case Some((count, rest)) =>
      match ReadFields(rest, count, 64)
      case None => None
      case Some((signatures, message)) => ReadMessage(message, signatures)
  }

  /** The codes of an ASCII text. */
  function Ascii(text: string): Bytes {
    seq(|text|, k requires 0 <= k < |text| => text[k] as int)
  }

  /** One signer that pays and is written, one memo program only read, and one instruction:
      that program, run for that signer, on the versioned prefix and the commitment. */
  function MemoTransaction(program: Bytes, commitment: Bytes, signature: Bytes, signer: Bytes, blockhash: Bytes)
    : Transaction
  {
    Transaction([signature], 1, 0, 1, [signer, program], blockhash,
                [Instruction(1, [0], Ascii("reliamesh:attest:v1:sha256:") + commitment)])
  }

  // ---------------------------------------------------------------- reading what is built

  lemma ReadFront(field: Bytes, rest: Bytes)
    ensures ReadBytes(field + rest, |field|) == Some((field, rest))
  {
    assert (field + rest)[..|field|] == field && (field + rest)[|field|..] == rest;
  }

  lemma ReadOne(count: nat, rest: Bytes)
    requires count < 128
    ensures ReadCount([count] + rest) == Some((count, rest))
  {
  }

  lemma PrefixText()
    ensures MEMO_PREFIX == Ascii("reliamesh:attest:v1:sha256:")
  {
  }

  /** One field in front of fields that can be read. */
  lemma ReadMore(field: Bytes, rest: Bytes, n: nat, fields: seq<Bytes>, left: Bytes)
    requires ReadFields(rest, n, |field|) == Some((fields, left))
    ensures ReadFields(field + rest, n + 1, |field|) == Some(([field] + fields, left))
  {
    ReadFront(field, rest);
  }

  lemma ReadLast(field: Bytes, rest: Bytes)
    ensures ReadFields(field + rest, 1, |field|) == Some(([field], rest))
  {
    ReadMore(field, rest, 0, [], rest);
    assert [field] + [] == [field];
  }

  lemma ReadTwo(a: Bytes, b: Bytes, rest: Bytes)
    requires |a| == 32 && |b| == 32
    ensures ReadFields(a + b + rest, 2, 32) == Some(([a, b], rest))
  {
    ReadLast(b, rest);
    ReadMore(a, b + rest, 1, [b], rest);
    assert a + b + rest == a + (b + rest);
    assert [a] + [b] == [a, b];
  }

  lemma ReadSigner(rest: Bytes)
    ensures ReadIndices([0] + rest, 1) == Some(([0], rest))
  {
    assert ([0] + rest)[1..] == rest;
    assert ReadIndices(rest, 0) == Some(([], rest));
    assert [0] + [] == [0];
  }

  lemma ReadMemo(data: Bytes)
    requires |data| < 128
    ensures ReadInstruction([1, 1, 0] + [|data|] + data) == Some((Instruction(1, [0], data), []))
  {
    hide ReadIndices, ReadBytes, ReadCount;
    var tail := [|data|] + data;
    var bytes := [1, 1, 0] + [|data|] + data;
    assert bytes[1..] == [1] + ([0] + tail);
    ReadOne(1, [0] + tail);
    ReadSigner(tail);
    ReadOne(|data|, data);
    ReadFront(data, []);
    assert data + [] == data;
  }

  lemma ReadOnly(bytes: Bytes, instruction: Instruction)
    requires ReadInstruction(bytes) == Some((instruction, []))
    ensures ReadInstructions(bytes, 1) == Some(([instruction], []))
  {
    hide ReadInstruction;
    assert ReadInstructions([], 0) == Some(([], []));
    assert [instruction] + [] == [instruction];
  }

  lemma BodyReads(program: Bytes, commitment: Bytes, signature: Bytes, signer: Bytes, blockhash: Bytes)
    requires |program| == 32 && |signer| == 32 && |blockhash| == 32 && |commitment| == 64
    ensures ReadMessage(Body(program, commitment, signer, blockhash), [signature])
            == Some(MemoTransaction(program, commitment, signature, signer, blockhash))
  {
    hide ReadFields, ReadBytes, ReadCount, ReadInstruction, ReadInstructions;
    PrefixText();
    var data := MEMO_PREFIX + commitment;
    var memo := [1, 1, 0] + [|data|] + data;
    var keys := signer + program + (blockhash + ([1] + memo));
    var body := Body(program, commitment, signer, blockhash);
    BodyShape(program, commitment, signer, blockhash);
    hide Body, Ascii;
    assert body[3..] == [2] + keys;
    ReadOne(2, keys);
    ReadTwo(signer, program, blockhash + ([1] + memo));
    ReadFront(blockhash, [1] + memo);
    ReadOne(1, memo);
    ReadMemo(data);
    ReadOnly(memo, Instruction(1, [0], data));
  }

  lemma BodyShape(program: Bytes, commitment: Bytes, signer: Bytes, blockhash: Bytes)
    requires |commitment| == 64
    ensures var data := MEMO_PREFIX + commitment;
            |data| == 91
            && Body(program, commitment, signer, blockhash)
               == [1, 0, 1] + ([2] + (signer + program + (blockhash + ([1] + ([1, 1, 0] + [|data|] + data)))))
  {
  }

  /** A wire is a memo transaction to every reader exactly as its parts say. */
  lemma WireReads(program: Bytes, commitment: Bytes, signature: Bytes, signer: Bytes, blockhash: Bytes)
    requires |program| == 32 && |signer| == 32 && |blockhash| == 32 && |commitment| == 64 && |signature| == 64
    ensures ReadTransaction([1] + signature + Body(program, commitment, signer, blockhash))
            == Some(MemoTransaction(program, commitment, signature, signer, blockhash))
  {
    BodyReads(program, commitment, signature, signer, blockhash);
    hide Body, ReadMessage, MemoTransaction;
    var body := Body(program, commitment, signer, blockhash);
    assert [1] + signature + body == [1] + (signature + body);
    ReadOne(1, signature + body);
    ReadLast(signature, body);
    hide ReadFields, ReadCount;
  }

  /** Everything accepted is, to any reader of the format, the signer's memo of the commitment. */
  lemma AcceptedReads(ed: Ed25519, program: Bytes, encoded: Base64, commitment: Bytes, signature: string,
                      signer: string)
    returns (blockhash: Bytes)
    requires |program| == 32
    requires Verify(ed, program, encoded, commitment, signature, signer).Ok?
    ensures encoded.Encoded? && Decode(signature, 64).Some? && Decode(signer, 32).Some?
    ensures ReadTransaction(encoded.bytes)
            == Some(MemoTransaction(program, commitment, Decode(signature, 64).value, Decode(signer, 32).value,
                                    blockhash))
  {
    hide Verify, Encode, Body, ReadTransaction, MemoTransaction;
    blockhash := Accepted(ed, program, encoded, commitment, signature, signer);
    DecodedReencodes(signature, 64);
    DecodedReencodes(signer, 32);
    hide Decode;
    WireReads(program, commitment, Decode(signature, 64).value, Decode(signer, 32).value, blockhash);
  }
}
