/** The one transaction shape: a signed memo holding a commitment. Building it, verifying
    it against an expected commitment, signature and signer, and gating what may be sent.

    Ed25519 (sections 5.1.6 and 5.1.7 of RFC 8032) is a parameter that meets `Correct`.
    Strict base64 is a constructor: a text either is the encoding of some bytes or decodes
    to nothing. `program` is the 32-byte memo program id.
 */
module Wire {
  import opened Wrappers
  import opened Positional
  import opened Base58

  datatype Ed25519 = Ed25519(
    publicOf: Bytes -> Bytes,
    sign: (Bytes, Bytes) -> Bytes,
    verify: (Bytes, Bytes, Bytes) -> bool)

  /** Keys and signatures have their sizes, and a signature verifies under its own key. */
  ghost predicate Correct(ed: Ed25519) {
    && (forall secret: Bytes :: IsBytes(ed.publicOf(secret)) && |ed.publicOf(secret)| == 32)
    && forall secret: Bytes, message: Bytes ::
      && IsBytes(ed.sign(secret, message)) && |ed.sign(secret, message)| == 64
      && ed.verify(ed.publicOf(secret), ed.sign(secret, message), message)
  }

  datatype Base64 = Encoded(bytes: Bytes) | Garbage

  datatype Error =
    | InvalidBase64 | InvalidBase58 | InvalidCommitment | InvalidTransaction | InvalidSendTransaction
    | SignatureMismatch | MessageMismatch | SignatureInvalid

  const MAX_BYTES := 1232
  const PREFIX_LENGTH := 27
  const HEADER: Bytes := [1, 0, 1, 2]
  const INSTRUCTION: Bytes := [1, 1, 1, 0]

  /** b"reliamesh:attest:v1:sha256:" */
  const MEMO_PREFIX: Bytes :=
    [114, 101, 108, 105, 97, 109, 101, 115, 104, 58, 97, 116, 116, 101, 115, 116, 58, 118, 49, 58,
     115, 104, 97, 50, 53, 54, 58]

  function Decode64(text: Base64, limit: nat): Result<Bytes, Error> {
    if text.Garbage? || |text.bytes| > limit then Err(InvalidBase64) else Ok(text.bytes)
  }

  predicate IsHex(c: nat) {
    48 <= c <= 57 || 97 <= c <= 102
  }

  /** Commitments are 64 lowercase hex digits, held as their ASCII codes. */
  predicate IsCommitment(commitment: Bytes) {
    |commitment| == 64 && forall k :: 0 <= k < 64 ==> IsHex(commitment[k])
  }

  function Body(program: Bytes, commitment: Bytes, signer: Bytes, blockhash: Bytes): Bytes {
    HEADER + signer + program + blockhash + INSTRUCTION + [PREFIX_LENGTH + 64] + MEMO_PREFIX + commitment
  }

  function Message(program: Bytes, commitment: Bytes, signer: Bytes, blockhash: Bytes): Result<Bytes, Error> {
    if !IsCommitment(commitment) then Err(InvalidCommitment)
    else if |signer| != 32 || |blockhash| != 32 then Err(InvalidTransaction)
    else Ok(Body(program, commitment, signer, blockhash))
  }

  function Strict58(text: string, size: nat): Result<Bytes, Error> {
    match Decode(text, size) case Some(bytes) => Ok(bytes) case None => Err(InvalidBase58)
  }

  datatype Built = Built(transaction: Base64, signature: string)

  ghost function Build(ed: Ed25519, program: Bytes, commitment: Bytes, secret: Bytes,
                       blockhash: string): Result<Built, Error>
    requires Correct(ed)
  {
    var hash :- Strict58(blockhash, 32);
    var message :- Message(program, commitment, ed.publicOf(secret), hash);
    var signature := ed.sign(secret, message);
    Ok(Built(Encoded([1] + signature + message), Encode(signature)))
  }

  function Verify(ed: Ed25519, program: Bytes, encoded: Base64, commitment: Bytes, signature: string,
                  signer: string): Result<(), Error> {
    var wire :- Decode64(encoded, MAX_BYTES);
    var expected :- Strict58(signature, 64);
    var signerBytes :- Strict58(signer, 32);
    if |wire| < 165 || wire[0] != 1 || wire[1..65] != expected then Err(SignatureMismatch)
    else
      var message := wire[65..];
      var wanted :- Message(program, commitment, signerBytes, message[68..100]);
      if message != wanted then Err(MessageMismatch)
      else if !ed.verify(signerBytes, expected, message) then Err(SignatureInvalid)
      else Ok(())
  }

  const WIRE_SIZE := 65 + 105 + PREFIX_LENGTH + 64

  predicate IsAscii(bytes: Bytes) {
    forall k :: 0 <= k < |bytes| ==> bytes[k] < 128
  }

  /** The wire part of what may be sent: it must verify against what it itself contains. */
  function MaySend(ed: Ed25519, program: Bytes, encoded: Base64): Result<(), Error>
    requires encoded.Encoded? ==> IsBytes(encoded.bytes)
  {
    var wire :- Decode64(encoded, MAX_BYTES);
    if |wire| != WIRE_SIZE then Err(InvalidSendTransaction)
    else if !IsAscii(wire[197..]) then Err(InvalidSendTransaction)
    else
      assert InBase(256, wire[1..65]) && InBase(256, wire[69..101]);
      Verify(ed, program, encoded, wire[197..], Encode(wire[1..65]), Encode(wire[69..101]))
  }

  // ---------------------------------------------------------------- layout

  /** Where each field of a message body sits. */
  lemma BodyLayout(program: Bytes, commitment: Bytes, signer: Bytes, blockhash: Bytes)
    requires |program| == 32 && |signer| == 32 && |blockhash| == 32 && |commitment| == 64
    ensures var body := Body(program, commitment, signer, blockhash);
            && |body| == WIRE_SIZE - 65
            && body[..4] == HEADER && body[4..36] == signer && body[36..68] == program
            && body[68..100] == blockhash && body[132..] == commitment
  {
    var body := Body(program, commitment, signer, blockhash);
    assert |MEMO_PREFIX| == PREFIX_LENGTH;
    var head := HEADER + signer + program + blockhash;
    var tail := INSTRUCTION + [PREFIX_LENGTH + 64] + MEMO_PREFIX;
    assert body == head + (tail + commitment);
    assert |head| == 100 && |tail| == 32;
    assert body == (head + tail) + commitment;
  }

  /** An accepted wire is 0x01, the signature, and the message of some blockhash. */
  lemma Accepted(ed: Ed25519, program: Bytes, encoded: Base64, commitment: Bytes, signature: string, signer: string)
    returns (blockhash: Bytes)
    requires |program| == 32
    requires Verify(ed, program, encoded, commitment, signature, signer).Ok?
    ensures encoded.Encoded? && IsCommitment(commitment) && |blockhash| == 32
    ensures Decode(signature, 64).Some? && Decode(signer, 32).Some?
    ensures encoded.bytes == [1] + Decode(signature, 64).value
                             + Body(program, commitment, Decode(signer, 32).value, blockhash)
    ensures ed.verify(Decode(signer, 32).value, Decode(signature, 64).value, encoded.bytes[65..])
  {
    hide Decode, Encode, Body;
    var wire := encoded.bytes;
    blockhash := wire[65..][68..100];
    assert wire == [1] + wire[1..65] + wire[65..];
  }

  /** So each field can be read back from its place in the wire. */
  lemma WireFields(program: Bytes, wire: Bytes, commitment: Bytes, signature: Bytes, signer: Bytes, blockhash: Bytes)
    requires |program| == 32 && |commitment| == 64 && |signature| == 64 && |signer| == 32 && |blockhash| == 32
    requires wire == [1] + signature + Body(program, commitment, signer, blockhash)
    ensures |wire| == WIRE_SIZE && wire[1..65] == signature && wire[69..101] == signer && wire[197..] == commitment
  {
    BodyLayout(program, commitment, signer, blockhash);
    hide Body;
    var message := Body(program, commitment, signer, blockhash);
    assert wire[65..] == message;
    assert wire[69..101] == message[4..36];
    assert wire[197..] == message[132..];
  }

  lemma AcceptedFields(ed: Ed25519, program: Bytes, encoded: Base64, commitment: Bytes, signature: string,
                       signer: string)
    requires |program| == 32
    requires Verify(ed, program, encoded, commitment, signature, signer).Ok?
    ensures encoded.Encoded? && IsCommitment(commitment) && |encoded.bytes| == WIRE_SIZE
    ensures Decode(signature, 64) == Some(encoded.bytes[1..65]) && Decode(signer, 32) == Some(encoded.bytes[69..101])
    ensures encoded.bytes[197..] == commitment
  {
    hide Verify, Encode, Body;
    var blockhash := Accepted(ed, program, encoded, commitment, signature, signer);
    DecodedReencodes(signature, 64);
    DecodedReencodes(signer, 32);
    hide Decode;
    WireFields(program, encoded.bytes, commitment, Decode(signature, 64).value, Decode(signer, 32).value, blockhash);
  }

  // ---------------------------------------------------------------- main results

  /** Everything the builder emits is accepted, for its commitment, signature and signer. */
  lemma BuiltVerifies(ed: Ed25519, program: Bytes, commitment: Bytes, secret: Bytes, blockhash: string)
    requires Correct(ed) && |program| == 32
    requires Build(ed, program, commitment, secret, blockhash).Ok?
    ensures var built := Build(ed, program, commitment, secret, blockhash).value;
            Verify(ed, program, built.transaction, commitment, built.signature, Encode(ed.publicOf(secret))) == Ok(())
  {
    hide Decode, Encode, Body, Correct, Verify;
    var hash, signer := Decode(blockhash, 32).value, ed.publicOf(secret);
    DecodedReencodes(blockhash, 32);
    var message := Body(program, commitment, signer, hash);
    KeyFacts(ed, secret, message);
    AssembledVerifies(ed, program, commitment, signer, hash, ed.sign(secret, message));
  }

  lemma KeyFacts(ed: Ed25519, secret: Bytes, message: Bytes)
    requires Correct(ed)
    ensures IsBytes(ed.publicOf(secret)) && |ed.publicOf(secret)| == 32
    ensures IsBytes(ed.sign(secret, message)) && |ed.sign(secret, message)| == 64
    ensures ed.verify(ed.publicOf(secret), ed.sign(secret, message), message)
  {
  }

  /** A wire put together from its parts verifies when the signature does. */
  lemma AssembledVerifies(ed: Ed25519, program: Bytes, commitment: Bytes, signer: Bytes, hash: Bytes, signature: Bytes)
    requires |program| == 32 && IsCommitment(commitment) && |hash| == 32
    requires IsBytes(signer) && |signer| == 32 && IsBytes(signature) && |signature| == 64
    requires ed.verify(signer, signature, Body(program, commitment, signer, hash))
    ensures Verify(ed, program, Encoded([1] + signature + Body(program, commitment, signer, hash)),
                   commitment, Encode(signature), Encode(signer)) == Ok(())
  {
    hide Decode, Encode;
    RoundTrip(signature);
    RoundTrip(signer);
    BodyLayout(program, commitment, signer, hash);
    hide Body;
    var message := Body(program, commitment, signer, hash);
    var wire := [1] + signature + message;
    assert wire[1..65] == signature && wire[65..] == message;
  }

  /** A wire determines the commitment, signature and signer it is accepted for. */
  lemma AcceptedUnique(ed: Ed25519, program: Bytes, encoded: Base64,
                       c1: Bytes, s1: string, p1: string, c2: Bytes, s2: string, p2: string)
    requires |program| == 32
    requires Verify(ed, program, encoded, c1, s1, p1).Ok? && Verify(ed, program, encoded, c2, s2, p2).Ok?
    ensures c1 == c2 && s1 == s2 && p1 == p2
  {
    AcceptedFields(ed, program, encoded, c1, s1, p1);
    AcceptedFields(ed, program, encoded, c2, s2, p2);
    DecodedReencodes(s1, 64);
    DecodedReencodes(s2, 64);
    DecodedReencodes(p1, 32);
    DecodedReencodes(p2, 32);
    hide Verify, Decode, Encode;
  }

  ghost predicate Verifiable(ed: Ed25519, program: Bytes, encoded: Base64) {
    exists commitment: Bytes, signature: string, signer: string ::
      Verify(ed, program, encoded, commitment, signature, signer) == Ok(())
  }

  /** The send gate admits exactly the wires that verify for someone. */
  lemma SendGateExact(ed: Ed25519, program: Bytes, encoded: Base64)
    requires |program| == 32 && (encoded.Encoded? ==> IsBytes(encoded.bytes))
    ensures MaySend(ed, program, encoded) == Ok(()) <==> Verifiable(ed, program, encoded)
  {
    if Verifiable(ed, program, encoded) {
      var commitment: Bytes, signature: string, signer: string :|
        Verify(ed, program, encoded, commitment, signature, signer) == Ok(());
      AcceptedFields(ed, program, encoded, commitment, signature, signer);
      DecodedReencodes(signature, 64);
      DecodedReencodes(signer, 32);
      hide Decode, Encode, Body;
    }
  }
}
