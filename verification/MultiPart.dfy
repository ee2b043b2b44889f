/** From chunks to bytes and back: any content type and body, cut into counted pieces and spread over
    one or more scriptSigs, reads back as that inscription. */
module MultiPart {
  import opened Base
  import opened ScriptSig

  /** The push forms whose lengths the decoder reads back. */
  datatype Push = Op0 | OpN(v: Byte) | Direct(data: Bytes) | PushData1(data: Bytes)

  predicate Wf(p: Push)
  {
    match p
    case Op0 => true
    case OpN(v) => 1 <= v <= 16
    case Direct(data) => 1 <= |data| <= 75
    case PushData1(data) => |data| <= 255
  }

  function Payload(p: Push): Bytes
  {
    match p
    case Op0 => []
    case OpN(v) => [v]
    case Direct(data) => data
    case PushData1(data) => data
  }

  function Encode(p: Push): Bytes
    requires Wf(p)
  {
    match p
    case Op0 => [0]
    case OpN(v) => [(80 + v as int) as Byte]
    case Direct(data) => [|data| as Byte] + data
    case PushData1(data) => [76, |data| as Byte] + data
  }

  predicate AllWf(ps: seq<Push>)
  {
    forall i :: 0 <= i < |ps| ==> Wf(ps[i])
  }

  function EncodeAll(ps: seq<Push>): Bytes
    requires AllWf(ps)
  {
    if ps == [] then [] else Encode(ps[0]) + EncodeAll(ps[1..])
  }

  function Payloads(ps: seq<Push>): seq<Bytes>
  {
    seq(|ps|, i requires 0 <= i < |ps| => Payload(ps[i]))
  }

  lemma DecodeOneEncode(p: Push, rest: Bytes)
    requires Wf(p)
    ensures Encode(p) + rest != [] && DecodeOne(Encode(p) + rest) == Some((Payload(p), rest))
  {
    var b := Encode(p) + rest;
    match p {
      case Op0 => assert b[1..] == rest;
      case OpN(v) => assert b[1..] == rest;
      case Direct(data) => assert b[1..1 + |data|] == data && b[1 + |data|..] == rest;
      case PushData1(data) => assert b[2..2 + |data|] == data && b[2 + |data|..] == rest;
    }
  }

  lemma {:induction false} DecodeEncode(ps: seq<Push>)
    requires AllWf(ps)
    ensures Decode(EncodeAll(ps)) == Some(Payloads(ps))
    decreases |ps|
  {
    hide DecodeOne, Encode, Wf;
    if ps == [] {
      assert Payloads(ps) == [];
    } else {
      DecodeOneEncode(ps[0], EncodeAll(ps[1..]));
      DecodeEncode(ps[1..]);
      assert [Payload(ps[0])] + Payloads(ps[1..]) == Payloads(ps);
    }
  }

  // ---- layouts ----

  datatype Piece = Piece(counter: Push, chunk: Push)

  /** The pushes of one scriptSig that belong to the inscription, and whatever follows them. */
  datatype Part = Part(pieces: seq<Piece>, trailing: seq<Push>)

  function PiecePushes(pieces: seq<Piece>): seq<Push>
  {
    if pieces == [] then [] else [pieces[0].counter, pieces[0].chunk] + PiecePushes(pieces[1..])
  }

  function Chunks(pieces: seq<Piece>): Bytes
  {
    if pieces == [] then [] else Payload(pieces[0].chunk) + Chunks(pieces[1..])
  }

  function Pushes(part: Part): seq<Push>
  {
    PiecePushes(part.pieces) + part.trailing
  }

  /** Counters descend from `n - 1`. */
  predicate Counts(pieces: seq<Piece>, n: nat)
  {
    |pieces| <= n && forall i :: 0 <= i < |pieces| ==> Number(Payload(pieces[i].counter)) == Some(n - 1 - i)
  }

  /** What follows the pieces does not look like the next counter. */
  predicate Stops(trailing: seq<Push>, left: nat)
  {
    left == 0 || |trailing| < 2 || Number(Payload(trailing[0])) != Some(left - 1)
  }

  predicate Fits(part: Part, n: nat)
  {
    Counts(part.pieces, n) && Stops(part.trailing, n - |part.pieces|) && AllWf(Pushes(part))
  }

  function PieceCount(parts: seq<Part>): nat
  {
    if parts == [] then 0 else PieceCount(parts[..|parts| - 1]) + |parts[|parts| - 1].pieces|
  }

  function Body(parts: seq<Part>): Bytes
  {
    if parts == [] then [] else Body(parts[..|parts| - 1]) + Chunks(parts[|parts| - 1].pieces)
  }

  /** Later scriptSigs each carry at least one of the `n` pieces still missing. */
  predicate Cut(parts: seq<Part>, n: nat)
    decreases |parts|
  {
    parts != [] ==>
      var init, last := parts[..|parts| - 1], parts[|parts| - 1];
      Cut(init, n) && PieceCount(init) < n && last.pieces != [] && Fits(last, n - PieceCount(init))
  }

  lemma {:induction false} EatPieces(pieces: seq<Piece>, trailing: seq<Push>, n: nat, body: Bytes)
    requires Counts(pieces, n) && Stops(trailing, n - |pieces|)
    ensures Eat(Payloads(PiecePushes(pieces) + trailing), n, body) == (n - |pieces|, body + Chunks(pieces))
    decreases |pieces|
  {
    hide Number;
    var ps := Payloads(PiecePushes(pieces) + trailing);
    if pieces == [] {
      assert body + [] == body;
    } else {
      EatPieces(pieces[1..], trailing, n - 1, body + Payload(pieces[0].chunk));
      assert ps[2..] == Payloads(PiecePushes(pieces[1..]) + trailing);
      assert body + Payload(pieces[0].chunk) + Chunks(pieces[1..]) == body + Chunks(pieces);
    }
  }

  function State(left: nat, contentType: Bytes, body: Bytes): Reading
  {
    if left == 0 then Complete(contentType, body) else Need(left, contentType, body)
  }

  function Script(part: Part): Bytes
    requires AllWf(Pushes(part))
  {
    EncodeAll(Pushes(part))
  }

  lemma {:induction false} CutWf(parts: seq<Part>, n: nat)
    requires Cut(parts, n)
    ensures PieceCount(parts) <= n
    ensures forall i :: 0 <= i < |parts| ==> AllWf(Pushes(parts[i]))
    decreases |parts|
  {
    if parts != [] {
      CutWf(parts[..|parts| - 1], n);
    }
  }

  function Scripts(parts: seq<Part>): seq<Bytes>
    requires forall i :: 0 <= i < |parts| ==> AllWf(Pushes(parts[i]))
  {
    seq(|parts|, i requires 0 <= i < |parts| => Script(parts[i]))
  }

  lemma FirstPart(protocol: Push, count: Push, contentType: Push, first: Part, n: nat)
    requires AllWf([protocol, count, contentType] + Pushes(first))
    requires Payload(protocol) == PROTOCOL_ID && Number(Payload(count)) == Some(n) && n > 0 && Fits(first, n)
    ensures Begin(EncodeAll([protocol, count, contentType] + Pushes(first)))
            == State(n - |first.pieces|, Payload(contentType), Chunks(first.pieces))
  {
    hide EncodeAll, Decode, Number, Eat, Chunks, PiecePushes, Stops, Counts;
    var ps := [protocol, count, contentType] + Pushes(first);
    DecodeEncode(ps);
    assert Payloads(ps)[3..] == Payloads(Pushes(first));
    EatPieces(first.pieces, first.trailing, n, []);
    assert [] + Chunks(first.pieces) == Chunks(first.pieces);
  }

  lemma NextPart(part: Part, n: nat, contentType: Bytes, body: Bytes)
    requires n > 0 && Fits(part, n) && part.pieces != []
    ensures Advance(Need(n, contentType, body), Script(part)) == State(n - |part.pieces|, contentType, body + Chunks(part.pieces))
  {
    hide EncodeAll, Decode, Number, Eat, Chunks, Stops;
    DecodeEncode(Pushes(part));
    EatPieces(part.pieces, part.trailing, n, body);
    assert Payloads(Pushes(part))[0] == Payload(part.pieces[0].counter);
  }

  /** After any number of parts the reader knows exactly how many pieces are missing and holds exactly
      the chunks of the pieces it saw. */
  lemma {:induction false} ReadsLayout(script0: Bytes, contentType: Bytes, body0: Bytes, n: nat, parts: seq<Part>)
    requires Begin(script0) == State(n, contentType, body0) && Cut(parts, n)
    ensures PieceCount(parts) <= n && forall i :: 0 <= i < |parts| ==> AllWf(Pushes(parts[i]))
    ensures Reads([script0] + Scripts(parts)) == State(n - PieceCount(parts), contentType, body0 + Body(parts))
    decreases |parts|
  {
    hide EncodeAll, Begin, Advance, Fits, Chunks, AllWf, Pushes, Script, PiecePushes, Payload;
    CutWf(parts, n);
    if parts == [] {
      assert [script0] + Scripts(parts) == [script0];
      assert body0 + [] == body0;
    } else {
      var init, last := parts[..|parts| - 1], parts[|parts| - 1];
      ReadsLayout(script0, contentType, body0, n, init);
      NextPart(last, n - PieceCount(init), contentType, body0 + Body(init));
      var all := [script0] + Scripts(parts);
      assert all[..|all| - 1] == [script0] + Scripts(init);
      assert all[|all| - 1] == Script(last);
      assert body0 + Body(init) + Chunks(last.pieces) == body0 + Body(parts);
    }
  }

  /** The round trip: the parts of any layout parse to the content type and the concatenated body. */
  lemma RoundTrip(protocol: Push, count: Push, contentType: Push, first: Part, rest: seq<Part>, n: nat)
    requires AllWf([protocol, count, contentType] + Pushes(first))
    requires Payload(protocol) == PROTOCOL_ID && Number(Payload(count)) == Some(n) && n > 0 && Fits(first, n)
    requires Cut(rest, n - |first.pieces|) && |first.pieces| + PieceCount(rest) == n
    ensures forall i :: 0 <= i < |rest| ==> AllWf(Pushes(rest[i]))
    ensures Verdict(Reads([EncodeAll([protocol, count, contentType] + Pushes(first))] + Scripts(rest)))
            == Single(Payload(contentType), Chunks(first.pieces) + Body(rest))
  {
    hide EncodeAll, Begin, Chunks, Fits;
    FirstPart(protocol, count, contentType, first, n);
    ReadsLayout(EncodeAll([protocol, count, contentType] + Pushes(first)), Payload(contentType), Chunks(first.pieces), n - |first.pieces|, rest);
  }
}
