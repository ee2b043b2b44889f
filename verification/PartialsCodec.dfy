/** The stored form of an unfinished inscription, and why storing it between blocks loses nothing. */
module PartialsCodec {
  import opened Base
  import opened ScriptSig

  const U32: nat := 0x1_0000_0000

  datatype StoredPart = StoredPart(isTapscript: bool, scriptBuffer: Bytes)

  datatype StoredPartials = StoredPartials(inscriptionIndex: nat, genesisTxid: Bytes, parts: seq<StoredPart>)

  /** The field widths of the source: a u32 index and a 32-byte transaction id. */
  predicate Typed(p: StoredPartials)
  {
    p.inscriptionIndex < U32 && |p.genesisTxid| == 32
  }

  /** Big-endian bytes of `n as u32`. */
  function Be4(n: nat): (b: Bytes)
    ensures |b| == 4
  {
    [(n / 0x100_0000 % 0x100) as Byte, (n / 0x1_0000 % 0x100) as Byte, (n / 0x100 % 0x100) as Byte, (n % 0x100) as Byte]
  }

  function FromBe4(b: Bytes): nat
    requires |b| == 4
  {
    (b[0] as nat) * 0x100_0000 + (b[1] as nat) * 0x1_0000 + (b[2] as nat) * 0x100 + b[3] as nat
  }

  lemma Be4RoundTrip(n: nat)
    ensures FromBe4(Be4(n)) == n % U32
  {
    var a, b, c := n / 0x100, n / 0x1_0000, n / 0x100_0000;
    assert n == a * 0x100 + n % 0x100;
    assert a / 0x100 == b && a == b * 0x100 + a % 0x100;
    assert b / 0x100 == c && b == c * 0x100 + b % 0x100;
    var d := c / 0x100;
    assert c == d * 0x100 + c % 0x100;
    assert n == d * U32 + FromBe4(Be4(n));
  }

  lemma Be4Short(n: nat)
    requires n < U32
    ensures FromBe4(Be4(n)) == n
  {
    hide FromBe4, Be4;
    Be4RoundTrip(n);
    assert n % U32 == n;
  }

  function EncodePart(p: StoredPart): Bytes
  {
    [if p.isTapscript then 1 else 0] + Be4(|p.scriptBuffer|) + p.scriptBuffer
  }

  function EncodeParts(parts: seq<StoredPart>): Bytes
  {
    if parts == [] then [] else EncodePart(parts[0]) + EncodeParts(parts[1..])
  }

  function EncodePartials(p: StoredPartials): Bytes
  {
    Be4(p.inscriptionIndex) + p.genesisTxid + EncodeParts(p.parts)
  }

  /** The encoder's loop. */
  method GetBytes(p: StoredPartials) returns (buff: Bytes)
    ensures buff == EncodePartials(p)
  {
    buff := Be4(p.inscriptionIndex) + p.genesisTxid;
    ghost var head := buff;
    for i := 0 to |p.parts|
      invariant buff + EncodeParts(p.parts[i..]) == head + EncodeParts(p.parts)
    {
      assert p.parts[i..][1..] == p.parts[i + 1..];
      assert buff + (EncodePart(p.parts[i]) + EncodeParts(p.parts[i + 1..]))
          == buff + EncodePart(p.parts[i]) + EncodeParts(p.parts[i + 1..]);
      buff := buff + [if p.parts[i].isTapscript then 1 else 0] + Be4(|p.parts[i].scriptBuffer|) + p.parts[i].scriptBuffer;
    }
  }

  /** `None` where a slice of the source would be out of range. */
  function DecodeParts(v: Bytes): Option<seq<StoredPart>>
    decreases |v|
  {
    if v == [] then Some([])
    else if |v| < 5 then None
    else
      var len := FromBe4(v[1..5]);
      if |v| < 5 + len then None
      else
        match DecodeParts(v[5 + len..])
        case None => None
        case Some(parts) => Some([StoredPart(v[0] == 1, v[5..5 + len])] + parts)
  }

  function DecodePartials(v: Bytes): Option<StoredPartials>
  {
    if |v| < 36 then None
    else
      match DecodeParts(v[36..])
      case None => None
      case Some(parts) => Some(StoredPartials(FromBe4(v[..4]), v[4..36], parts))
  }

  function Prepend(read: seq<StoredPart>, rest: Option<seq<StoredPart>>): Option<seq<StoredPart>>
  {
    match rest
    case None => None
    case Some(parts) => Some(read + parts)
  }

  /** The decoder's cursor loop. */
  method FromBytes(v: Bytes) returns (r: Option<StoredPartials>)
    ensures r == DecodePartials(v)
  {
    if |v| < 36 {
      return None;
    }
    var parts: seq<StoredPart> := [];
    var currentByte := 36;
    assert Prepend([], DecodeParts(v[36..])) == DecodeParts(v[36..]) by {
      if DecodeParts(v[36..]).Some? {
        assert [] + DecodeParts(v[36..]).value == DecodeParts(v[36..]).value;
      }
    }
    while currentByte != |v|
      invariant 36 <= currentByte <= |v|
      invariant DecodeParts(v[36..]) == Prepend(parts, DecodeParts(v[currentByte..]))
      decreases |v| - currentByte
    {
      var rest := v[currentByte..];
      if |v| < currentByte + 5 {
        return None;
      }
      assert rest[1..5] == v[currentByte + 1..currentByte + 5];
      var scriptLen := FromBe4(v[currentByte + 1..currentByte + 5]);
      if |v| < currentByte + 5 + scriptLen {
        return None;
      }
      assert rest[5..5 + scriptLen] == v[currentByte + 5..currentByte + 5 + scriptLen];
      assert rest[5 + scriptLen..] == v[currentByte + 5 + scriptLen..];
      var part := StoredPart(v[currentByte] == 1, v[currentByte + 5..currentByte + 5 + scriptLen]);
      ghost var tail := DecodeParts(v[currentByte + 5 + scriptLen..]);
      assert tail.Some? ==> parts + ([part] + tail.value) == parts + [part] + tail.value;
      parts := parts + [part];
      currentByte := currentByte + 5 + scriptLen;
    }
    assert v[currentByte..] == [];
    assert parts + [] == parts;
    return Some(StoredPartials(FromBe4(v[..4]), v[4..36], parts));
  }

  predicate Short(parts: seq<StoredPart>)
  {
    forall i :: 0 <= i < |parts| ==> |parts[i].scriptBuffer| < U32
  }

  lemma Fields(flag: Bytes, len: Bytes, script: Bytes, rest: Bytes)
    requires |flag| == 1 && |len| == 4
    ensures var v := flag + len + script + rest;
            v[0] == flag[0] && v[1..5] == len && v[5..5 + |script|] == script && v[5 + |script|..] == rest
  {
  }

  lemma {:induction false} PartsRoundTrip(parts: seq<StoredPart>)
    requires Short(parts)
    ensures DecodeParts(EncodeParts(parts)) == Some(parts)
    decreases |parts|
  {
    hide Be4, FromBe4;
    if parts != [] {
      var p := parts[0];
      var v := EncodeParts(parts);
      Be4Short(|p.scriptBuffer|);
      PartsRoundTrip(parts[1..]);
      assert v == [if p.isTapscript then 1 else 0] + Be4(|p.scriptBuffer|) + p.scriptBuffer + EncodeParts(parts[1..]);
      Fields([if p.isTapscript then 1 else 0], Be4(|p.scriptBuffer|), p.scriptBuffer, EncodeParts(parts[1..]));
      assert [p] + parts[1..] == parts;
    }
  }

  lemma FromBe4Bound(b: Bytes)
    requires |b| == 4
    ensures FromBe4(b) < U32
  {
  }

  lemma {:induction false} DecodedShort(v: Bytes)
    requires DecodeParts(v).Some?
    ensures Short(DecodeParts(v).value)
    decreases |v|
  {
    if v != [] {
      var len := FromBe4(v[1..5]);
      FromBe4Bound(v[1..5]);
      DecodedShort(v[5 + len..]);
    }
  }

  /** Decoding an encoded record gives it back exactly when every script is shorter than 2^32 bytes. */
  lemma RoundTripExactly(p: StoredPartials)
    requires Typed(p)
    ensures DecodePartials(EncodePartials(p)) == Some(p) <==> Short(p.parts)
  {
    var v := EncodePartials(p);
    assert v[..4] == Be4(p.inscriptionIndex) && v[4..36] == p.genesisTxid && v[36..] == EncodeParts(p.parts);
    Be4Short(p.inscriptionIndex);
    if Short(p.parts) {
      PartsRoundTrip(p.parts);
    } else if DecodePartials(v).Some? {
      DecodedShort(v[36..]);
    }
  }

  function Buffers(parts: seq<StoredPart>): seq<Bytes>
  {
    seq(|parts|, i requires 0 <= i < |parts| => parts[i].scriptBuffer)
  }

  /** Storing an unfinished inscription, loading it in a later block and appending a part reads the
      same as having had all parts at once, and one automaton step further. */
  lemma StoreLoadAppend(p: StoredPartials, part: StoredPart)
    requires Typed(p) && Short(p.parts) && p.parts != []
    ensures var loaded := DecodePartials(EncodePartials(p));
            && loaded.Some?
            && Reads(Buffers(loaded.value.parts + [part])) == Reads(Buffers(p.parts + [part]))
            && Reads(Buffers(loaded.value.parts + [part])) == Advance(Reads(Buffers(p.parts)), part.scriptBuffer)
  {
    RoundTripExactly(p);
    AppendPart(Buffers(p.parts), part.scriptBuffer);
    assert Buffers(p.parts + [part]) == Buffers(p.parts) + [part.scriptBuffer];
  }
}
