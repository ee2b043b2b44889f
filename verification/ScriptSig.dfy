/** Multi-part inscriptions in scriptSigs: the push decoder, the part-by-part automaton, and the round
    trip from chunks to bytes and back. */
module ScriptSig {
  import opened Base

  type Bytes = seq<Byte>

  // ---- pushes ----

  /** The first push of a script and what follows it; `None` where the decoder gives up. */
  function DecodeOne(b: Bytes): Option<(Bytes, Bytes)>
    requires b != []
    ensures DecodeOne(b).Some? ==> |DecodeOne(b).value.1| < |b|
  {
    if b[0] == 0 then Some(([], b[1..]))
    else if 81 <= b[0] <= 96 then Some(([(b[0] - 80) as Byte], b[1..]))
    else if 1 <= b[0] <= 75 then Take(b, 1, b[0])
    else if b[0] == 76 then if |b| < 2 then None else Take(b, 2, b[1])
    else if b[0] == 77 then if |b| < 3 then None else Take(b, 3, Word2(b))
    else if b[0] == 78 then if |b| < 5 then None else Take(b, 5, Word4(b))
    else None
  }

  /** The OP_PUSHDATA2 length as the source computes it: its low byte is the opcode itself. */
  function Word2(b: Bytes): nat
    requires |b| >= 3
  {
    (b[1] as nat) * 0x100 + b[0] as nat
  }

  /** The OP_PUSHDATA4 length as the source computes it: its low byte is the opcode itself. */
  function Word4(b: Bytes): nat
    requires |b| >= 5
  {
    (b[3] as nat) * 0x100_0000 + (b[2] as nat) * 0x1_0000 + (b[1] as nat) * 0x100 + b[0] as nat
  }

  function Take(b: Bytes, from: nat, len: nat): Option<(Bytes, Bytes)>
    requires 1 <= from <= |b|
    ensures Take(b, from, len).Some? ==> |Take(b, from, len).value.1| < |b|
  {
    if |b| < from + len then None else Some((b[from..from + len], b[from + len..]))
  }

  function Decode(b: Bytes): Option<seq<Bytes>>
    decreases |b|
  {
    if b == [] then Some([])
    else
      match DecodeOne(b)
      case None => None
      case Some((push, rest)) =>
        match Decode(rest)
        case None => None
        case Some(pushes) => Some([push] + pushes)
  }

  function Joined(read: seq<Bytes>, rest: Option<seq<Bytes>>): Option<seq<Bytes>>
  {
    match rest
    case None => None
    case Some(pushes) => Some(read + pushes)
  }

  lemma JoinStep(read: seq<Bytes>, b: Bytes, push: Bytes, rest: Bytes)
    requires b != [] && DecodeOne(b) == Some((push, rest))
    ensures Joined(read, Decode(b)) == Joined(read + [push], Decode(rest))
  {
    if Decode(rest).Some? {
      assert read + ([push] + Decode(rest).value) == read + [push] + Decode(rest).value;
    }
  }

  /** The decoder's loop: every slice is in range and it terminates on every script. */
  method DecodePushDatas(script: Bytes) returns (r: Option<seq<Bytes>>)
    ensures r == Decode(script)
  {
    var bytes := script;
    var pushDatas: seq<Bytes> := [];
    assert Decode(script).Some? ==> [] + Decode(script).value == Decode(script).value;
    while bytes != []
      invariant Decode(script) == Joined(pushDatas, Decode(bytes))
      decreases |bytes|
    {
      ghost var before, unread := pushDatas, bytes;
      if bytes[0] == 0 {
        pushDatas := pushDatas + [[]];
        bytes := bytes[1..];
      } else if 81 <= bytes[0] <= 96 {
        pushDatas := pushDatas + [[(bytes[0] - 80) as Byte]];
        bytes := bytes[1..];
      } else {
        var start: nat, len: nat;
        if 1 <= bytes[0] <= 75 {
          start, len := 1, bytes[0];
        } else if bytes[0] == 76 {
          if |bytes| < 2 {
            return None;
          }
          start, len := 2, bytes[1];
        } else if bytes[0] == 77 {
          if |bytes| < 3 {
            return None;
          }
          start, len := 3, Word2(bytes);
        } else if bytes[0] == 78 {
          if |bytes| < 5 {
            return None;
          }
          start, len := 5, Word4(bytes);
        } else {
          return None;
        }
        if |bytes| < start + len {
          return None;
        }
        pushDatas := pushDatas + [bytes[start..start + len]];
        bytes := bytes[start + len..];
      }
      JoinStep(before, unread, pushDatas[|before|], bytes);
    }
    assert pushDatas + [] == pushDatas;
    return Some(pushDatas);
  }

  /** Little-endian value. */
  function Value(data: Bytes): nat
  {
    if data == [] then 0 else data[0] as nat + 0x100 * Value(data[1..])
  }

  function Number(data: Bytes): Option<nat>
  {
    if |data| > 8 then None else Some(Value(data))
  }

  function Pow256(i: nat): nat
  {
    if i == 0 then 1 else 0x100 * Pow256(i - 1)
  }

  lemma {:induction false} ValueSnoc(data: Bytes, b: Byte)
    ensures Value(data + [b]) == Value(data) + Pow256(|data|) * b as nat
    decreases |data|
  {
    if data == [] {
      assert [b][1..] == [];
    } else {
      assert (data + [b])[1..] == data[1..] + [b];
      ValueSnoc(data[1..], b);
    }
  }

  lemma {:induction false} ValueBound(data: Bytes)
    ensures Value(data) < Pow256(|data|)
    decreases |data|
  {
    if data != [] {
      ValueBound(data[1..]);
    }
  }

  method PushDataToNumber(data: Bytes) returns (r: Option<nat>)
    ensures r == Number(data)
    ensures r.Some? ==> r.value <= 0xFFFF_FFFF_FFFF_FFFF
  {
    if |data| > 8 {
      return None;
    }
    var n: nat, weight: nat := 0, 1;
    for i := 0 to |data|
      invariant n == Value(data[..i])
      invariant weight == Pow256(i)
    {
      ValueSnoc(data[..i], data[i]);
      assert data[..i] + [data[i]] == data[..i + 1];
      n := n + weight * data[i] as nat;
      weight := weight * 0x100;
    }
    assert data[..|data|] == data;
    ValueBound(data);
    assert Pow256(|data|) <= Pow256(8) by { PowMono(|data|, 8); }
    assert Pow256(8) == 0x1_0000_0000_0000_0000 by { Pow8(); }
    return Some(n);
  }

  lemma {:induction false} PowMono(i: nat, j: nat)
    requires i <= j
    ensures Pow256(i) <= Pow256(j)
    decreases j - i
  {
    if i < j {
      PowMono(i, j - 1);
    }
  }

  lemma Pow8()
    ensures Pow256(8) == 0x1_0000_0000_0000_0000
  {
    assert Pow256(2) == 0x1_0000;
    assert Pow256(4) == 0x1_0000_0000;
    assert Pow256(6) == 0x1_0000_0000_0000;
  }

  // ---- the automaton over parts ----

  const PROTOCOL_ID: Bytes := [111, 114, 100]

  datatype Reading =
    | Dead
    | Need(pieces: nat, contentType: Bytes, body: Bytes)
    | Complete(contentType: Bytes, body: Bytes)

  /** Appends chunks while the next counter is the expected one. */
  function Eat(pushes: seq<Bytes>, n: nat, body: Bytes): (nat, Bytes)
    ensures Eat(pushes, n, body).0 <= n
    decreases |pushes|
  {
    if n == 0 || |pushes| < 2 || Number(pushes[0]) != Some(n - 1) then (n, body)
    else Eat(pushes[2..], n - 1, body + pushes[1])
  }

  function After(pushes: seq<Bytes>, n: nat, contentType: Bytes, body: Bytes): Reading
  {
    var (n', body') := Eat(pushes, n, body);
    if n' == 0 then Complete(contentType, body') else Need(n', contentType, body')
  }

  function Begin(script: Bytes): Reading
  {
    match Decode(script)
    case None => Dead
    case Some(p) =>
      if |p| < 3 || p[0] != PROTOCOL_ID || Number(p[1]) == None || Number(p[1]) == Some(0) then Dead
      else After(p[3..], Number(p[1]).value, p[2], [])
  }

  function Advance(s: Reading, script: Bytes): Reading
  {
    match s
    case Dead => Dead
    case Complete(_, _) => s
    case Need(n, contentType, body) =>
      match Decode(script)
      case None => Dead
      case Some(p) =>
        if n == 0 || |p| < 2 || Number(p[0]) != Some(n - 1) then Dead
        else After(p, n, contentType, body)
  }

  /** Reading parts left to right. */
  function Reads(scripts: seq<Bytes>): Reading
    requires scripts != []
    decreases |scripts|
  {
    if |scripts| == 1 then Begin(scripts[0])
    else Advance(Reads(scripts[..|scripts| - 1]), scripts[|scripts| - 1])
  }

  datatype ParsedInscription = NoInscription | Partial | Single(contentType: Bytes, body: Bytes)

  function Verdict(p: Reading): ParsedInscription
  {
    match p
    case Dead => NoInscription
    case Need(_, _, _) => Partial
    case Complete(contentType, body) => Single(contentType, body)
  }

  lemma {:induction false} ReadsFinal(scripts: seq<Bytes>, i: nat)
    requires 0 < i <= |scripts|
    requires !Reads(scripts[..i]).Need?
    ensures Reads(scripts) == Reads(scripts[..i])
    decreases |scripts| - i
  {
    if i == |scripts| {
      assert scripts[..i] == scripts;
    } else {
      assert scripts[..i + 1][..i] == scripts[..i];
      ReadsFinal(scripts, i + 1);
    }
  }

  /** The parser's nested loops over scriptSigs and chunks read the parts left to right. */
  method ParseScripts(scripts: seq<Bytes>) returns (r: ParsedInscription)
    requires scripts != []
    ensures r == Verdict(Reads(scripts))
  {
    hide Decode, DecodeOne, Value;
    assert scripts[..1] == [scripts[0]];
    var decoded := DecodePushDatas(scripts[0]);
    if decoded.None? || |decoded.value| < 3 || decoded.value[0] != PROTOCOL_ID {
      ReadsFinal(scripts, 1);
      return NoInscription;
    }
    var count := PushDataToNumber(decoded.value[1]);
    if count.None? || count.value == 0 {
      ReadsFinal(scripts, 1);
      return NoInscription;
    }
    var npieces: nat := count.value;
    var contentType := decoded.value[2];
    var pushDatas := decoded.value[3..];
    var body: Bytes := [];
    var k := 1;
    while true
      invariant 1 <= k <= |scripts|
      invariant npieces > 0
      invariant Reads(scripts[..k]) == After(pushDatas, npieces, contentType, body)
      decreases |scripts| - k
    {
      while npieces > 0
        invariant Reads(scripts[..k]) == After(pushDatas, npieces, contentType, body)
        decreases |pushDatas|
      {
        if |pushDatas| < 2 {
          break;
        }
        var next := PushDataToNumber(pushDatas[0]);
        if next.None? || next.value != npieces - 1 {
          break;
        }
        body := body + pushDatas[1];
        pushDatas := pushDatas[2..];
        npieces := npieces - 1;
      }
      if npieces == 0 {
        ReadsFinal(scripts, k);
        return Single(contentType, body);
      }
      if k == |scripts| {
        assert scripts[..k] == scripts;
        return Partial;
      }
      assert scripts[..k + 1][..k] == scripts[..k];
      decoded := DecodePushDatas(scripts[k]);
      k := k + 1;
      if decoded.None? || |decoded.value| < 2 {
        ReadsFinal(scripts, k);
        return NoInscription;
      }
      var next := PushDataToNumber(decoded.value[0]);
      if next.None? || next.value != npieces - 1 {
        ReadsFinal(scripts, k);
        return NoInscription;
      }
      pushDatas := decoded.value;
    }
  }

  /** Appending a part never changes a finished or failed reading; only a partial one moves on, and
      then by that part alone. */
  lemma AppendPart(scripts: seq<Bytes>, next: Bytes)
    requires scripts != []
    ensures Reads(scripts + [next]) == Advance(Reads(scripts), next)
    ensures Verdict(Reads(scripts)) != Partial ==> Verdict(Reads(scripts + [next])) == Verdict(Reads(scripts))
  {
    assert (scripts + [next])[..|scripts|] == scripts;
  }
}
