/** The stored key of an outstanding transfer, and why the range scan of `load_transfers` finds exactly
    the transfers of one script hash and output. */
module AddressLocationCodec {
  import opened Base
  import opened ScriptSig

  /** A key's fields, in the source's widths: two 32-byte hashes, a u32 and a u64. */
  datatype Key = Key(address: Bytes, txid: Bytes, vout: nat, offset: nat)

  function Power(k: nat): nat
  {
    if k == 0 then 1 else 256 * Power(k - 1)
  }

  ghost predicate Typed(x: Key)
  {
    |x.address| == 32 && |x.txid| == 32 && x.vout < Power(4) && x.offset < Power(8)
  }

  /** The low `k` bytes of `n`, most significant first. */
  function BigEndian(n: nat, k: nat): (b: Bytes)
    ensures |b| == k
  {
    if k == 0 then [] else BigEndian(n / 256, k - 1) + [(n % 256) as Byte]
  }

  function FromBigEndian(b: Bytes): nat
  {
    if b == [] then 0 else FromBigEndian(b[..|b| - 1]) * 256 + b[|b| - 1] as nat
  }

  /** The low `k` bytes of `n`, least significant first. */
  function LittleEndian(n: nat, k: nat): (b: Bytes)
    ensures |b| == k
  {
    if k == 0 then [] else [(n % 256) as Byte] + LittleEndian(n / 256, k - 1)
  }

  function FromLittleEndian(b: Bytes): nat
  {
    if b == [] then 0 else b[0] as nat + FromLittleEndian(b[1..]) * 256
  }

  lemma {:induction false} BigEndianBack(n: nat, k: nat)
    requires n < Power(k)
    ensures FromBigEndian(BigEndian(n, k)) == n
    decreases k
  {
    if k > 0 {
      BigEndianBack(n / 256, k - 1);
      var b := BigEndian(n, k);
      assert b[..|b| - 1] == BigEndian(n / 256, k - 1);
    }
  }

  lemma {:induction false} LittleEndianBack(n: nat, k: nat)
    requires n < Power(k)
    ensures FromLittleEndian(LittleEndian(n, k)) == n
    decreases k
  {
    if k > 0 {
      LittleEndianBack(n / 256, k - 1);
      assert LittleEndian(n, k)[1..] == LittleEndian(n / 256, k - 1);
    }
  }

  /** Everything before the offset: script hash, transaction id, output number as consensus encodes it. */
  function Prefix(x: Key): Bytes
  {
    x.address + x.txid + LittleEndian(x.vout, 4)
  }

  function GetBytes(x: Key): Bytes
  {
    Prefix(x) + BigEndian(x.offset, 8)
  }

  function FromBytes(v: Bytes): Option<Key>
  {
    if |v| != 76 then None
    else Some(Key(v[..32], v[32..64], FromLittleEndian(v[64..68]), FromBigEndian(v[68..])))
  }

  lemma RoundTrip(x: Key)
    requires Typed(x)
    ensures FromBytes(GetBytes(x)) == Some(x)
  {
    LittleEndianBack(x.vout, 4);
    BigEndianBack(x.offset, 8);
    var v := GetBytes(x);
    assert v[..32] == x.address && v[32..64] == x.txid && v[64..68] == LittleEndian(x.vout, 4) && v[68..] == BigEndian(x.offset, 8);
  }

  // ---- the order of the table ----

  /** Keys are ordered byte by byte. */
  predicate AtMost(a: Bytes, b: Bytes)
  {
    if a == [] then true
    else if b == [] then false
    else a[0] < b[0] || (a[0] == b[0] && AtMost(a[1..], b[1..]))
  }

  /** The two ends of the scan for one script hash and output. */
  function RangeStart(address: Bytes, txid: Bytes, vout: nat): Key
  {
    Key(address, txid, vout, 0)
  }

  function RangeEnd(address: Bytes, txid: Bytes, vout: nat): Key
  {
    Key(address, txid, vout, Power(8) - 1)
  }

  predicate InRange(x: Key, address: Bytes, txid: Bytes, vout: nat)
  {
    && AtMost(GetBytes(RangeStart(address, txid, vout)), GetBytes(x))
    && AtMost(GetBytes(x), GetBytes(RangeEnd(address, txid, vout)))
  }

  /** A key between two keys of the same prefix has that prefix. */
  lemma {:induction false} Squeezed(p: Bytes, q: Bytes, lo: Bytes, mid: Bytes, hi: Bytes)
    requires |p| == |q| && AtMost(p + lo, q + mid) && AtMost(q + mid, p + hi)
    ensures p == q
    decreases |p|
  {
    if p != [] {
      assert (p + lo)[1..] == p[1..] + lo && (q + mid)[1..] == q[1..] + mid && (p + hi)[1..] == p[1..] + hi;
      assert (p + lo)[0] == p[0] && (q + mid)[0] == q[0] && (p + hi)[0] == p[0];
      Squeezed(p[1..], q[1..], lo, mid, hi);
    }
  }

  lemma {:induction false} SamePrefix(p: Bytes, a: Bytes, b: Bytes)
    requires AtMost(a, b)
    ensures AtMost(p + a, p + b)
    decreases |p|
  {
    if p == [] {
      assert p + a == a && p + b == b;
    } else {
      assert (p + a)[1..] == p[1..] + a && (p + b)[1..] == p[1..] + b;
      SamePrefix(p[1..], a, b);
    }
  }

  lemma {:induction false} BetweenEnds(lo: Bytes, b: Bytes, hi: Bytes)
    requires |lo| == |b| == |hi| && forall i :: 0 <= i < |b| ==> lo[i] == 0 && hi[i] == 255
    ensures AtMost(lo, b) && AtMost(b, hi)
    decreases |b|
  {
    if b != [] {
      BetweenEnds(lo[1..], b[1..], hi[1..]);
    }
  }

  lemma {:induction false} EndBytes(k: nat)
    ensures Power(k) > 0
    ensures forall i :: 0 <= i < k ==> BigEndian(0, k)[i] == 0 && BigEndian(Power(k) - 1, k)[i] == 255
    decreases k
  {
    if k > 0 {
      EndBytes(k - 1);
      assert (Power(k) - 1) / 256 == Power(k - 1) - 1 && (Power(k) - 1) % 256 == 255;
    }
  }

  lemma PrefixTells(x: Key, y: Key)
    requires Typed(x) && Typed(y) && Prefix(x) == Prefix(y)
    ensures x.address == y.address && x.txid == y.txid && x.vout == y.vout
  {
    var v := Prefix(x);
    assert v[..32] == x.address && v[32..64] == x.txid && v[64..] == LittleEndian(x.vout, 4);
    assert v[..32] == y.address && v[32..64] == y.txid && v[64..] == LittleEndian(y.vout, 4);
    LittleEndianBack(x.vout, 4);
    LittleEndianBack(y.vout, 4);
  }

  /** The scan between the two ends visits exactly the keys of that script hash and output, whatever
      their offset. */
  lemma RangeExactly(x: Key, address: Bytes, txid: Bytes, vout: nat)
    requires Typed(x) && Typed(Key(address, txid, vout, 0))
    ensures InRange(x, address, txid, vout) <==> x.address == address && x.txid == txid && x.vout == vout
  {
    EndBytes(8);
    var start := RangeStart(address, txid, vout);
    var lo, mid, hi := BigEndian(0, 8), BigEndian(x.offset, 8), BigEndian(Power(8) - 1, 8);
    if InRange(x, address, txid, vout) {
      Squeezed(Prefix(start), Prefix(x), lo, mid, hi);
      PrefixTells(start, x);
    }
    if x.address == address && x.txid == txid && x.vout == vout {
      BetweenEnds(lo, mid, hi);
      SamePrefix(Prefix(x), lo, mid);
      SamePrefix(Prefix(x), mid, hi);
    }
  }
}
