/** The wire form of per-token policy versions: int64 little-endian bytes, absent when nothing is
    known. */
module Wire {
  import opened Common

  type Byte = b: int | 0 <= b < 256

  const TWO_63 := 0x8000_0000_0000_0000
  const TWO_64 := 0x1_0000_0000_0000_0000

  type Int64 = v: int | -TWO_63 <= v < TWO_63

  /** `data` is raw bytes; `shape` lists the dimensions. */
  datatype EncodedTensor = EncodedTensor(dtype: string, shape: seq<int>, data: seq<Byte>)

  datatype WireError = NotInt64PerToken | BelowUnknown

  // ---------------------------------------------------------------- little-endian numbers

  function Power(k: nat): (p: nat)
    ensures p >= 1
  {
    if k == 0 then 1 else 256 * Power(k - 1)
  }

  function ToLittle(n: nat, k: nat): (bs: seq<Byte>)
    ensures |bs| == k
    decreases k
  {
    if k == 0 then [] else [n % 256] + ToLittle(n / 256, k - 1)
  }

  function FromLittle(bs: seq<Byte>): nat {
    if bs == [] then 0 else bs[0] + 256 * FromLittle(bs[1..])
  }

  lemma {:induction false} LittleThere(n: nat, k: nat)
    requires n < Power(k)
    ensures FromLittle(ToLittle(n, k)) == n
    decreases k
  {
    if k > 0 {
      assert n / 256 < Power(k - 1);
      LittleThere(n / 256, k - 1);
      assert ToLittle(n, k)[1..] == ToLittle(n / 256, k - 1);
    }
  }

  lemma {:induction false} LittleBack(bs: seq<Byte>)
    ensures FromLittle(bs) < Power(|bs|)
    ensures ToLittle(FromLittle(bs), |bs|) == bs
  {
    if bs != [] {
      LittleBack(bs[1..]);
      var rest := FromLittle(bs[1..]);
      DigitBack(bs[0], rest);
      assert [bs[0]] + bs[1..] == bs;
    }
  }

  lemma DigitBack(d: Byte, n: nat)
    ensures (d + 256 * n) % 256 == d && (d + 256 * n) / 256 == n
  {
  }

  lemma PowerEight()
    ensures Power(8) == TWO_64
  {
    assert Power(2) == 0x1_0000 && Power(4) == 0x1_0000_0000 && Power(6) == 0x1_0000_0000_0000;
  }

  // ---------------------------------------------------------------- one value

  /** Two's complement. */
  function ToBytes(v: Int64): (bs: seq<Byte>)
    ensures |bs| == 8
  {
    ToLittle(if v < 0 then v + TWO_64 else v, 8)
  }

  function FromBytes(bs: seq<Byte>): Int64
    requires |bs| == 8
  {
    LittleBack(bs);
    PowerEight();
    var n := FromLittle(bs);
    if n < TWO_63 then n else n - TWO_64
  }

  lemma {:induction false} LittleAt(n: nat, k: nat, i: nat)
    requires i < k
    ensures ToLittle(n, k)[i] == n / Power(i) % 256
    decreases k
  {
    if i > 0 {
      LittleAt(n / 256, k - 1, i - 1);
      DivideTwice(n, Power(i - 1));
    }
  }

  lemma DivideTwice(n: nat, d: nat)
    requires d >= 1
    ensures n / 256 / d == n / (256 * d)
  {
    var q := n / 256 / d;
    assert n / 256 == q * d + n / 256 % d;
    var r := n - 256 * d * q;
    assert r == 256 * (n / 256 % d) + n % 256;
    assert 0 <= r < 256 * d;
    QuotientIs(n, 256 * d, q, r);
  }

  lemma QuotientIs(n: nat, d: nat, q: int, r: int)
    requires d >= 1 && n == d * q + r && 0 <= r < d
    ensures n / d == q
  {
    var a, b := n / d, n % d;
    assert d * (a - q) == r - b;
    SmallMultiple(d, a - q);
  }

  lemma SmallMultiple(d: int, k: int)
    requires -d < d * k < d
    ensures k == 0
  {
    if k >= 1 { AtLeast(d, k); } else if k <= -1 { AtLeast(d, -k); }
  }

  lemma AtLeast(d: int, k: int)
    requires 0 < d && 1 <= k
    ensures d * k >= d
  {
  }

  /** Byte `i` of a value, least significant first: its two's complement divided by 256 to the `i`, modulo 256. */
  lemma {:induction false} ByteAt(v: Int64, i: nat)
    requires i < 8
    ensures ToBytes(v)[i] == (if v < 0 then v + TWO_64 else v) / Power(i) % 256
  {
    LittleAt(if v < 0 then v + TWO_64 else v, 8, i);
  }

  lemma ValueThere(v: Int64)
    ensures FromBytes(ToBytes(v)) == v
  {
    PowerEight();
    LittleThere(if v < 0 then v + TWO_64 else v, 8);
  }

  lemma ValueBack(bs: seq<Byte>)
    requires |bs| == 8
    ensures ToBytes(FromBytes(bs)) == bs
  {
    PowerEight();
    LittleBack(bs);
  }

  // ---------------------------------------------------------------- arrays

  function Flat(vs: seq<Int64>): (data: seq<Byte>)
    ensures |data| == 8 * |vs|
  {
    if vs == [] then [] else Flat(vs[..|vs| - 1]) + ToBytes(vs[|vs| - 1])
  }

  function Unflat(data: seq<Byte>, n: nat): (vs: seq<Int64>)
    requires |data| == 8 * n
    ensures |vs| == n
  {
    if n == 0 then [] else Unflat(data[..8 * (n - 1)], n - 1) + [FromBytes(data[8 * (n - 1)..])]
  }

  lemma {:induction false} FlatThere(vs: seq<Int64>)
    ensures Unflat(Flat(vs), |vs|) == vs
  {
    hide ToBytes, FromBytes;
    if vs != [] {
      var n := |vs| - 1;
      FlatThere(vs[..n]);
      ValueThere(vs[n]);
      assert Flat(vs) == Flat(vs[..n]) + ToBytes(vs[n]);
      hide Flat;
      Halves(Flat(vs[..n]), ToBytes(vs[n]));
    }
  }

  lemma Halves<T>(a: seq<T>, b: seq<T>)
    ensures (a + b)[..|a|] == a && (a + b)[|a|..] == b
  {
  }

  lemma {:induction false} FlatBack(data: seq<Byte>, n: nat)
    requires |data| == 8 * n
    ensures Flat(Unflat(data, n)) == data
  {
    hide ToBytes, FromBytes;
    if n > 0 {
      var front, back := data[..8 * (n - 1)], data[8 * (n - 1)..];
      FlatBack(front, n - 1);
      ValueBack(back);
      var vs := Unflat(front, n - 1);
      assert Unflat(data, n) == vs + [FromBytes(back)];
      FlatSnoc(vs, FromBytes(back));
      assert front + back == data;
    }
  }

  lemma {:induction false} FlatSnoc(vs: seq<Int64>, v: Int64)
    ensures Flat(vs + [v]) == Flat(vs) + ToBytes(v)
  {
    assert (vs + [v])[..|vs|] == vs;
  }

  predicate AnyBelow(vs: seq<Int64>) { exists i | 0 <= i < |vs| :: vs[i] < -1 }

  predicate AnyKnown(vs: seq<Int64>) { exists i | 0 <= i < |vs| :: vs[i] >= 0 }

  function Encode(vs: seq<Int64>): Result<Option<EncodedTensor>, WireError> {
    if AnyBelow(vs) then Err(BelowUnknown)
    else if !AnyKnown(vs) then Ok(None)
    else Ok(Some(EncodedTensor("int64", [|vs|], Flat(vs))))
  }

  function Decode(payload: EncodedTensor, tokens: nat): Result<seq<Int64>, WireError> {
    if payload.dtype != "int64" || payload.shape != [tokens] || |payload.data| != tokens * 8 then Err(NotInt64PerToken)
    else
      var vs := Unflat(payload.data, tokens);
      if AnyBelow(vs) then Err(BelowUnknown) else Ok(vs)
  }

  /** What a sample's optional payload says: absence stands for all-unknown. */
  function Read(payload: Option<EncodedTensor>, tokens: nat): Result<seq<Int64>, WireError> {
    if payload.None? then Ok(seq(tokens, _ => -1)) else Decode(payload.value, tokens)
  }

  /** Every array the encoder accepts comes back from what it produced. */
  lemma RoundTrip(vs: seq<Int64>)
    ensures Encode(vs).Ok? <==> forall i | 0 <= i < |vs| :: vs[i] >= -1
    ensures Encode(vs).Ok? ==> Read(Encode(vs).value, |vs|) == Ok(vs)
    ensures Encode(vs).Ok? ==> (Encode(vs).value.None? <==> forall i | 0 <= i < |vs| :: vs[i] == -1)
  {
    FlatThere(vs);
    hide Flat, Unflat;
    if !AnyBelow(vs) && !AnyKnown(vs) { assert vs == seq(|vs|, _ => -1); }
  }

  lemma {:induction false} FlatAt(vs: seq<Int64>, j: nat)
    requires j < |vs|
    ensures 8 * j + 8 <= |Flat(vs)| && Flat(vs)[8 * j..8 * j + 8] == ToBytes(vs[j])
  {
    hide ToBytes;
    var n := |vs| - 1;
    assert Flat(vs) == Flat(vs[..n]) + ToBytes(vs[n]);
    if j < n {
      FlatAt(vs[..n], j);
      assert Flat(vs)[8 * j..8 * j + 8] == Flat(vs[..n])[8 * j..8 * j + 8];
    }
  }

  /** The bytes of an encoded array: eight for each value in turn, least significant first, of its two's complement. */
  lemma {:induction false} EncodedBytes(vs: seq<Int64>, j: nat, i: nat)
    requires Encode(vs).Ok? && Encode(vs).value.Some? && j < |vs| && i < 8
    ensures var data := Encode(vs).value.value.data;
            |data| == 8 * |vs| && data[8 * j + i] == (if vs[j] < 0 then vs[j] + TWO_64 else vs[j]) / Power(i) % 256
  {
    FlatAt(vs, j);
    ByteAt(vs[j], i);
    hide ToBytes, Power;
    assert Flat(vs)[8 * j + i] == Flat(vs)[8 * j..8 * j + 8][i];
    hide Flat;
  }

  /** Every payload the decoder accepts with some known label is what the encoder makes of it. */
  lemma DecodedReencodes(payload: EncodedTensor, tokens: nat)
    requires Decode(payload, tokens).Ok?
    ensures Encode(Decode(payload, tokens).value) == Ok(if AnyKnown(Decode(payload, tokens).value) then Some(payload) else None)
  {
    FlatBack(payload.data, tokens);
  }
}
