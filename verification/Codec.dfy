/**
 Canonical encodings of transactions, logs and headers. An encoding is a list of fields; the decoders
 read them back, with the reader's habit of accepting a short final read and padding it with zeros.
 */
module Codec {
  import opened Words
  import opened Txs

  /** A fixed-width number, a length-prefixed byte string, one byte, or bytes of a known length. */
  datatype Field = Num(v: u64) | Bytes(b: seq<byte>) | Single(x: byte) | Raw(r: seq<byte>)

  datatype Shape = NumShape | BytesShape | SingleShape | RawShape(n: nat)

  function ShapeOf(f: Field): (s: Shape)
  {
    match f
    case Num(_) => NumShape
    case Bytes(_) => BytesShape
    case Single(_) => SingleShape
    case Raw(r) => RawShape(|r|)
  }

  function Shapes(fs: seq<Field>): (ss: seq<Shape>)
    ensures |ss| == |fs|
  {
    if fs == [] then [] else [ShapeOf(fs[0])] + Shapes(fs[1..])
  }

  function PutBytes(b: seq<byte>): (r: seq<byte>)
  {
    U64Bytes(Wrap(|b|)) + b
  }

  function Put(f: Field): (r: seq<byte>)
  {
    match f
    case Num(v) => U64Bytes(v)
    case Bytes(b) => PutBytes(b)
    case Single(x) => [x]
    case Raw(r) => r
  }

  function PutAll(fs: seq<Field>): (r: seq<byte>)
  {
    if fs == [] then [] else Put(fs[0]) + PutAll(fs[1..])
  }

  /* ----- Reading ----- */

  datatype Got<+T> = Got(value: T, rest: seq<byte>) | Fail

  function Zeros(n: nat): (z: seq<byte>)
    ensures |z| == n && forall i :: 0 <= i < n ==> z[i] == 0
  {
    if n == 0 then [] else Zeros(n - 1) + [0]
  }

  /** Filling a buffer of `n` bytes: an error only at the end of the data, otherwise whatever is left. */
  function Read(d: seq<byte>, n: nat): (g: Got<seq<byte>>)
    ensures g.Got? ==> |g.value| == n
  {
    if n > 0 && d == [] then Fail
    else if n <= |d| then Got(d[..n], d[n..])
    else Got(d + Zeros(n - |d|), [])
  }

  function ReadU64(d: seq<byte>): (g: Got<u64>)
  {
    match Read(d, 8)
    case Fail => Fail
    case Got(b, rest) => Got(BytesU64(b), rest)
  }

  /** A length of 2^63 or more cannot be allocated. */
  function ReadBytes(d: seq<byte>): (g: Got<seq<byte>>)
  {
    match ReadU64(d)
    case Fail => Fail
    case Got(n, rest) => if n >= TWO63 then Fail else Read(rest, n)
  }

  function ReadField(s: Shape, d: seq<byte>): (g: Got<Field>)
  {
    match s
    case NumShape => (match ReadU64(d) case Fail => Fail case Got(v, rest) => Got(Num(v), rest))
    case BytesShape => (match ReadBytes(d) case Fail => Fail case Got(b, rest) => Got(Bytes(b), rest))
    case SingleShape => if d == [] then Fail else Got(Single(d[0]), d[1..])
    case RawShape(n) => (match Read(d, n) case Fail => Fail case Got(r, rest) => Got(Raw(r), rest))
  }

  function ReadAll(ss: seq<Shape>, d: seq<byte>): (g: Got<seq<Field>>)
    ensures g.Got? ==> |g.value| == |ss| && forall i :: 0 <= i < |ss| ==> ShapeOf(g.value[i]) == ss[i]
  {
    if ss == [] then Got([], d)
    else
      match ReadField(ss[0], d)
      case Fail => Fail
      case Got(f, rest) =>
        match ReadAll(ss[1..], rest)
        case Fail => Fail
        case Got(fs, rest') => Got([f] + fs, rest')
  }

  /* ----- Reading back what was written ----- */

  ghost predicate Sized(f: Field)
  {
    f.Bytes? ==> |f.b| < TWO63
  }

  ghost predicate AllSized(fs: seq<Field>)
  {
    forall i :: 0 <= i < |fs| ==> Sized(fs[i])
  }

  lemma {:induction false} ReadsU64(v: u64, rest: seq<byte>)
    ensures ReadU64(U64Bytes(v) + rest) == Got(v, rest)
  {
    var d := U64Bytes(v) + rest;
    assert d[..8] == U64Bytes(v) && d[8..] == rest;
    U64RoundTrip(v);
  }

  lemma {:induction false} ReadsBytes(b: seq<byte>, rest: seq<byte>)
    requires |b| < TWO63
    ensures ReadBytes(PutBytes(b) + rest) == Got(b, rest)
  {
    assert PutBytes(b) + rest == U64Bytes(|b|) + (b + rest);
    ReadsU64(|b|, b + rest);
    assert (b + rest)[..|b|] == b && (b + rest)[|b|..] == rest;
    if b == [] { assert b + rest == rest; }
  }

  lemma {:induction false} ReadsField(f: Field, rest: seq<byte>)
    requires Sized(f)
    ensures ReadField(ShapeOf(f), Put(f) + rest) == Got(f, rest)
  {
    match f
    case Num(v) => ReadsU64(v, rest);
    case Bytes(b) => ReadsBytes(b, rest);
    case Single(x) =>
    case Raw(r) => assert (r + rest)[..|r|] == r && (r + rest)[|r|..] == rest;
  }

  /** Fields written one after the other are read back, whatever follows. */
  lemma {:induction false} ReadsAll(fs: seq<Field>, rest: seq<byte>)
    requires AllSized(fs)
    ensures ReadAll(Shapes(fs), PutAll(fs) + rest) == Got(fs, rest)
  {
    if fs == [] {
      assert [] + rest == rest;
    } else {
      assert PutAll(fs) + rest == Put(fs[0]) + (PutAll(fs[1..]) + rest);
      assert Sized(fs[0]);
      ReadsField(fs[0], PutAll(fs[1..]) + rest);
      ReadsAll(fs[1..], rest);
      assert Shapes(fs)[1..] == Shapes(fs[1..]) && [fs[0]] + fs[1..] == fs;
    }
  }

  /** An encoding determines its fields, given their shapes. */
  lemma {:induction false} PutAllIsInjective(fs: seq<Field>, gs: seq<Field>)
    requires AllSized(fs) && AllSized(gs) && Shapes(fs) == Shapes(gs) && PutAll(fs) == PutAll(gs)
    ensures fs == gs
  {
    ReadsAll(fs, []);
    ReadsAll(gs, []);
  }

  /* ----- Transactions ----- */

  /** What the sender signs. */
  function SignedFields(t: Tx): (fs: seq<Field>)
  {
    [Bytes(t.from), Bytes(t.to), Num(t.amount), Num(t.fee), Num(t.nonce), Num(t.chainId), Single(t.kind), Num(t.gas),
     Bytes(t.data), Bytes(t.pubKey)]
  }

  function TxFields(t: Tx): (fs: seq<Field>)
  {
    SignedFields(t) + [Bytes(t.sig)]
  }

  const TX_SHAPE: seq<Shape> :=
    [BytesShape, BytesShape, NumShape, NumShape, NumShape, NumShape, SingleShape, NumShape, BytesShape, BytesShape,
     BytesShape]

  function SigningBytes(t: Tx): (r: seq<byte>)
  {
    PutAll(SignedFields(t))
  }

  /** The signed bytes and the signature. */
  function TxBytes(t: Tx): (r: seq<byte>)
  {
    SigningBytes(t) + PutBytes(t.sig)
  }

  lemma Regroup(a: seq<byte>, b: seq<byte>, c: seq<byte>)
    ensures (a + b) + c == a + (b + c)
  {
  }

  lemma {:induction false} PutAllInTurn(fs: seq<Field>, f: Field)
    ensures PutAll(fs + [f]) == PutAll(fs) + Put(f)
  {
    if fs == [] {
      assert [f][1..] == [] && Put(f) + [] == Put(f);
    } else {
      PutAllInTurn(fs[1..], f);
      assert (fs + [f])[1..] == fs[1..] + [f];
      Regroup(Put(fs[0]), PutAll(fs[1..]), Put(f));
    }
  }

  function TxOf(fs: seq<Field>): (t: Option<Tx>)
  {
    if |fs| == 11 && fs[0].Bytes? && fs[1].Bytes? && fs[2].Num? && fs[3].Num? && fs[4].Num? && fs[5].Num?
    && fs[6].Single?
       && fs[7].Num? && fs[8].Bytes? && fs[9].Bytes? && fs[10].Bytes?
    then Some(Tx(fs[0].b, fs[1].b, fs[2].v, fs[3].v, fs[4].v, fs[5].v, fs[6].x, fs[7].v, fs[8].b, fs[9].b, fs[10].b))
    else None
  }

  function DecodeTx(d: seq<byte>): (t: Option<Tx>)
  {
    match ReadAll(TX_SHAPE, d)
    case Fail => None
    case Got(fs, _) => TxOf(fs)
  }

  ghost predicate TxSized(t: Tx)
  {
    |t.from| < TWO63 && |t.to| < TWO63 && |t.data| < TWO63 && |t.pubKey| < TWO63 && |t.sig| < TWO63
    && |TxBytes(t)| < TWO63
  }

  lemma {:induction false} TxShape(t: Tx)
    ensures Shapes(TxFields(t)) == TX_SHAPE
  {
    var fs := TxFields(t);
    ShapesAt(fs);
    assert |Shapes(fs)| == 11;
  }

  lemma {:induction false} ShapesAt(fs: seq<Field>)
    ensures forall i :: 0 <= i < |fs| ==> Shapes(fs)[i] == ShapeOf(fs[i])
  {
    if fs != [] {
      ShapesAt(fs[1..]);
    }
  }

  /** A transaction is read back from its encoding, whatever follows it. */
  lemma {:induction false} TxRoundTrip(t: Tx, rest: seq<byte>)
    requires TxSized(t)
    ensures DecodeTx(TxBytes(t) + rest) == Some(t)
  {
    TxShape(t);
    PutAllInTurn(SignedFields(t), Bytes(t.sig));
    ReadsAll(TxFields(t), rest);
    TxFromFields(t, TxBytes(t) + rest, rest);
  }

  lemma {:induction false} TxFromFields(t: Tx, d: seq<byte>, rest: seq<byte>)
    requires ReadAll(TX_SHAPE, d) == Got(TxFields(t), rest)
    ensures DecodeTx(d) == Some(t)
  {
  }

  lemma {:induction false} TxBytesIsInjective(t: Tx, t': Tx)
    requires TxSized(t) && TxSized(t') && TxBytes(t) == TxBytes(t')
    ensures t == t'
  {
    TxRoundTrip(t, []);
    TxRoundTrip(t', []);
    assert TxBytes(t) + [] == TxBytes(t) && TxBytes(t') + [] == TxBytes(t');
  }

  lemma {:induction false} SignedShape(t: Tx)
    ensures Shapes(SignedFields(t)) == TX_SHAPE[..10]
  {
    ShapesAt(SignedFields(t));
    assert |Shapes(SignedFields(t))| == 10;
  }

  lemma {:induction false} SignedIsSized(t: Tx)
    requires TxSized(t)
    ensures AllSized(SignedFields(t))
  {
  }

  lemma SignedFieldsDecide(t: Tx, t': Tx, fs: seq<Field>, gs: seq<Field>)
    requires fs == gs && fs == SignedFields(t) && gs == SignedFields(t')
    ensures t' == t.(sig := t'.sig)
  {
    assert fs[0] == gs[0] && fs[1] == gs[1] && fs[2] == gs[2] && fs[3] == gs[3] && fs[4] == gs[4];
    assert fs[5] == gs[5] && fs[6] == gs[6] && fs[7] == gs[7] && fs[8] == gs[8] && fs[9] == gs[9];
  }

  /** What is signed determines everything but the signature. */
  lemma {:induction false} SigningBytesIsInjective(t: Tx, t': Tx)
    requires TxSized(t) && TxSized(t') && SigningBytes(t) == SigningBytes(t')
    ensures t' == t.(sig := t'.sig)
  {
    SignedShape(t);
    SignedShape(t');
    SignedIsSized(t);
    SignedIsSized(t');
    PutAllIsInjective(SignedFields(t), SignedFields(t'));
    SignedFieldsDecide(t, t', SignedFields(t), SignedFields(t'));
  }
}
