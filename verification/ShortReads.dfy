/** What the decoder makes of a transaction that is cut off inside its signature. */
module ShortReads {
  import opened Words
  import opened Txs
  import opened Codec

  /** One more field after those that have been read. */
  function AndThen(fs: seq<Field>, g: Got<Field>): (r: Got<seq<Field>>)
  {
    match g
    case Fail => Fail
    case Got(f, rest) => Got(fs + [f], rest)
  }

  lemma {:induction false} ReadInTurn(ss: seq<Shape>, s: Shape, d: seq<byte>, fs: seq<Field>, tail: seq<byte>)
    requires ReadAll(ss, d) == Got(fs, tail)
    ensures ReadAll(ss + [s], d) == AndThen(fs, ReadField(s, tail))
    decreases ss
  {
    var h := ReadField(s, tail);
    if ss == [] {
      assert [] + [s] == [s] && [s][1..] == [];
      if h.Got? { assert [h.value] + [] == [] + [h.value]; }
    } else {
      match ReadField(ss[0], d)
      case Got(g, d') =>
        assert ReadAll(ss[1..], d') == Got(fs[1..], tail);
        assert (ss + [s])[1..] == ss[1..] + [s] && fs == [g] + fs[1..];
        ReadInTurn(ss[1..], s, d', fs[1..], tail);
        if h.Got? { assert [g] + (fs[1..] + [h.value]) == fs + [h.value]; }
    }
  }

  /** A string whose data end early is filled up with zeros, if there is any of it; else it is not read. */
  lemma {:induction false} CutBytes(b: seq<byte>, n: nat)
    requires n < |b| < TWO63
    ensures ReadField(BytesShape, PutBytes(b)[..8 + n]) ==
            if n == 0 then Fail else Got(Bytes(b[..n] + Zeros(|b| - n)), [])
  {
    var d := PutBytes(b)[..8 + n];
    assert d == U64Bytes(|b|) + b[..n];
    ReadsU64(|b|, b[..n]);
  }

  /** The transaction with a signature of which only `n` bytes are left. */
  function Blurred(t: Tx, n: nat): (t': Tx)
    requires n <= |t.sig|
  {
    t.(sig := t.sig[..n] + Zeros(|t.sig| - n))
  }

  lemma {:induction false} HeadReads(t: Tx, fs: seq<Field>, head: seq<Shape>, tail: seq<byte>)
    requires TxSized(t) && fs == SignedFields(t) && head == TX_SHAPE[..10]
    ensures ReadAll(head, SigningBytes(t) + tail) == Got(fs, tail)
  {
    SignedShape(t);
    SignedIsSized(t);
    ReadsAll(fs, tail);
  }

  /** What is read of the cut encoding: all fields before the signature, and what is left of it. */
  lemma {:induction false} CutReads(b: seq<byte>, n: nat, d: seq<byte>, fs: seq<Field>, head: seq<Shape>)
    requires n < |b| < TWO63 && ReadAll(head, d) == Got(fs, PutBytes(b)[..8 + n])
    ensures ReadAll(head + [BytesShape], d) == if n == 0 then Fail else Got(fs + [Bytes(b[..n] + Zeros(|b| - n))], [])
  {
    CutBytes(b, n);
    ReadInTurn(head, BytesShape, d, fs, PutBytes(b)[..8 + n]);
  }

  lemma CutIs(t: Tx, n: nat)
    requires n < |t.sig|
    ensures TxBytes(t)[..|TxBytes(t)| - (|t.sig| - n)] == SigningBytes(t) + PutBytes(t.sig)[..8 + n]
  {
  }

  lemma FieldsMake(t: Tx, sig: seq<byte>, fs: seq<Field>)
    requires fs == SignedFields(t)
    ensures TxOf(fs + [Bytes(sig)]) == Some(t.(sig := sig))
  {
  }

  lemma {:induction false} DecodesTo(d: seq<byte>, shape: seq<Shape>, g: Got<seq<Field>>)
    requires shape == TX_SHAPE && ReadAll(shape, d) == g
    ensures DecodeTx(d) == if g.Fail? then None else TxOf(g.value)
  {
  }

  /**
   A transaction cut off inside its signature is decoded all the same, with zeros for what is missing. It is refused
   when nothing is left of the signature.
   */
  lemma {:induction false} CutTxDecodes(t: Tx, n: nat)
    requires TxSized(t) && n < |t.sig|
    ensures DecodeTx(TxBytes(t)[..|TxBytes(t)| - (|t.sig| - n)]) == if n == 0 then None else Some(Blurred(t, n))
  {
    var tail := PutBytes(t.sig)[..8 + n];
    var d := SigningBytes(t) + tail;
    CutIs(t, n);
    HeadReads(t, SignedFields(t), TX_SHAPE[..10], tail);
    CutReads(t.sig, n, d, SignedFields(t), TX_SHAPE[..10]);
    assert TX_SHAPE[..10] + [BytesShape] == TX_SHAPE;
    FieldsMake(t, Blurred(t, n).sig, SignedFields(t));
    DecodesTo(d, TX_SHAPE, if n == 0 then Fail else Got(SignedFields(t) + [Bytes(Blurred(t, n).sig)], []));
  }
}
