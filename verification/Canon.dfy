/** Which data decode canonically: those their own decoding encodes to. */
module Canon {
  import opened Words
  import opened Txs
  import opened Codec
  import opened Wire

  /* ----- Exact data ----- */

  /** Reading a field finds all its bytes, none of them padding. */
  predicate FieldIsThere(s: Shape, d: seq<byte>)
  {
    match s
    case NumShape => |d| >= 8
    case BytesShape => |d| >= 8 && |d| - 8 >= BytesU64(d[..8])
    case SingleShape => d != []
    case RawShape(n) => |d| >= n
  }

  /** The fields are all there, and nothing follows them. */
  predicate Exact(ss: seq<Shape>, d: seq<byte>)
    decreases ss
  {
    if ss == [] then d == []
    else FieldIsThere(ss[0], d) && ReadField(ss[0], d).Got? && Exact(ss[1..], ReadField(ss[0], d).rest)
  }

  /** `n` length-prefixed records and what follows them. */
  function Split(d: seq<byte>, n: nat): (g: Got<seq<seq<byte>>>)
    decreases n
  {
    if n == 0 then Got([], d)
    else if |d| < 8 then Fail
    else
      var l, rest := BytesU64(d[..8]), d[8..];
      if |rest| < l then Fail
      else
        match Split(rest[l..], n - 1)
        case Fail => Fail
        case Got(recs, rest') => Got([rest[..l]] + recs, rest')
  }

  predicate AllExact(recs: seq<seq<byte>>)
  {
    forall i :: 0 <= i < |recs| ==> Exact(TX_SHAPE, recs[i])
  }

  /** As many records as the count says, each exactly a transaction, and nothing after them. */
  predicate ExactBody(d: seq<byte>)
  {
    |d| >= 4 && var g := Split(d[4..], BytesU32(d[..4]));
                g.Got? && g.rest == [] && AllExact(g.value)
  }

  /* ----- A field, a transaction ----- */

  lemma {:induction false} NumWritesBack(d: seq<byte>, v: u64, rest: seq<byte>)
    requires |d| >= 8 && ReadU64(d) == Got(v, rest)
    ensures d == U64Bytes(v) + rest && v == BytesU64(d[..8]) && rest == d[8..]
  {
    BytesRoundTrip(d[..8]);
  }

  lemma {:induction false} FieldWritesBack(s: Shape, d: seq<byte>)
    requires FieldIsThere(s, d) && ReadField(s, d).Got?
    ensures d == Put(ReadField(s, d).value) + ReadField(s, d).rest
  {
    match s
    case NumShape => NumWritesBack(d, ReadU64(d).value, ReadU64(d).rest);
    case BytesShape =>
      var n, rest := ReadU64(d).value, ReadU64(d).rest;
      NumWritesBack(d, n, rest);
      Regroup(U64Bytes(n), rest[..n], rest[n..]);
      assert rest == rest[..n] + rest[n..];
    case SingleShape =>
    case RawShape(n) =>
  }

  lemma {:induction false} FieldsWriteBack(ss: seq<Shape>, d: seq<byte>)
    requires Exact(ss, d) && ReadAll(ss, d).Got?
    ensures d == PutAll(ReadAll(ss, d).value)
    decreases ss
  {
    if ss != [] {
      FieldWritesBack(ss[0], d);
      var g := ReadField(ss[0], d);
      FieldsWriteBack(ss[1..], g.rest);
      var fs := ReadAll(ss[1..], g.rest).value;
      assert ([g.value] + fs)[1..] == fs;
    }
  }

  lemma {:induction false} FieldsOf(fs: seq<Field>, t: Tx)
    requires TxOf(fs) == Some(t)
    ensures fs == TxFields(t)
  {
  }

  lemma {:induction false} TxWritesBack(d: seq<byte>)
    requires Exact(TX_SHAPE, d) && DecodeTx(d).Some?
    ensures d == TxBytes(DecodeTx(d).value)
  {
    FieldsWriteBack(TX_SHAPE, d);
    var fs, t := ReadAll(TX_SHAPE, d).value, DecodeTx(d).value;
    FieldsOf(fs, t);
    PutAllInTurn(SignedFields(t), Bytes(t.sig));
  }

  lemma {:induction false} EncodedFieldIsThere(f: Field, rest: seq<byte>)
    requires Sized(f)
    ensures FieldIsThere(ShapeOf(f), Put(f) + rest)
  {
    match f
    case Num(v) =>
    case Bytes(b) =>
      var d := PutBytes(b) + rest;
      assert d[..8] == U64Bytes(|b|);
      U64RoundTrip(|b|);
    case Single(x) =>
    case Raw(r) =>
  }

  lemma {:induction false} EncodedIsExact(fs: seq<Field>)
    requires AllSized(fs)
    ensures Exact(Shapes(fs), PutAll(fs))
  {
    if fs != [] {
      assert Sized(fs[0]);
      EncodedFieldIsThere(fs[0], PutAll(fs[1..]));
      ReadsField(fs[0], PutAll(fs[1..]));
      EncodedIsExact(fs[1..]);
      assert Shapes(fs)[1..] == Shapes(fs[1..]);
    }
  }

  lemma {:induction false} SizedFields(t: Tx)
    requires TxSized(t)
    ensures AllSized(TxFields(t))
  {
  }

  lemma {:induction false} TxIsExact(t: Tx)
    requires TxSized(t)
    ensures Exact(TX_SHAPE, TxBytes(t))
  {
    TxShape(t);
    PutAllInTurn(SignedFields(t), Bytes(t.sig));
    SizedFields(t);
    EncodedIsExact(TxFields(t));
  }

  lemma {:induction false} FieldFits(fs: seq<Field>, i: nat)
    requires i < |fs|
    ensures |Put(fs[i])| <= |PutAll(fs)|
  {
    if i > 0 { FieldFits(fs[1..], i - 1); }
  }

  lemma {:induction false} TxFits(t: Tx)
    requires |TxBytes(t)| < TWO63
    ensures TxSized(t)
  {
    var fs := SignedFields(t);
    FieldFits(fs, 0);
    FieldFits(fs, 1);
    FieldFits(fs, 8);
    FieldFits(fs, 9);
  }

  /** A short record that decodes is the encoding of its transaction just when it is exact. */
  lemma {:induction false} RecordIsExact(rec: seq<byte>, t: Tx)
    requires |rec| < TWO63 && DecodeTx(rec) == Some(t)
    ensures rec == TxBytes(t) <==> Exact(TX_SHAPE, rec)
  {
    if Exact(TX_SHAPE, rec) { TxWritesBack(rec); }
    if rec == TxBytes(t) {
      TxFits(t);
      TxIsExact(t);
    }
  }

  /* ----- Records ----- */

  function Join(recs: seq<seq<byte>>): (d: seq<byte>)
  {
    if recs == [] then [] else PutBytes(recs[0]) + Join(recs[1..])
  }

  lemma {:induction false} SplitOne(d: seq<byte>, head: seq<byte>, rec: seq<byte>, recs: seq<seq<byte>>,
      rest: seq<byte>)
    requires d == head + rec + (Join(recs) + rest) && |head| == 8 && BytesU64(head) == |rec|
    ensures d == Join([rec] + recs) + rest
  {
    BytesRoundTrip(head);
    assert ([rec] + recs)[1..] == recs;
  }

  lemma Pieces(d: seq<byte>, l: nat)
    requires 8 + l <= |d|
    ensures d == d[..8] + d[8..][..l] + d[8..][l..]
  {
  }

  /** Records split off are the data, lengths and all. */
  lemma {:induction false} SplitJoins(d: seq<byte>, n: nat)
    requires Split(d, n).Got?
    ensures |Split(d, n).value| == n && d == Join(Split(d, n).value) + Split(d, n).rest
    decreases n
  {
    if n > 0 {
      var l, rest := BytesU64(d[..8]), d[8..];
      SplitJoins(rest[l..], n - 1);
      var g := Split(rest[l..], n - 1);
      Pieces(d, l);
      SplitOne(d, d[..8], rest[..l], g.value, g.rest);
    }
  }

  ghost predicate Decode(recs: seq<seq<byte>>, txs: seq<Tx>)
  {
    |recs| == |txs| && forall i :: 0 <= i < |recs| ==> DecodeTx(recs[i]) == Some(txs[i])
  }

  lemma {:induction false} DecodeOne(rec: seq<byte>, recs: seq<seq<byte>>, t: Tx, txs: seq<Tx>)
    requires DecodeTx(rec) == Some(t) && Decode(recs, txs)
    ensures Decode([rec] + recs, [t] + txs)
  {
  }

  lemma {:induction false} TakenDecode(d: seq<byte>, n: nat)
    requires TakeTxs(d, n).Some?
    ensures Split(d, n).Got? && Decode(Split(d, n).value, TakeTxs(d, n).value)
    decreases n
  {
    if n > 0 {
      var l, rest := BytesU64(d[..8]), d[8..];
      TakenDecode(rest[l..], n - 1);
      DecodeOne(rest[..l], Split(rest[l..], n - 1).value, DecodeTx(rest[..l]).value, TakeTxs(rest[l..], n - 1).value);
    }
  }

  ghost predicate Encode(recs: seq<seq<byte>>, txs: seq<Tx>)
  {
    |recs| == |txs| && forall i :: 0 <= i < |recs| ==> recs[i] == TxBytes(txs[i])
  }

  lemma {:induction false} EncodedJoins(recs: seq<seq<byte>>, txs: seq<Tx>)
    requires Encode(recs, txs)
    ensures Join(recs) == PutTxs(txs)
  {
    if recs != [] { EncodedJoins(recs[1..], txs[1..]); }
  }

  function Encoded(txs: seq<Tx>): (recs: seq<seq<byte>>)
    ensures Encode(recs, txs)
  {
    seq(|txs|, i requires 0 <= i < |txs| => TxBytes(txs[i]))
  }

  lemma {:induction false} JoinSteps(recs: seq<seq<byte>>, rest: seq<byte>)
    requires recs != []
    ensures Join(recs) + rest == PutBytes(recs[0]) + (Join(recs[1..]) + rest)
  {
    Regroup(PutBytes(recs[0]), Join(recs[1..]), rest);
  }

  /** Joined records determine each of them and what follows. */
  lemma {:induction false} JoinIsInjective(xs: seq<seq<byte>>, rest: seq<byte>, ys: seq<seq<byte>>, rest': seq<byte>)
    requires |xs| == |ys| && Join(xs) + rest == Join(ys) + rest' && |Join(xs) + rest| < TWO63
    ensures xs == ys && rest == rest'
  {
    if xs != [] {
      JoinSteps(xs, rest);
      JoinSteps(ys, rest');
      ReadsBytes(xs[0], Join(xs[1..]) + rest);
      ReadsBytes(ys[0], Join(ys[1..]) + rest');
      JoinIsInjective(xs[1..], rest, ys[1..], rest');
      assert xs == [xs[0]] + xs[1..] && ys == [ys[0]] + ys[1..];
    } else {
      assert Join(xs) + rest == rest && Join(ys) + rest' == rest';
    }
  }

  lemma {:induction false} JoinFits(recs: seq<seq<byte>>, i: nat)
    requires i < |recs|
    ensures |recs[i]| <= |Join(recs)|
  {
    if i > 0 { JoinFits(recs[1..], i - 1); }
  }

  /* ----- The theorem ----- */

  lemma {:induction false} ExactIsEncoded(recs: seq<seq<byte>>, txs: seq<Tx>)
    requires Decode(recs, txs) && |Join(recs)| < TWO63
    ensures AllExact(recs) <==> Encode(recs, txs)
  {
    forall i | 0 <= i < |recs| ensures recs[i] == TxBytes(txs[i]) <==> Exact(TX_SHAPE, recs[i]) {
      JoinFits(recs, i);
      RecordIsExact(recs[i], txs[i]);
    }
  }

  lemma {:induction false} RecordsAreExact(d: seq<byte>, recs: seq<seq<byte>>, rest: seq<byte>, txs: seq<Tx>)
    requires |d| < TWO63 && d == Join(recs) + rest && Decode(recs, txs)
    ensures d == PutTxs(txs) <==> rest == [] && AllExact(recs)
  {
    ExactIsEncoded(recs, txs);
    if rest == [] && AllExact(recs) {
      EncodedJoins(recs, txs);
      assert Join(recs) + [] == Join(recs);
    }
    if d == PutTxs(txs) {
      EncodedJoins(Encoded(txs), txs);
      assert PutTxs(txs) + [] == PutTxs(txs);
      JoinIsInjective(recs, rest, Encoded(txs), []);
    }
  }

  lemma {:induction false} CountRoundTrip(d: seq<byte>)
    requires |d| == 4
    ensures BytesU32(d) < TWO32 && U32Bytes(BytesU32(d)) == d
  {
    FromBigEndianRoundTrip(d);
    Pow256Of4();
  }

  /** The count in front is that of the records. */
  lemma {:induction false} CountIsExact(head: seq<byte>, e: seq<byte>, txs: seq<Tx>)
    requires |head| == 4 && BytesU32(head) == |txs|
    ensures head + e == BodyBytes(txs) <==> e == PutTxs(txs)
  {
    CountRoundTrip(head);
    assert (head + e)[4..] == e && BodyBytes(txs)[4..] == PutTxs(txs);
  }

  /**
   Canonical bodies. Data that decode to a body are its encoding just when every record holds its
   transaction exactly, with no short read padded and no byte left over, and nothing follows the last.
   */
  lemma {:induction false} CanonicalIsExact(d: seq<byte>)
    requires |d| < TWO63 && BodyTxs(d).Some?
    ensures d == BodyBytes(BodyTxs(d).value) <==> ExactBody(d)
  {
    var e, n, txs := d[4..], BytesU32(d[..4]), BodyTxs(d).value;
    TakenDecode(e, n);
    SplitJoins(e, n);
    var g := Split(e, n);
    RecordsAreExact(e, g.value, g.rest, txs);
    CountIsExact(d[..4], e, txs);
    assert d[..4] + e == d;
  }
}
