/** Where the fields of headers, transactions and logs stand in their encodings, byte by byte. */
module Layouts {
  import opened Words
  import opened Txs
  import opened Codec
  import opened Wire
  import opened Division

  /* ----- Digits ----- */

  /** Most significant byte first: the byte at place `i` of `n` is that digit to the base 256. */
  lemma {:induction false} DigitAt(v: nat, n: nat, i: nat)
    requires i < n
    ensures BigEndian(v, n)[i] == (v / Pow256(n - 1 - i)) % 256
  {
    if i < n - 1 {
      DigitAt(v / 256, n - 1, i);
      DividesInTurn(v, 256, Pow256(n - 2 - i));
    }
  }

  /* ----- Fields ----- */

  /** Digit `i` of eight to the base 256, the most significant first. */
  function Digit(v: nat, i: nat): (x: int)
    requires i < 8
  {
    (v / Pow256(7 - i)) % 256
  }

  /** The eight digits of `v` stand at `p`. */
  ghost predicate NumAt(d: seq<byte>, p: nat, v: nat)
  {
    p + 8 <= |d| && forall i :: 0 <= i < 8 ==> d[p + i] == Digit(v, i)
  }

  /** These bytes stand at `p`. */
  ghost predicate PartAt(d: seq<byte>, p: nat, b: seq<byte>)
  {
    p + |b| <= |d| && d[p..p + |b|] == b
  }

  /** A length and that many bytes stand at `p`. */
  ghost predicate BytesAt(d: seq<byte>, p: nat, b: seq<byte>)
  {
    NumAt(d, p, |b|) && PartAt(d, p + 8, b)
  }

  ghost predicate ByteAt(d: seq<byte>, p: nat, x: byte)
  {
    p < |d| && d[p] == x
  }

  function Width(f: Field): (n: nat)
  {
    match f
    case Num(_) => 8
    case Bytes(b) => 8 + |b|
    case Single(_) => 1
    case Raw(r) => |r|
  }

  ghost predicate FieldAt(d: seq<byte>, p: nat, f: Field)
  {
    match f
    case Num(v) => NumAt(d, p, v)
    case Bytes(b) => BytesAt(d, p, b)
    case Single(x) => ByteAt(d, p, x)
    case Raw(r) => PartAt(d, p, r)
  }

  lemma NumStands(d: seq<byte>, p: nat, v: u64)
    requires p + 8 <= |d| && d[p..p + 8] == U64Bytes(v)
    ensures NumAt(d, p, v)
  {
    forall i | 0 <= i < 8 ensures d[p + i] == Digit(v, i) {
      DigitAt(v, 8, i);
      assert d[p..p + 8][i] == d[p + i];
    }
  }

  lemma FieldStands(d: seq<byte>, p: nat, f: Field)
    requires Sized(f) && p + |Put(f)| <= |d| && d[p..p + |Put(f)|] == Put(f)
    ensures FieldAt(d, p, f) && |Put(f)| == Width(f)
  {
    match f
    case Num(v) => NumStands(d, p, v);
    case Bytes(b) =>
      assert d[p..p + |Put(f)|][..8] == U64Bytes(|b|) && d[p..p + |Put(f)|][8..] == b;
      NumStands(d, p, |b|);
    case Single(x) => assert d[p] == d[p..p + 1][0];
    case Raw(r) =>
  }

  function Offset(fs: seq<Field>, i: nat): (p: nat)
    requires i <= |fs|
  {
    if i == 0 then 0 else Offset(fs, i - 1) + Width(fs[i - 1])
  }

  lemma {:induction false} PutWidth(f: Field)
    ensures |Put(f)| == Width(f)
  {
  }

  /** The first `i` fields and the rest. */
  lemma {:induction false} PutInParts(fs: seq<Field>, i: nat)
    requires i <= |fs|
    ensures PutAll(fs) == PutAll(fs[..i]) + PutAll(fs[i..]) && |PutAll(fs[..i])| == Offset(fs, i)
  {
    if i == 0 {
      assert fs[..0] == [] && fs[0..] == fs;
    } else {
      PutInParts(fs, i - 1);
      assert fs[..i] == fs[..i - 1] + [fs[i - 1]];
      PutAllInTurn(fs[..i - 1], fs[i - 1]);
      assert fs[i - 1..][1..] == fs[i..];
      Regroup(PutAll(fs[..i - 1]), Put(fs[i - 1]), PutAll(fs[i..]));
      PutWidth(fs[i - 1]);
    }
  }

  /** Every field stands after those before it. */
  lemma {:induction false} FieldsStand(fs: seq<Field>, i: nat)
    requires AllSized(fs) && i < |fs|
    ensures FieldAt(PutAll(fs), Offset(fs, i), fs[i]) && Offset(fs, i + 1) == Offset(fs, i) + Width(fs[i])
  {
    PutInParts(fs, i);
    PutInParts(fs, i + 1);
    assert fs[i..][1..] == fs[i + 1..];
    var d, p := PutAll(fs), Offset(fs, i);
    assert d[p..] == PutAll(fs[i..]);
    assert PutAll(fs[i..]) == Put(fs[i]) + PutAll(fs[i + 1..]);
    assert d[p..p + |Put(fs[i])|] == d[p..][..|Put(fs[i])|];
    PutWidth(fs[i]);
    FieldStands(d, p, fs[i]);
  }

  lemma {:induction false} EndsAt(fs: seq<Field>)
    ensures |PutAll(fs)| == Offset(fs, |fs|)
  {
    PutInParts(fs, |fs|);
    assert fs[..|fs|] == fs && fs[|fs|..] == [];
  }

  /** A field whose place is known; the next field's place is then known too. */
  lemma {:induction false} Next(fs: seq<Field>, i: nat, f: Field, p: nat) returns (p': nat)
    requires AllSized(fs) && i < |fs| && fs[i] == f && Offset(fs, i) == p
    ensures FieldAt(PutAll(fs), p, f) && p' == p + Width(f) && Offset(fs, i + 1) == p'
  {
    FieldsStand(fs, i);
    p' := p + Width(f);
  }

  lemma {:induction false} NextBytes(fs: seq<Field>, i: nat, b: seq<byte>, d: seq<byte>, p: nat) returns (p': nat)
    requires AllSized(fs) && i < |fs| && fs[i] == Bytes(b) && Offset(fs, i) == p && d == PutAll(fs)
    ensures BytesAt(d, p, b) == true && p' == p + 8 + |b| && Offset(fs, i + 1) == p'
  {
    p' := Next(fs, i, Bytes(b), p);
  }

  /* ----- Headers ----- */

  /** What a validator signs: the numbers as eight digits each, the hashes as they are, the validator's address after
      its length, the two shard counts as one byte each. */
  ghost predicate HeaderAt(d: seq<byte>, h: Header)
  {
    var n := |h.validator|;
    && NumAt(d, 0, h.height) && PartAt(d, 8, h.prevHash) && PartAt(d, 40, h.merkleRoot)
    && NumAt(d, 72, h.timestamp % 0x1_0000_0000_0000_0000) && BytesAt(d, 80, h.validator)
    && NumAt(d, 88 + n, h.txCount) && NumAt(d, 96 + n, h.round) && ByteAt(d, 104 + n, h.k) && ByteAt(d, 105 + n, h.m)
    && PartAt(d, 106 + n, h.bodyHash) && PartAt(d, 138 + n, h.logsRoot) && |d| == 170 + n
  }

  lemma {:induction false} HeaderStands(h: Header)
    requires HeaderSized(h)
    ensures HeaderAt(HeaderBytes(h), h)
  {
    HeaderShape(h);
    var fs := HeaderFields(h);
    EndsAt(fs);
    FirstHalf(h, fs);
    SecondHalf(h, fs);
  }

  lemma {:induction false} FirstHalf(h: Header, fs: seq<Field>)
    requires HeaderSized(h) && AllSized(fs) && fs == HeaderFields(h)
    ensures var d := PutAll(fs);
            && NumAt(d, 0, h.height) && PartAt(d, 8, h.prevHash) && PartAt(d, 40, h.merkleRoot)
            && NumAt(d, 72, h.timestamp % 0x1_0000_0000_0000_0000) && BytesAt(d, 80, h.validator)
            && Offset(fs, 5) == 88 + |h.validator|
  {
    var p1 := Next(fs, 0, Num(h.height), 0);
    var p2 := Next(fs, 1, Raw(h.prevHash), p1);
    var p3 := Next(fs, 2, Raw(h.merkleRoot), p2);
    var p4 := Next(fs, 3, Num(Wrap(h.timestamp)), p3);
    var p5 := Next(fs, 4, Bytes(h.validator), p4);
  }

  lemma {:induction false} SecondHalf(h: Header, fs: seq<Field>)
    requires HeaderSized(h) && AllSized(fs) && fs == HeaderFields(h) && Offset(fs, 5) == 88 + |h.validator|
    ensures var d, n := PutAll(fs), |h.validator|;
            && NumAt(d, 88 + n, h.txCount) && NumAt(d, 96 + n, h.round)
            && ByteAt(d, 104 + n, h.k) && ByteAt(d, 105 + n, h.m)
            && PartAt(d, 106 + n, h.bodyHash) && PartAt(d, 138 + n, h.logsRoot) && Offset(fs, 11) == 170 + n
  {
    var p6 := Next(fs, 5, Num(h.txCount), 88 + |h.validator|);
    var p7 := Next(fs, 6, Num(h.round), p6);
    var p8 := Next(fs, 7, Single(h.k), p7);
    var p9 := Next(fs, 8, Single(h.m), p8);
    var p10 := Next(fs, 9, Raw(h.bodyHash), p9);
    var p11 := Next(fs, 10, Raw(h.logsRoot), p10);
  }

  /* ----- Transactions ----- */

  /** What a sender signs, and then the signature. */
  ghost predicate TxAt(d: seq<byte>, t: Tx)
  {
    var p := 16 + |t.from| + |t.to|;
    var q := p + 41;
    && AddressesAt(d, t) && NumbersAt(d, p, t) && DataAt(d, q, t)
    && |d| == q + 24 + |t.data| + |t.pubKey| + |t.sig|
  }

  ghost predicate AddressesAt(d: seq<byte>, t: Tx)
  {
    BytesAt(d, 0, t.from) && BytesAt(d, 8 + |t.from|, t.to)
  }

  ghost predicate NumbersAt(d: seq<byte>, p: nat, t: Tx)
  {
    && NumAt(d, p, t.amount) && NumAt(d, p + 8, t.fee) && NumAt(d, p + 16, t.nonce) && NumAt(d, p + 24, t.chainId)
    && ByteAt(d, p + 32, t.kind) && NumAt(d, p + 33, t.gas)
  }

  ghost predicate DataAt(d: seq<byte>, p: nat, t: Tx)
  {
    && BytesAt(d, p, t.data) && BytesAt(d, p + 8 + |t.data|, t.pubKey)
    && BytesAt(d, p + 16 + |t.data| + |t.pubKey|, t.sig)
  }

  lemma {:induction false} TxStands(t: Tx)
    requires TxSized(t)
    ensures TxAt(TxBytes(t), t)
  {
    PutAllInTurn(SignedFields(t), Bytes(t.sig));
    SignedIsSized(t);
    TxFieldsStand(t, TxFields(t), PutAll(TxFields(t)));
  }

  lemma {:induction false} TxFieldsStand(t: Tx, fs: seq<Field>, d: seq<byte>)
    requires AllSized(fs) && fs == TxFields(t) && d == PutAll(fs)
    ensures TxAt(d, t) == true
  {
    var p := SenderStands(t, fs, d);
    NumbersStand(t, fs, d, p);
    DataStand(t, fs, d, p + 41);
  }

  lemma {:induction false} SenderStands(t: Tx, fs: seq<Field>, d: seq<byte>) returns (p: nat)
    requires AllSized(fs) && fs == TxFields(t) && d == PutAll(fs)
    ensures AddressesAt(d, t) == true
    ensures p == 16 + |t.from| + |t.to| && Offset(fs, 2) == p
  {
    var p1 := NextBytes(fs, 0, t.from, d, 0);
    p := NextBytes(fs, 1, t.to, d, p1);
  }

  lemma {:induction false} NumbersStand(t: Tx, fs: seq<Field>, d: seq<byte>, p: nat)
    requires AllSized(fs) && fs == TxFields(t) && d == PutAll(fs) && Offset(fs, 2) == p
    ensures NumbersAt(d, p, t) == true && Offset(fs, 8) == p + 41
  {
    var p3 := Next(fs, 2, Num(t.amount), p);
    var p4 := Next(fs, 3, Num(t.fee), p3);
    var p5 := Next(fs, 4, Num(t.nonce), p4);
    var p6 := Next(fs, 5, Num(t.chainId), p5);
    var p7 := Next(fs, 6, Single(t.kind), p6);
    var p8 := Next(fs, 7, Num(t.gas), p7);
  }

  lemma {:induction false} DataStand(t: Tx, fs: seq<Field>, d: seq<byte>, p: nat)
    requires AllSized(fs) && fs == TxFields(t) && d == PutAll(fs) && Offset(fs, 8) == p
    ensures DataAt(d, p, t) == true && |d| == p + 24 + |t.data| + |t.pubKey| + |t.sig|
  {
    var p9 := NextBytes(fs, 8, t.data, d, p);
    var p10 := NextBytes(fs, 9, t.pubKey, d, p9);
    var p11 := NextBytes(fs, 10, t.sig, d, p10);
    EndsAt(fs);
  }

  /* ----- Logs ----- */

  /** The contract, the transaction's place in the block, and the topics after their number. */
  ghost predicate LogAt(d: seq<byte>, l: Log)
  {
    && LogHeadAt(d, l) && TopicsAt(d, 24 + |l.contract|, l.topics)
    && |d| == 24 + |l.contract| + 8 * |l.topics|
  }

  ghost predicate LogHeadAt(d: seq<byte>, l: Log)
  {
    var p := 8 + |l.contract|;
    BytesAt(d, 0, l.contract) && NumAt(d, p, l.txIndex % 0x1_0000_0000_0000_0000) && NumAt(d, p + 8, |l.topics|)
  }

  ghost predicate TopicsAt(d: seq<byte>, p: nat, topics: seq<u64>)
  {
    forall i :: 0 <= i < |topics| ==> NumAt(d, p + 8 * i, topics[i])
  }

  /** After a head of known width, numbers stand eight bytes apart. */
  lemma {:induction false} NumOffset(fs: seq<Field>, head: nat, i: nat)
    requires head + i <= |fs| && forall j :: head <= j < |fs| ==> fs[j].Num?
    ensures Offset(fs, head + i) == Offset(fs, head) + 8 * i
  {
    if i > 0 { NumOffset(fs, head, i - 1); }
  }

  lemma {:induction false} LogHeadStands(l: Log, fs: seq<Field>, d: seq<byte>)
    requires LogSized(l) && AllSized(fs) && |fs| >= 3 && fs[..3] == LogHead(l) && d == PutAll(fs)
    ensures LogHeadAt(d, l) == true && Offset(fs, 3) == 24 + |l.contract|
  {
    assert fs[0] == fs[..3][0] && fs[1] == fs[..3][1] && fs[2] == fs[..3][2];
    var p1 := Next(fs, 0, Bytes(l.contract), 0);
    var p2 := Next(fs, 1, Num(Wrap(l.txIndex)), p1);
    var p3 := Next(fs, 2, Num(|l.topics|), p2);
  }

  lemma {:induction false} TopicsStand(fs: seq<Field>, topics: seq<u64>, d: seq<byte>, p: nat)
    requires AllSized(fs) && |fs| >= 3 && fs[3..] == Nums(topics) && d == PutAll(fs) && Offset(fs, 3) == p
    ensures TopicsAt(d, p, topics) == true && |d| == p + 8 * |topics|
  {
    forall j | 3 <= j < |fs| ensures fs[j] == Num(topics[j - 3]) { assert fs[j] == fs[3..][j - 3]; }
    forall i | 0 <= i < |topics| ensures NumAt(d, p + 8 * i, topics[i]) {
      NumOffset(fs, 3, i);
      FieldsStand(fs, 3 + i);
    }
    NumOffset(fs, 3, |topics|);
    EndsAt(fs);
  }

  lemma {:induction false} LogStands(l: Log)
    requires LogSized(l)
    ensures LogAt(LogBytes(l), l)
  {
    var fs, d := LogHead(l) + Nums(l.topics), LogBytes(l);
    PutInParts(fs, 3);
    assert fs[..3] == LogHead(l) && fs[3..] == Nums(l.topics);
    LogHeadStands(l, fs, d);
    TopicsStand(fs, l.topics, d, 24 + |l.contract|);
  }

  /* ----- Bodies and lists of logs ----- */

  /** Records stand one after the other from `p` on, each after its length, and nothing follows. */
  ghost predicate RecordsAt(d: seq<byte>, p: nat, records: seq<seq<byte>>)
    decreases records
  {
    if records == [] then p == |d|
    else BytesAt(d, p, records[0]) && RecordsAt(d, p + 8 + |records[0]|, records[1..])
  }

  /** Four digits to the base 256 say how many records there are; then they stand in order. */
  ghost predicate ListAt(d: seq<byte>, n: nat, records: seq<seq<byte>>)
  {
    |d| >= 4 && (forall i :: 0 <= i < 4 ==> d[i] == FourDigit(n, i)) && RecordsAt(d, 4, records)
  }

  function FourDigit(n: nat, i: nat): (x: int)
    requires i < 4
  {
    (n / Pow256(3 - i)) % 256
  }

  function PutRecords(records: seq<seq<byte>>): (d: seq<byte>)
  {
    if records == [] then [] else PutBytes(records[0]) + PutRecords(records[1..])
  }

  lemma {:induction false} RecordsStand(records: seq<seq<byte>>, d: seq<byte>, p: nat)
    requires p <= |d| && d[p..] == PutRecords(records) && forall i :: 0 <= i < |records| ==> |records[i]| < TWO63
    ensures RecordsAt(d, p, records)
    decreases records
  {
    if records != [] {
      var b := records[0];
      assert d[p..p + 8 + |b|] == d[p..][..8 + |b|] == PutBytes(b);
      FieldStands(d, p, Bytes(b));
      assert d[p + 8 + |b|..] == d[p..][8 + |b|..];
      RecordsStand(records[1..], d, p + 8 + |b|);
    }
  }

  lemma {:induction false} ListStands(records: seq<seq<byte>>, n: nat, d: seq<byte>)
    requires n < TWO32 && d == U32Bytes(n) + PutRecords(records)
    requires forall i :: 0 <= i < |records| ==> |records[i]| < TWO63
    ensures ListAt(d, n, records)
  {
    forall i | 0 <= i < 4 ensures d[i] == FourDigit(n, i) { DigitAt(n, 4, i); }
    RecordsStand(records, d, 4);
  }

  /** The encodings of these, in order. */
  function Records<T>(encode: T -> seq<byte>, xs: seq<T>): (r: seq<seq<byte>>)
  {
    seq(|xs|, i requires 0 <= i < |xs| => encode(xs[i]))
  }

  lemma NextRecord<T>(encode: T -> seq<byte>, xs: seq<T>, b: seq<byte>)
    requires xs != [] && b == encode(xs[0])
    ensures Records(encode, xs) == [b] + Records(encode, xs[1..])
  {
  }

  lemma {:induction false} RecordsNext(b: seq<byte>, rest: seq<seq<byte>>, records: seq<seq<byte>>)
    requires records == [b] + rest
    ensures PutRecords(records) == PutBytes(b) + PutRecords(rest)
  {
    assert records[1..] == rest;
  }

  lemma {:induction false} TxsAreRecords(txs: seq<Tx>)
    ensures PutTxs(txs) == PutRecords(Records(TxBytes, txs))
  {
    if txs != [] {
      TxsAreRecords(txs[1..]);
      NextRecord(TxBytes, txs, TxBytes(txs[0]));
      RecordsNext(TxBytes(txs[0]), Records(TxBytes, txs[1..]), Records(TxBytes, txs));
    } else {
      assert Records(TxBytes, txs) == [];
    }
  }

  lemma {:induction false} BodyStands(txs: seq<Tx>)
    requires BodySized(txs)
    ensures ListAt(BodyBytes(txs), |txs|, Records(TxBytes, txs))
  {
    TxsAreRecords(txs);
    ListStands(Records(TxBytes, txs), |txs|, BodyBytes(txs));
  }

  lemma {:induction false} LogsAreRecords(logs: seq<Log>)
    ensures PutLogs(logs) == PutRecords(Records(LogBytes, logs))
  {
    if logs != [] {
      LogsAreRecords(logs[1..]);
      NextRecord(LogBytes, logs, LogBytes(logs[0]));
      RecordsNext(LogBytes(logs[0]), Records(LogBytes, logs[1..]), Records(LogBytes, logs));
    } else {
      assert Records(LogBytes, logs) == [];
    }
  }

  lemma {:induction false} LogsStand(logs: seq<Log>)
    requires |logs| < TWO32 && forall i :: 0 <= i < |logs| ==> LogSized(logs[i])
    ensures ListAt(LogsBytes(logs), |logs|, Records(LogBytes, logs))
  {
    LogsAreRecords(logs);
    ListStands(Records(LogBytes, logs), |logs|, LogsBytes(logs));
  }
}
