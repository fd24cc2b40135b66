/** Block bodies, logs and headers on the wire. */
module Wire {
  import opened Words
  import opened Txs
  import opened Codec

  const TWO32: int := 0x1_0000_0000

  function U32Bytes(n: nat): (r: seq<byte>)
    ensures |r| == 4
  {
    BigEndian(n % TWO32, 4)
  }

  function BytesU32(d: seq<byte>): (n: nat)
    requires |d| == 4
  {
    FromBigEndian(d)
  }

  lemma Pow256Of4()
    ensures Pow256(4) == TWO32
  {
    assert Pow256(2) == 65536;
  }

  lemma {:induction false} RoundTripOf(n: nat, width: nat)
    requires n < Pow256(width)
    ensures FromBigEndian(BigEndian(n, width)) == n
  {
    BigEndianRoundTrip(n, width);
  }

  lemma {:induction false} U32RoundTrip(n: nat)
    requires n < TWO32
    ensures BytesU32(U32Bytes(n)) == n
  {
    Pow256Of4();
    RoundTripOf(n, 4);
  }

  /* ----- Bodies ----- */

  function PutTxs(txs: seq<Tx>): (r: seq<byte>)
  {
    if txs == [] then [] else PutBytes(TxBytes(txs[0])) + PutTxs(txs[1..])
  }

  function BodyBytes(txs: seq<Tx>): (r: seq<byte>)
  {
    U32Bytes(|txs|) + PutTxs(txs)
  }

  method EncodeTxs(txs: seq<Tx>) returns (buf: seq<byte>)
    ensures buf == BodyBytes(txs)
  {
    buf := U32Bytes(|txs|);
    var i := 0;
    while i < |txs|
      invariant 0 <= i <= |txs| && BodyBytes(txs) == buf + PutTxs(txs[i..])
    {
      TxsAfter(txs, i);
      var b := PutBytes(TxBytes(txs[i]));
      Regroup(buf, b, PutTxs(txs[i + 1..]));
      buf := buf + b;
      i := i + 1;
    }
  }

  lemma {:induction false} TxsAfter(txs: seq<Tx>, i: nat)
    requires i < |txs|
    ensures PutTxs(txs[i..]) == PutBytes(TxBytes(txs[i])) + PutTxs(txs[i + 1..])
  {
    assert txs[i..][1..] == txs[i + 1..];
  }

  /** `n` transactions from the front of `d`; the outer lengths are checked exactly. */
  function TakeTxs(d: seq<byte>, n: nat): (r: Option<seq<Tx>>)
    decreases n
  {
    if n == 0 then Some([])
    else if |d| < 8 then None
    else
      var l, rest := BytesU64(d[..8]), d[8..];
      if |rest| < l then None
      else
        match DecodeTx(rest[..l])
        case None => None
        case Some(t) =>
          match TakeTxs(rest[l..], n - 1)
          case None => None
          case Some(ts) => Some([t] + ts)
  }

  function BodyTxs(d: seq<byte>): (r: Option<seq<Tx>>)
  {
    if |d| < 4 then None else TakeTxs(d[4..], BytesU32(d[..4]))
  }

  function Prefixed(done: seq<Tx>, r: Option<seq<Tx>>): (r': Option<seq<Tx>>)
  {
    if r.None? then None else Some(done + r.value)
  }

  lemma {:induction false} NothingBefore(r: Option<seq<Tx>>)
    ensures Prefixed([], r) == r
  {
    if r.Some? { assert [] + r.value == r.value; }
  }

  lemma {:induction false} OneMore(done: seq<Tx>, t: Tx, r: Option<seq<Tx>>)
    ensures Prefixed(done + [t], r) == Prefixed(done, if r.None? then None else Some([t] + r.value))
  {
    if r.Some? { assert done + [t] + r.value == done + ([t] + r.value); }
  }

  method DecodeTxs(data: seq<byte>) returns (r: Option<seq<Tx>>)
    ensures r == BodyTxs(data)
  {
    if |data| < 4 { return None; }
    var n := BytesU32(data[..4]);
    var rest := data[4..];
    var txs: seq<Tx> := [];
    var i := 0;
    NothingBefore(TakeTxs(rest, n));
    while i < n
      invariant 0 <= i <= n && BodyTxs(data) == Prefixed(txs, TakeTxs(rest, n - i))
    {
      if |rest| < 8 { return None; }
      var l := BytesU64(rest[..8]);
      rest := rest[8..];
      if |rest| < l { return None; }
      var t := DecodeTx(rest[..l]);
      if t.None? { return None; }
      OneMore(txs, t.value, TakeTxs(rest[l..], n - i - 1));
      txs := txs + [t.value];
      rest := rest[l..];
      i := i + 1;
    }
    assert txs + [] == txs;
    return Some(txs);
  }

  ghost predicate BodySized(txs: seq<Tx>)
  {
    |txs| < TWO32 && forall i :: 0 <= i < |txs| ==> TxSized(txs[i])
  }

  /** One transaction, its length in `head`, before the rest. */
  lemma {:induction false} TakesOne(head: seq<byte>, b: seq<byte>, tail: seq<byte>, t: Tx, ts: seq<Tx>)
    requires |head| == 8 && BytesU64(head) == |b| && DecodeTx(b) == Some(t) && TakeTxs(tail, |ts|) == Some(ts)
    ensures TakeTxs(head + b + tail, |ts| + 1) == Some([t] + ts)
  {
    var d := head + b + tail;
    assert d[..8] == head && d[8..] == b + tail;
    assert (b + tail)[..|b|] == b && (b + tail)[|b|..] == tail;
    TakesFirst(d, d[8..], |b|, t, ts);
  }

  lemma {:induction false} TakesFirst(d: seq<byte>, rest: seq<byte>, l: nat, t: Tx, ts: seq<Tx>)
    requires |d| >= 8 && BytesU64(d[..8]) == l && rest == d[8..] && l <= |rest|
    requires DecodeTx(rest[..l]) == Some(t) && TakeTxs(rest[l..], |ts|) == Some(ts)
    ensures TakeTxs(d, |ts| + 1) == Some([t] + ts)
  {
  }

  lemma {:induction false} TakesTxs(txs: seq<Tx>, extra: seq<byte>)
    requires forall i :: 0 <= i < |txs| ==> TxSized(txs[i])
    ensures TakeTxs(PutTxs(txs) + extra, |txs|) == Some(txs)
  {
    if txs != [] {
      assert TxSized(txs[0]);
      TakesTxs(txs[1..], extra);
      var head, b, rest := FirstTx(txs, extra);
      TakesOne(head, b, rest, txs[0], txs[1..]);
      assert [txs[0]] + txs[1..] == txs;
    }
  }

  /** The first transaction's length, its bytes, and what follows. */
  lemma {:induction false} FirstTx(txs: seq<Tx>, extra: seq<byte>)
      returns (head: seq<byte>, b: seq<byte>, rest: seq<byte>)
    requires txs != [] && TxSized(txs[0])
    ensures PutTxs(txs) + extra == head + b + rest && rest == PutTxs(txs[1..]) + extra
    ensures |head| == 8 && BytesU64(head) == |b| && DecodeTx(b) == Some(txs[0])
  {
    b := TxBytes(txs[0]);
    head := U64Bytes(|b|);
    rest := PutTxs(txs[1..]) + extra;
    TxDecodes(txs[0]);
    U64RoundTrip(|b|);
    Regroup(head + b, PutTxs(txs[1..]), extra);
  }

  lemma {:induction false} TxDecodes(t: Tx)
    requires TxSized(t)
    ensures DecodeTx(TxBytes(t)) == Some(t)
  {
    TxRoundTrip(t, []);
    assert TxBytes(t) + [] == TxBytes(t);
  }

  /** A body is read back from its bytes; bytes after it are ignored. */
  lemma {:induction false} BodyRoundTrip(txs: seq<Tx>, extra: seq<byte>)
    requires BodySized(txs)
    ensures BodyTxs(BodyBytes(txs) + extra) == Some(txs)
  {
    TakesTxs(txs, extra);
    U32RoundTrip(|txs|);
    var head := U32Bytes(|txs|);
    Regroup(head, PutTxs(txs), extra);
    BodyFromParts(head, PutTxs(txs) + extra, |txs|);
  }

  lemma {:induction false} BodyFromParts(head: seq<byte>, rest: seq<byte>, n: nat)
    requires |head| == 4 && BytesU32(head) == n
    ensures BodyTxs(head + rest) == TakeTxs(rest, n)
  {
    assert (head + rest)[..4] == head && (head + rest)[4..] == rest;
  }

  lemma {:induction false} BodyBytesIsInjective(txs: seq<Tx>, txs': seq<Tx>)
    requires BodySized(txs) && BodySized(txs') && BodyBytes(txs) == BodyBytes(txs')
    ensures txs == txs'
  {
    BodyRoundTrip(txs, []);
    BodyRoundTrip(txs', []);
    assert BodyBytes(txs) + [] == BodyBytes(txs) && BodyBytes(txs') + [] == BodyBytes(txs');
  }

  /** Decoding is not injective: a body is also decoded from longer data. */
  lemma {:induction false} LongerBodiesDecodeToo(txs: seq<Tx>)
    requires BodySized(txs)
    ensures BodyTxs(BodyBytes(txs) + [0]) == BodyTxs(BodyBytes(txs)) && BodyBytes(txs) + [0] != BodyBytes(txs)
  {
    BodyRoundTrip(txs, [0]);
    BodyRoundTrip(txs, []);
    assert BodyBytes(txs) + [] == BodyBytes(txs);
    assert |BodyBytes(txs) + [0]| == |BodyBytes(txs)| + 1;
  }

  /* ----- Logs ----- */

  function Nums(vs: seq<u64>): (fs: seq<Field>)
    ensures |fs| == |vs| && forall i :: 0 <= i < |vs| ==> fs[i] == Num(vs[i])
  {
    if vs == [] then [] else [Num(vs[0])] + Nums(vs[1..])
  }

  function LogHead(l: Log): (fs: seq<Field>)
  {
    [Bytes(l.contract), Num(Wrap(l.txIndex)), Num(Wrap(|l.topics|))]
  }

  function LogBytes(l: Log): (r: seq<byte>)
  {
    PutAll(LogHead(l)) + PutAll(Nums(l.topics))
  }

  const LOG_SHAPE: seq<Shape> := [BytesShape, NumShape, NumShape]

  /** `int(u)`: two's complement. */
  function ToInt(u: u64): (i: int)
    ensures Wrap(i) == u
  {
    if u >= TWO63 then u - TWO64 else u
  }

  function ReadNums(d: seq<byte>, n: nat): (g: Got<seq<u64>>)
    decreases n
  {
    if n == 0 then Got([], d)
    else
      match ReadU64(d)
      case Fail => Fail
      case Got(v, rest) =>
        match ReadNums(rest, n - 1)
        case Fail => Fail
        case Got(vs, rest') => Got([v] + vs, rest')
  }

  /** More than 2^60 topics cannot be allocated. */
  function DecodeLog(d: seq<byte>): (l: Option<Log>)
  {
    match ReadAll(LOG_SHAPE, d)
    case Fail => None
    case Got(fs, rest) =>
      if fs[2].v >= TWO63 / 8 then None
      else
        match ReadNums(rest, fs[2].v)
        case Fail => None
        case Got(vs, _) => Some(Log(fs[0].b, vs, ToInt(fs[1].v)))
  }

  lemma {:induction false} ReadsNums(vs: seq<u64>, rest: seq<byte>)
    ensures ReadNums(PutAll(Nums(vs)) + rest, |vs|) == Got(vs, rest)
  {
    if vs == [] {
      assert [] + rest == rest;
    } else {
      assert Nums(vs)[1..] == Nums(vs[1..]);
      assert PutAll(Nums(vs)) + rest == U64Bytes(vs[0]) + (PutAll(Nums(vs[1..])) + rest);
      ReadsU64(vs[0], PutAll(Nums(vs[1..])) + rest);
      ReadsNums(vs[1..], rest);
      assert [vs[0]] + vs[1..] == vs;
    }
  }

  ghost predicate LogSized(l: Log)
  {
    |l.contract| < TWO63 && |l.topics| < TWO63 / 8 && -TWO63 <= l.txIndex < TWO63 && |LogBytes(l)| < TWO63
  }

  lemma {:induction false} LogHeadReads(l: Log, tail: seq<byte>)
    requires LogSized(l)
    ensures ReadAll(LOG_SHAPE, PutAll(LogHead(l)) + tail) == Got(LogHead(l), tail)
  {
    ShapesAt(LogHead(l));
    assert Shapes(LogHead(l)) == LOG_SHAPE;
    ReadsAll(LogHead(l), tail);
  }

  /** A log from its parts. */
  lemma {:induction false} LogFromParts(l: Log, d: seq<byte>, tail: seq<byte>, rest: seq<byte>)
    requires LogSized(l) && ReadAll(LOG_SHAPE, d) == Got(LogHead(l), tail)
             && ReadNums(tail, |l.topics|) == Got(l.topics, rest)
    ensures DecodeLog(d) == Some(l)
  {
    FromHead(LogHead(l), l);
  }

  /** The fields of a log's head say what its parts are. */
  lemma FromHead(fs: seq<Field>, l: Log)
    requires LogSized(l) && fs == LogHead(l)
    ensures |fs| == 3 && fs[0] == Bytes(l.contract) && fs[1].Num? && ToInt(fs[1].v) == l.txIndex
            && fs[2] == Num(|l.topics|)
  {
  }

  lemma {:induction false} LogRoundTrip(l: Log, rest: seq<byte>)
    requires LogSized(l)
    ensures DecodeLog(LogBytes(l) + rest) == Some(l)
  {
    var tail := PutAll(Nums(l.topics)) + rest;
    LogHeadReads(l, tail);
    ReadsNums(l.topics, rest);
    Regroup(PutAll(LogHead(l)), PutAll(Nums(l.topics)), rest);
    LogFromParts(l, LogBytes(l) + rest, tail, rest);
  }

  lemma {:induction false} LogBytesIsInjective(l: Log, l': Log)
    requires LogSized(l) && LogSized(l') && LogBytes(l) == LogBytes(l')
    ensures l == l'
  {
    LogRoundTrip(l, []);
    LogRoundTrip(l', []);
  }

  function PutLogs(logs: seq<Log>): (r: seq<byte>)
  {
    if logs == [] then [] else PutBytes(LogBytes(logs[0])) + PutLogs(logs[1..])
  }

  function LogsBytes(logs: seq<Log>): (r: seq<byte>)
  {
    U32Bytes(|logs|) + PutLogs(logs)
  }

  method EncodeLogs(logs: seq<Log>) returns (buf: seq<byte>)
    ensures buf == LogsBytes(logs)
  {
    buf := U32Bytes(|logs|);
    var i := 0;
    while i < |logs|
      invariant 0 <= i <= |logs| && LogsBytes(logs) == buf + PutLogs(logs[i..])
    {
      LogsAfter(logs, i);
      var b := PutBytes(LogBytes(logs[i]));
      Regroup(buf, b, PutLogs(logs[i + 1..]));
      buf := buf + b;
      i := i + 1;
    }
  }

  lemma {:induction false} LogsAfter(logs: seq<Log>, i: nat)
    requires i < |logs|
    ensures PutLogs(logs[i..]) == PutBytes(LogBytes(logs[i])) + PutLogs(logs[i + 1..])
  {
    assert logs[i..][1..] == logs[i + 1..];
  }

  function TakeLogs(d: seq<byte>, n: nat): (r: Option<seq<Log>>)
    decreases n
  {
    if n == 0 then Some([])
    else
      match ReadBytes(d)
      case Fail => None
      case Got(raw, rest) =>
        match DecodeLog(raw)
        case None => None
        case Some(l) =>
          match TakeLogs(rest, n - 1)
          case None => None
          case Some(ls) => Some([l] + ls)
  }

  function LogsOf(d: seq<byte>): (r: Option<seq<Log>>)
  {
    if |d| < 4 then None else TakeLogs(d[4..], BytesU32(d[..4]))
  }

  method DecodeLogs(data: seq<byte>) returns (r: Option<seq<Log>>)
    ensures r == LogsOf(data)
  {
    if |data| < 4 { return None; }
    var n, rest := BytesU32(data[..4]), data[4..];
    var out: seq<Log> := [];
    var i := 0;
    NoneBefore(TakeLogs(rest, n));
    while i < n
      invariant 0 <= i <= n && LogsOf(data) == Joined(out, TakeLogs(rest, n - i))
    {
      var raw := ReadBytes(rest);
      if raw.Fail? { return None; }
      var l := DecodeLog(raw.value);
      if l.None? { return None; }
      OneLogMore(out, l.value, TakeLogs(raw.rest, n - i - 1));
      out, rest, i := out + [l.value], raw.rest, i + 1;
    }
    assert out + [] == out;
    return Some(out);
  }

  lemma {:induction false} NoneBefore(r: Option<seq<Log>>)
    ensures Joined([], r) == r
  {
    if r.Some? { assert [] + r.value == r.value; }
  }

  lemma {:induction false} OneLogMore(done: seq<Log>, l: Log, r: Option<seq<Log>>)
    ensures Joined(done + [l], r) == Joined(done, if r.None? then None else Some([l] + r.value))
  {
    if r.Some? { assert done + [l] + r.value == done + ([l] + r.value); }
  }

  function Joined(done: seq<Log>, r: Option<seq<Log>>): (r': Option<seq<Log>>)
  {
    if r.None? then None else Some(done + r.value)
  }

  lemma {:induction false} TakesLogs(logs: seq<Log>, extra: seq<byte>)
    requires forall i :: 0 <= i < |logs| ==> LogSized(logs[i])
    ensures TakeLogs(PutLogs(logs) + extra, |logs|) == Some(logs)
  {
    if logs != [] {
      assert LogSized(logs[0]);
      TakesLogs(logs[1..], extra);
      var raw := FirstLog(logs, extra);
      TakesFirstLog(PutLogs(logs) + extra, raw, PutLogs(logs[1..]) + extra, logs[0], logs[1..]);
      assert [logs[0]] + logs[1..] == logs;
    }
  }

  lemma {:induction false} TakesFirstLog(d: seq<byte>, raw: seq<byte>, rest: seq<byte>, l: Log, ls: seq<Log>)
    requires ReadBytes(d) == Got(raw, rest) && DecodeLog(raw) == Some(l) && TakeLogs(rest, |ls|) == Some(ls)
    ensures TakeLogs(d, |ls| + 1) == Some([l] + ls)
  {
  }

  lemma {:induction false} FirstLog(logs: seq<Log>, extra: seq<byte>) returns (raw: seq<byte>)
    requires logs != [] && LogSized(logs[0])
    ensures ReadBytes(PutLogs(logs) + extra) == Got(raw, PutLogs(logs[1..]) + extra) && DecodeLog(raw) == Some(logs[0])
  {
    raw := LogBytes(logs[0]);
    Regroup(PutBytes(raw), PutLogs(logs[1..]), extra);
    ReadsBytes(raw, PutLogs(logs[1..]) + extra);
    LogDecodes(logs[0]);
  }

  lemma {:induction false} LogDecodes(l: Log)
    requires LogSized(l)
    ensures DecodeLog(LogBytes(l)) == Some(l)
  {
    LogRoundTrip(l, []);
    assert LogBytes(l) + [] == LogBytes(l);
  }

  lemma {:induction false} LogsRoundTrip(logs: seq<Log>, extra: seq<byte>)
    requires |logs| < TWO32 && forall i :: 0 <= i < |logs| ==> LogSized(logs[i])
    ensures LogsOf(LogsBytes(logs) + extra) == Some(logs)
  {
    var d := LogsBytes(logs) + extra;
    assert d[..4] == U32Bytes(|logs|) && d[4..] == PutLogs(logs) + extra;
    U32RoundTrip(|logs|);
    TakesLogs(logs, extra);
  }

  /* ----- Headers ----- */

  datatype Header = Header(
    height: u64, prevHash: seq<byte>, merkleRoot: seq<byte>, timestamp: int, validator: Address, txCount: u64,
        round: u64,
    k: byte, m: byte, bodyHash: seq<byte>, logsRoot: seq<byte>)

  ghost predicate HeaderSized(h: Header)
  {
    |h.prevHash| == |h.merkleRoot| == |h.bodyHash| == |h.logsRoot| == 32 && |h.validator| < TWO63
    && -TWO63 <= h.timestamp < TWO63 && h.txCount < TWO32 && h.round < TWO32
  }

  function HeaderFields(h: Header): (fs: seq<Field>)
  {
    [Num(h.height), Raw(h.prevHash), Raw(h.merkleRoot), Num(Wrap(h.timestamp)), Bytes(h.validator), Num(h.txCount),
     Num(h.round),
     Single(h.k), Single(h.m), Raw(h.bodyHash), Raw(h.logsRoot)]
  }

  function HeaderBytes(h: Header): (r: seq<byte>)
  {
    PutAll(HeaderFields(h))
  }

  lemma {:induction false} HeaderShape(h: Header)
    requires HeaderSized(h)
    ensures Shapes(HeaderFields(h)) == HEADER_SHAPE && AllSized(HeaderFields(h))
  {
    ShapesAt(HeaderFields(h));
    assert |Shapes(HeaderFields(h))| == 11;
  }

  const HEADER_SHAPE: seq<Shape> :=
    [NumShape, RawShape(32), RawShape(32), NumShape, BytesShape, NumShape, NumShape, SingleShape, SingleShape,
     RawShape(32), RawShape(32)]

  /** What a validator signs, and what a block id is the hash of, determines the header. */
  lemma {:induction false} HeaderBytesIsInjective(h: Header, h': Header)
    requires HeaderSized(h) && HeaderSized(h') && HeaderBytes(h) == HeaderBytes(h')
    ensures h == h'
  {
    HeaderShape(h);
    HeaderShape(h');
    PutAllIsInjective(HeaderFields(h), HeaderFields(h'));
    SameFields(h, h');
  }

  lemma {:induction false} SameFields(h: Header, h': Header)
    requires HeaderSized(h) && HeaderSized(h') && HeaderFields(h) == HeaderFields(h')
    ensures h == h'
  {
    var fs, gs := HeaderFields(h), HeaderFields(h');
    assert fs[0] == gs[0] && fs[1] == gs[1] && fs[2] == gs[2] && fs[3] == gs[3] && fs[4] == gs[4] && fs[5] == gs[5];
    assert fs[6] == gs[6] && fs[7] == gs[7] && fs[8] == gs[8] && fs[9] == gs[9] && fs[10] == gs[10];
  }
}
