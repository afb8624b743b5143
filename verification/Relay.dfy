/**
 `RelayLoop`: draining the transactional outbox into the Redis streams.

 A batch is one database transaction that adds rows to streams one at a time. What Redis has added stays added when
 the transaction is rolled back or the reply is lost, so a row can be added more than once: such additions are
 counted as accidents.
 */
module Relay {
  import opened Options

  const BATCH_SIZE: nat := 64
  const MAX_ATTEMPTS: nat := 50
  const BASE_BACKOFF_MS: nat := 100
  const MAX_BACKOFF_MS: nat := 60000

  type RowId = nat
  type StreamKey = nat
  type Millis = nat

  datatype Error = MaxAttempts | Message(text: string)

  datatype Row = Row(
    producer: string,
    stream: StreamKey,
    published: Option<Millis>,
    nextAttempt: Millis,
    attempts: nat,
    error: Option<Error>)

  /** What happens to one XADD, and when that is recorded. */
  datatype Reply =
    | Added(at: Millis)
    | Refused(at: Millis, text: string) // any error of this row's own
    | Unreachable(added: bool)          // a connection error or time-out, perhaps after the entry was added
    | Fails(added: bool)                // the process or the database transaction fails here

  // ---- Backoff ----------------------------------------------------------------------------

  function Pow2(n: nat): (r: nat)
    ensures r > 0
  {
    if n == 0 then 1 else 2 * Pow2(n - 1)
  }

  function Min(a: nat, b: nat): nat {
    if a <= b then a else b
  }

  function BackoffMs(attempts: nat): nat {
    Min(BASE_BACKOFF_MS * Pow2(Min(attempts, 30)), MAX_BACKOFF_MS)
  }

  lemma {:induction false} Pow2Grows(m: nat, n: nat)
    requires m <= n
    ensures Pow2(m) <= Pow2(n)
    decreases n - m
  {
    if m < n {
      Pow2Grows(m, n - 1);
    }
  }

  /** The exponent's cap never matters: the backoff is the plain exponential one, at least doubled once, never longer
      than a minute, and it is at its longest exactly from the tenth failure on. */
  lemma BackoffIsExponential(n: nat)
    requires n > 0
    ensures BackoffMs(n) == Min(BASE_BACKOFF_MS * Pow2(n), MAX_BACKOFF_MS)
    ensures 2 * BASE_BACKOFF_MS <= BackoffMs(n) <= MAX_BACKOFF_MS <= BackoffMs(10)
    ensures BackoffMs(n) == MAX_BACKOFF_MS <==> n >= 10
    ensures BackoffMs(n) <= BackoffMs(n + 1)
  {
    assert Pow2(1) == 2;
    assert Pow2(5) == 32 && Pow2(9) == 16 * Pow2(5);
    assert Pow2(10) == 2 * Pow2(9);
    Pow2Grows(1, Min(n, 30));
    Pow2Grows(Min(n, 30), Min(n + 1, 30));
    if n >= 10 {
      Pow2Grows(10, n);
      Pow2Grows(10, Min(n, 30));
    } else {
      Pow2Grows(n, 9);
    }
  }

  // ---- The query --------------------------------------------------------------------------

  /** The row is to be attempted at `now`. */
  predicate Due(row: Row, now: Millis) {
    row.published.None? && row.nextAttempt <= now && row.attempts < MAX_ATTEMPTS
  }

  /** What the query asks of a row. */
  predicate IsWaiting(row: Row, producer: string, now: Millis) {
    row.producer == producer && row.published.None? && row.nextAttempt <= now && row.attempts < 50
  }

  predicate Eligible(outbox: map<RowId, Row>, producer: string, now: Millis, locked: set<RowId>, r: RowId) {
    r in outbox && r !in locked && outbox[r].producer == producer && Due(outbox[r], now)
  }

  predicate Increasing(ids: seq<RowId>) {
    forall i, j :: 0 <= i < j < |ids| ==> ids[i] < ids[j]
  }

  /** The first rows, by id, that are due and not locked by another relay. */
  ghost predicate Selected(outbox: map<RowId, Row>, producer: string, now: Millis, locked: set<RowId>, ids: seq<RowId>) {
    && Increasing(ids) && |ids| <= BATCH_SIZE
    && (forall i :: 0 <= i < |ids| ==> Eligible(outbox, producer, now, locked, ids[i]))
    && forall r :: Eligible(outbox, producer, now, locked, r) && r !in ids ==>
                     |ids| == BATCH_SIZE && forall i :: 0 <= i < |ids| ==> ids[i] < r
  }

  lemma {:induction false} LeastExists(s: set<RowId>) returns (least: RowId)
    requires s != {}
    ensures least in s && forall r :: r in s ==> least <= r
  {
    least :| least in s;
    if s != {least} {
      var rest := LeastExists(s - {least});
      assert forall r :: r in s ==> r == least || r in s - {least};
      least := if rest < least then rest else least;
    }
  }

  // ---- The effect of a batch --------------------------------------------------------------

  function StreamOf(streams: map<StreamKey, seq<RowId>>, k: StreamKey): seq<RowId> {
    if k in streams then streams[k] else []
  }

  function XAdd(streams: map<StreamKey, seq<RowId>>, k: StreamKey, r: RowId): map<StreamKey, seq<RowId>> {
    streams[k := StreamOf(streams, k) + [r]]
  }

  predicate Stops(reply: Reply) {
    reply.Unreachable? || reply.Fails?
  }

  predicate Adds(reply: Reply) {
    reply.Added? || (Stops(reply) && reply.added)
  }

  /** How far the loop gets: up to and including the first row whose reply ends it. */
  ghost predicate Handled(ids: seq<RowId>, reply: map<RowId, Reply>, n: nat) {
    && n <= |ids| && (forall i :: 0 <= i < |ids| ==> ids[i] in reply)
    && (forall i :: 0 <= i < n - 1 ==> !Stops(reply[ids[i]]))
    && (n < |ids| ==> n > 0 && Stops(reply[ids[n - 1]]))
  }

  /** The rows of stream `k` among `ids` that Redis added, in order. */
  function AddedTo(outbox: map<RowId, Row>, ids: seq<RowId>, reply: map<RowId, Reply>, k: StreamKey): seq<RowId>
    requires forall i :: 0 <= i < |ids| ==> ids[i] in reply && ids[i] in outbox
  {
    if ids == [] then []
    else
      var r := ids[|ids| - 1];
      AddedTo(outbox, ids[..|ids| - 1], reply, k) + if outbox[r].stream == k && Adds(reply[r]) then [r] else []
  }

  /** Added at most once each, since the ids are distinct. */
  lemma {:induction false} AddedOnceEach(outbox: map<RowId, Row>, ids: seq<RowId>, reply: map<RowId, Reply>, k: StreamKey, q: RowId)
    requires forall i :: 0 <= i < |ids| ==> ids[i] in reply && ids[i] in outbox
    requires Increasing(ids)
    ensures multiset(AddedTo(outbox, ids, reply, k))[q]
            == if q in ids && outbox[q].stream == k && Adds(reply[q]) then 1 else 0
  {
    hide AddedTo, Adds;
    if ids == [] {
      NothingAdded(outbox, reply, k);
    } else {
      var n := |ids| - 1;
      var done, r := ids[..n], ids[n];
      assert ids == done + [r] && r !in done;
      AddedOnceEach(outbox, done, reply, k, q);
      AddedNext(outbox, done, r, reply, k);
      var more: seq<RowId> := if outbox[r].stream == k && Adds(reply[r]) then [r] else [];
      assert multiset(AddedTo(outbox, done, reply, k) + more) == multiset(AddedTo(outbox, done, reply, k)) + multiset(more);
    }
  }

  /** They are added in id order. */
  lemma {:induction false} AddedInOrder(outbox: map<RowId, Row>, ids: seq<RowId>, reply: map<RowId, Reply>, k: StreamKey)
    requires forall i :: 0 <= i < |ids| ==> ids[i] in reply && ids[i] in outbox
    requires Increasing(ids)
    ensures Increasing(AddedTo(outbox, ids, reply, k))
    ensures forall i :: 0 <= i < |AddedTo(outbox, ids, reply, k)| ==> AddedTo(outbox, ids, reply, k)[i] <= ids[|ids| - 1]
  {
    hide AddedTo, Adds;
    if ids == [] {
      NothingAdded(outbox, reply, k);
    } else {
      var n := |ids| - 1;
      IncreasingPrefix(ids, n);
      AddedInOrder(outbox, ids[..n], reply, k);
      AddedNext(outbox, ids[..n], ids[n], reply, k);
      assert ids == ids[..n] + [ids[n]];
      if n == 0 {
        assert ids[..n] == [];
        NothingAdded(outbox, reply, k);
      } else {
        assert ids[..n][n - 1] == ids[n - 1] < ids[n];
      }
      AppendKeepsOrder(AddedTo(outbox, ids[..n], reply, k), ids[n]);
    }
  }

  lemma IncreasingPrefix(ids: seq<RowId>, n: nat)
    requires Increasing(ids) && n <= |ids|
    ensures Increasing(ids[..n])
  {}

  lemma AppendKeepsOrder(before: seq<RowId>, r: RowId)
    requires Increasing(before) && forall i :: 0 <= i < |before| ==> before[i] < r
    ensures Increasing(before + [r]) && forall i :: 0 <= i < |before + [r]| ==> (before + [r])[i] <= r
    ensures before + [] == before
  {}

  lemma NothingAdded(outbox: map<RowId, Row>, reply: map<RowId, Reply>, k: StreamKey)
    ensures AddedTo(outbox, [], reply, k) == []
  {}

  /** What a committed batch makes of a row: a refused one has spent an attempt and waits for its next. */
  ghost predicate Treated(row: Row, reply: Reply, row': Row) {
    match reply
    case Added(at) => row' == row.(published := Some(at))
    case Refused(at, text) =>
      row' == row.(attempts := row.attempts + 1,
                   nextAttempt := at + BackoffMs(row.attempts + 1),
                   error := Some(if row.attempts + 1 >= MAX_ATTEMPTS then MaxAttempts else Message(text)))
    case _ => row' == row
  }

  // ---- A row that is refused again and again ------------------------------------------------

  /** Successive states of a row that was due and refused at each of the times `at`. */
  ghost predicate Refusals(rows: seq<Row>, at: seq<Millis>, texts: seq<string>) {
    && |rows| == |at| + 1 == |texts| + 1
    && forall i :: 0 <= i < |at| ==> Due(rows[i], at[i]) && Treated(rows[i], Refused(at[i], texts[i]), rows[i + 1])
  }

  /** The waits after attempts `first + 1 .. first + n`. */
  function Waits(first: nat, n: nat): nat {
    if n == 0 then 0 else Waits(first, n - 1) + BackoffMs(first + n)
  }

  /** A row is refused at most as often as its budget allows; the attempts are apart by at least the sum of the
      backoffs between them; and in between it waits at least 200 ms and at most a minute. When its budget is spent, and
      only then, it is marked and never due again. */
  lemma {:induction false} RefusalsAreBounded(rows: seq<Row>, at: seq<Millis>, texts: seq<string>, j: nat)
    requires Refusals(rows, at, texts) && j <= |at| && BudgetOk(rows[0])
    ensures rows[j] == rows[0].(attempts := rows[0].attempts + j, nextAttempt := rows[j].nextAttempt, error := rows[j].error)
    ensures BudgetOk(rows[j]) && (j > 0 ==> at[0] + Waits(rows[0].attempts, j) <= rows[j].nextAttempt)
    ensures j > 0 ==> at[j - 1] + 2 * BASE_BACKOFF_MS <= rows[j].nextAttempt <= at[j - 1] + MAX_BACKOFF_MS
    ensures rows[0].attempts + j <= MAX_ATTEMPTS
    ensures j > 0 ==> (rows[0].attempts + j == MAX_ATTEMPTS <==> forall now :: !Due(rows[j], now))
  {
    if j > 0 {
      RefusalsAreBounded(rows, at, texts, j - 1);
      assert Due(rows[j - 1], at[j - 1]) && Treated(rows[j - 1], Refused(at[j - 1], texts[j - 1]), rows[j]);
      BackoffIsExponential(rows[j].attempts);
      if rows[0].attempts + j < MAX_ATTEMPTS {
        assert Due(rows[j], rows[j].nextAttempt);
      }
    }
  }

  function CountAdded(ids: seq<RowId>, reply: map<RowId, Reply>): nat
    requires forall i :: 0 <= i < |ids| ==> ids[i] in reply
  {
    if ids == [] then 0
    else CountAdded(ids[..|ids| - 1], reply) + if reply[ids[|ids| - 1]].Added? then 1 else 0
  }

  // ---- Conservation -----------------------------------------------------------------------

  ghost function Copies(streams: map<StreamKey, seq<RowId>>, k: StreamKey, r: RowId): nat {
    multiset(StreamOf(streams, k))[r]
  }

  /** Every entry of a row in its stream is its recorded publication or an accident. */
  ghost predicate Accounted(row: Row, r: RowId, streams: map<StreamKey, seq<RowId>>, accidents: nat) {
    Copies(streams, row.stream, r) == accidents + if row.published.Some? then 1 else 0
  }

  predicate BudgetOk(row: Row) {
    row.attempts <= MAX_ATTEMPTS && (row.attempts == MAX_ATTEMPTS <==> row.error == Some(MaxAttempts))
  }

  // ---- The loop's progress ----------------------------------------------------------------

  /** The streams after the rows `done`. */
  ghost predicate Extended(outbox: map<RowId, Row>, before: map<StreamKey, seq<RowId>>, done: seq<RowId>,
                           reply: map<RowId, Reply>, streams: map<StreamKey, seq<RowId>>)
    requires forall i :: 0 <= i < |done| ==> done[i] in reply && done[i] in outbox
  {
    forall k :: StreamOf(streams, k) == StreamOf(before, k) + AddedTo(outbox, done, reply, k)
  }

  /** The table, as the transaction sees it, after the rows `done`. */
  ghost predicate Worked(outbox: map<RowId, Row>, done: seq<RowId>, reply: map<RowId, Reply>, work: map<RowId, Row>)
    requires forall i :: 0 <= i < |done| ==> done[i] in reply && done[i] in outbox
  {
    && work.Keys == outbox.Keys
    && forall r :: r in outbox ==> if r in done then Treated(outbox[r], reply[r], work[r]) else work[r] == outbox[r]
  }

  lemma AddedNext(outbox: map<RowId, Row>, done: seq<RowId>, r: RowId, reply: map<RowId, Reply>, k: StreamKey)
    requires forall i :: 0 <= i < |done| ==> done[i] in reply && done[i] in outbox
    requires r in reply && r in outbox
    ensures AddedTo(outbox, done + [r], reply, k)
            == AddedTo(outbox, done, reply, k) + if outbox[r].stream == k && Adds(reply[r]) then [r] else []
  {
    assert (done + [r])[..|done|] == done;
  }

  lemma XAddAt(streams: map<StreamKey, seq<RowId>>, j: StreamKey, r: RowId, k: StreamKey)
    ensures StreamOf(XAdd(streams, j, r), k) == StreamOf(streams, k) + if j == k then [r] else []
  {}

  lemma ExtendedNext(outbox: map<RowId, Row>, before: map<StreamKey, seq<RowId>>, done: seq<RowId>, r: RowId,
                     reply: map<RowId, Reply>, streams: map<StreamKey, seq<RowId>>)
    requires forall i :: 0 <= i < |done| ==> done[i] in reply && done[i] in outbox
    requires Extended(outbox, before, done, reply, streams) && r in reply && r in outbox
    ensures forall i :: 0 <= i < |done + [r]| ==> (done + [r])[i] in reply && (done + [r])[i] in outbox
    ensures Extended(outbox, before, done + [r], reply,
                     if Adds(reply[r]) then XAdd(streams, outbox[r].stream, r) else streams)
  {
    hide AddedTo, Adds, XAdd, StreamOf;
    var done' := done + [r];
    forall i | 0 <= i < |done'| ensures done'[i] in reply && done'[i] in outbox {
      if i < |done| {
        assert done'[i] == done[i];
      }
    }
    var streams' := if Adds(reply[r]) then XAdd(streams, outbox[r].stream, r) else streams;
    forall k ensures StreamOf(streams', k) == StreamOf(before, k) + AddedTo(outbox, done', reply, k) {
      assert StreamOf(streams, k) == StreamOf(before, k) + AddedTo(outbox, done, reply, k);
      AddedNext(outbox, done, r, reply, k);
      XAddAt(streams, outbox[r].stream, r, k);
      var added := if outbox[r].stream == k && Adds(reply[r]) then [r] else [];
      assert StreamOf(streams', k) == StreamOf(streams, k) + added;
    }
  }

  lemma NothingDone(outbox: map<RowId, Row>, streams: map<StreamKey, seq<RowId>>, reply: map<RowId, Reply>)
    ensures Extended(outbox, streams, [], reply, streams) && Worked(outbox, [], reply, outbox) && CountAdded([], reply) == 0
  {}

  lemma CountNext(ids: seq<RowId>, n: nat, reply: map<RowId, Reply>)
    requires n < |ids| && forall i :: 0 <= i < |ids| ==> ids[i] in reply
    ensures CountAdded(ids[..n + 1], reply) == CountAdded(ids[..n], reply) + if reply[ids[n]].Added? then 1 else 0
  {
    assert ids[..n + 1][..n] == ids[..n];
  }

  lemma WorkedNext(outbox: map<RowId, Row>, ids: seq<RowId>, n: nat, reply: map<RowId, Reply>, work: map<RowId, Row>)
    requires Increasing(ids) && n < |ids| && forall i :: 0 <= i < |ids| ==> ids[i] in reply && ids[i] in outbox
    requires Worked(outbox, ids[..n], reply, work)
    ensures ids[n] in work && work[ids[n]] == outbox[ids[n]]
    ensures forall row :: Treated(outbox[ids[n]], reply[ids[n]], row) ==> Worked(outbox, ids[..n + 1], reply, work[ids[n] := row])
  {
    hide Treated;
    assert ids[n] in outbox.Keys && ids[n] !in ids[..n];
    assert ids[..n + 1] == ids[..n] + [ids[n]];
  }

  /** The accounts after a batch: an entry that Redis added and the table does not record is an accident. */
  function Accidents(accidents: map<RowId, nat>, done: seq<RowId>, reply: map<RowId, Reply>, committed: bool): map<RowId, nat>
    requires forall r :: r in done ==> r in reply
  {
    map r | r in accidents ::
      accidents[r] + if r in done && Adds(reply[r]) && !(committed && reply[r].Added?) then 1 else 0
  }

  lemma CopiesAfter(outbox: map<RowId, Row>, before: map<StreamKey, seq<RowId>>, done: seq<RowId>,
                    reply: map<RowId, Reply>, streams: map<StreamKey, seq<RowId>>, r: RowId)
    requires forall i :: 0 <= i < |done| ==> done[i] in reply && done[i] in outbox
    requires Increasing(done) && Extended(outbox, before, done, reply, streams) && r in outbox
    ensures Copies(streams, outbox[r].stream, r)
            == Copies(before, outbox[r].stream, r) + if r in done && Adds(reply[r]) then 1 else 0
  {
    var k := outbox[r].stream;
    AddedOnceEach(outbox, done, reply, k, r);
    assert multiset(StreamOf(before, k) + AddedTo(outbox, done, reply, k))
        == multiset(StreamOf(before, k)) + multiset(AddedTo(outbox, done, reply, k));
  }

  /** Conservation, row by row. */
  lemma RowAccounted(outbox: map<RowId, Row>, before: map<StreamKey, seq<RowId>>, accidents: map<RowId, nat>, done: seq<RowId>,
                     reply: map<RowId, Reply>, committed: bool, outbox': map<RowId, Row>, streams: map<StreamKey, seq<RowId>>, r: RowId)
    requires forall i :: 0 <= i < |done| ==> done[i] in reply && done[i] in outbox && outbox[done[i]].published.None?
    requires forall i :: 0 <= i < |done| ==> outbox[done[i]].attempts < MAX_ATTEMPTS
    requires Increasing(done) && Extended(outbox, before, done, reply, streams)
    requires if committed then Worked(outbox, done, reply, outbox') else outbox' == outbox
    requires r in outbox && r in accidents && Accounted(outbox[r], r, before, accidents[r]) && BudgetOk(outbox[r])
    ensures r in outbox'
    ensures Accounted(outbox'[r], r, streams, Accidents(accidents, done, reply, committed)[r]) && BudgetOk(outbox'[r])
  {
    hide Extended;
    CopiesAfter(outbox, before, done, reply, streams, r);
    assert r in outbox'.Keys;
  }

  lemma BatchAccounted(outbox: map<RowId, Row>, before: map<StreamKey, seq<RowId>>, accidents: map<RowId, nat>, done: seq<RowId>,
                       reply: map<RowId, Reply>, committed: bool, outbox': map<RowId, Row>, streams: map<StreamKey, seq<RowId>>)
    requires forall i :: 0 <= i < |done| ==> done[i] in reply && done[i] in outbox && outbox[done[i]].published.None?
    requires forall i :: 0 <= i < |done| ==> outbox[done[i]].attempts < MAX_ATTEMPTS
    requires Increasing(done) && Extended(outbox, before, done, reply, streams)
    requires if committed then Worked(outbox, done, reply, outbox') else outbox' == outbox
    requires accidents.Keys == outbox.Keys
    requires forall r :: r in outbox ==> Accounted(outbox[r], r, before, accidents[r]) && BudgetOk(outbox[r])
    ensures Accidents(accidents, done, reply, committed).Keys == outbox'.Keys
    ensures forall r :: r in outbox' ==>
              Accounted(outbox'[r], r, streams, Accidents(accidents, done, reply, committed)[r]) && BudgetOk(outbox'[r])
  {
    hide Extended, Accounted, BudgetOk, Treated;
    forall r | r in outbox'
      ensures Accounted(outbox'[r], r, streams, Accidents(accidents, done, reply, committed)[r]) && BudgetOk(outbox'[r])
    {
      assert r in outbox'.Keys && r in outbox.Keys && r in accidents.Keys;
      RowAccounted(outbox, before, accidents, done, reply, committed, outbox', streams, r);
    }
  }

  lemma SelectedFacts(outbox: map<RowId, Row>, producer: string, now: Millis, locked: set<RowId>, ids: seq<RowId>)
    requires Selected(outbox, producer, now, locked, ids)
    ensures Increasing(ids) && forall i :: 0 <= i < |ids| ==>
              ids[i] in outbox && outbox[ids[i]].published.None? && outbox[ids[i]].attempts < MAX_ATTEMPTS
  {}

  /** What a commit leaves of a row, from the fate of its XADD. An unreachable server costs no attempt. */
  ghost predicate RowAfter(row: Row, reply: Option<Reply>, row': Row) {
    && row'.producer == row.producer && row'.stream == row.stream
    && row'.published == (if reply.Some? && reply.value.Added? then Some(reply.value.at) else row.published)
    && row'.attempts == row.attempts + (if reply.Some? && reply.value.Refused? then 1 else 0)
    && (row' != row ==> reply.Some? && (reply.value.Added? || reply.value.Refused?))
  }

  lemma RowsAfter(outbox: map<RowId, Row>, done: seq<RowId>, reply: map<RowId, Reply>, work: map<RowId, Row>)
    requires forall i :: 0 <= i < |done| ==> done[i] in reply && done[i] in outbox
    requires Worked(outbox, done, reply, work)
    ensures work.Keys == outbox.Keys && forall r :: r in outbox ==>
              r in work && RowAfter(outbox[r], if r in done then Some(reply[r]) else None, work[r])
  {
    forall r | r in outbox ensures r in work && RowAfter(outbox[r], if r in done then Some(reply[r]) else None, work[r]) {
      assert r in work.Keys;
    }
  }

  lemma StopsFact(ids: seq<RowId>, reply: map<RowId, Reply>, n: nat)
    requires Handled(ids, reply, n)
    ensures n < |ids| ==> n > 0 && (reply[ids[n - 1]].Unreachable? || reply[ids[n - 1]].Fails?)
    ensures forall i :: 0 <= i < n - 1 ==> reply[ids[i]].Added? || reply[ids[i]].Refused?
  {}

  class RelayLoop {
    const producer: string
    var outbox: map<RowId, Row>
    var streams: map<StreamKey, seq<RowId>>
    var redisUnavailable: bool
    ghost var accidents: map<RowId, nat>

    /** Every row's entries are accounted for, and its attempts are within the budget. */
    ghost predicate Valid()
      reads this
    {
      && accidents.Keys == outbox.Keys
      && forall r :: r in outbox ==> Accounted(outbox[r], r, streams, accidents[r]) && BudgetOk(outbox[r])
    }

    constructor (producer: string)
      ensures Valid() && this.producer == producer && outbox == map[] && streams == map[]
    {
      this.producer := producer;
      outbox, streams, redisUnavailable, accidents := map[], map[], false, map[];
    }

    /** A producer's transaction adds a row; a serial id has not been used before. */
    method Enqueue(r: RowId, producer: string, stream: StreamKey, now: Millis)
      requires Valid() && r !in outbox && r !in StreamOf(streams, stream)
      modifies this`outbox, this`accidents
      ensures Valid() && outbox == old(outbox)[r := Row(producer, stream, None, now, 0, None)]
      ensures accidents == old(accidents)[r := 0]
    {
      outbox := outbox[r := Row(producer, stream, None, now, 0, None)];
      accidents := accidents[r := 0];
    }

    method SelectBatch(now: Millis, locked: set<RowId>) returns (ids: seq<RowId>)
      ensures Selected(outbox, producer, now, locked, ids)
      ensures forall r :: r in ids ==> r in outbox && IsWaiting(outbox[r], producer, now) && r !in locked
      ensures forall r :: r in outbox && IsWaiting(outbox[r], producer, now) && r !in locked && r !in ids ==>
                |ids| == 64 && forall i :: 0 <= i < |ids| ==> ids[i] < r
    {
      ids := [];
      var rest := set r | r in outbox && Eligible(outbox, producer, now, locked, r);
      while rest != {} && |ids| < BATCH_SIZE
        invariant |ids| <= BATCH_SIZE && Increasing(ids)
        invariant forall r :: Eligible(outbox, producer, now, locked, r) <==> r in ids || r in rest
        invariant forall i, r :: 0 <= i < |ids| && r in rest ==> ids[i] < r
        decreases |rest|
      {
        ghost var least := LeastExists(rest);
        var r :| r in rest && forall q :: q in rest ==> r <= q;
        ids := ids + [r];
        rest := rest - {r};
      }
    }

    /** `_record_failure` */
    method RecordFailure(row: Row, at: Millis, text: string) returns (row': Row)
      ensures Treated(row, Refused(at, text), row')
      ensures row'.attempts == row.attempts + 1 && row'.error.Some? && (row'.error.value.MaxAttempts? <==> row.attempts + 1 >= 50)
      ensures row'.nextAttempt == at + Min(100 * Pow2(row.attempts + 1), 60000) && !Due(row', at)
      ensures row.published.None? ==> (row.attempts + 1 < 50 <==> Due(row', at + 60000))
      ensures BudgetOk(row) && row.attempts < MAX_ATTEMPTS ==> BudgetOk(row')
    {
      BackoffIsExponential(row.attempts + 1);
      var attempts := row.attempts + 1;
      var error := if attempts >= MAX_ATTEMPTS then MaxAttempts else Message(text);
      row' := row.(attempts := attempts, nextAttempt := at + BackoffMs(attempts), error := Some(error));
    }

    /** One row of the batch: the XADD, and what the transaction writes to the row. */
    method RelayRow(r: RowId, work: map<RowId, Row>, a: Reply) returns (row': Row)
      requires r in work
      modifies this`streams
      ensures streams == if Adds(a) then XAdd(old(streams), work[r].stream, r) else old(streams)
      ensures Treated(work[r], a, row')
    {
      row' := work[r];
      if Adds(a) {
        streams := XAdd(streams, work[r].stream, r);
      }
      if a.Added? {
        row' := row'.(published := Some(a.at));
      } else if a.Refused? {
        row' := RecordFailure(work[r], a.at, a.text);
      }
    }

    /** `_drain_batch`: the rows handled are those up to the first at which Redis is unreachable or the transaction
        fails. Exactly the added ones are marked, a refused one is postponed, all others are untouched; without a
        commit the whole table is untouched. Each stream grows by its added rows in id order. */
    method DrainBatch(now: Millis, locked: set<RowId>, reply: map<RowId, Reply>, commits: bool)
        returns (drained: nat, ids: seq<RowId>, n: nat, committed: bool)
      requires Valid() && outbox.Keys <= reply.Keys
      modifies this
      ensures Valid()
      ensures Selected(old(outbox), producer, now, locked, ids) && Handled(ids, reply, n)
      ensures forall i :: 0 <= i < |ids| ==> ids[i] in old(outbox)
      ensures committed == (commits && !(n > 0 && reply[ids[n - 1]].Fails?))
      ensures Extended(old(outbox), old(streams), ids[..n], reply, streams)
      ensures if committed then Worked(old(outbox), ids[..n], reply, outbox) else outbox == old(outbox)
      ensures committed ==> drained == CountAdded(ids[..n], reply)
      ensures accidents == Accidents(old(accidents), ids[..n], reply, committed)
      ensures redisUnavailable == if ids == [] then old(redisUnavailable) else reply[ids[n - 1]].Unreachable?
      ensures forall r :: r in ids ==> IsWaiting(old(outbox)[r], producer, now) && r !in locked
      ensures n < |ids| ==> n > 0 && (reply[ids[n - 1]].Unreachable? || reply[ids[n - 1]].Fails?)
      ensures forall i :: 0 <= i < n - 1 ==> reply[ids[i]].Added? || reply[ids[i]].Refused?
      ensures committed ==> outbox.Keys == old(outbox.Keys) && forall r :: r in old(outbox) ==>
                RowAfter(old(outbox)[r], if r in ids[..n] then Some(reply[r]) else None, outbox[r])
    {
      hide Treated, Extended, Worked, Accounted, Selected, AddedTo, XAdd, StreamOf, Adds, CountAdded, BudgetOk, Accidents;
      ids := SelectBatch(now, locked);
      SelectedFacts(outbox, producer, now, locked, ids);
      ghost var before := streams;
      var work: map<RowId, Row>;
      drained, n, work := RelayRows(ids, reply);
      committed := commits && !(n > 0 && reply[ids[n - 1]].Fails?);
      StopsFact(ids, reply, n);
      RowsAfter(outbox, ids[..n], reply, work);
      BatchAccounted(outbox, before, accidents, ids[..n], reply, committed, if committed then work else outbox, streams);
      outbox := if committed then work else outbox;
      accidents := Accidents(accidents, ids[..n], reply, committed);
    }

    /** The loop over the selected rows. */
    method RelayRows(ids: seq<RowId>, reply: map<RowId, Reply>) returns (drained: nat, n: nat, work: map<RowId, Row>)
      requires Increasing(ids) && forall i :: 0 <= i < |ids| ==> ids[i] in reply && ids[i] in outbox
      modifies this`streams, this`redisUnavailable
      ensures Handled(ids, reply, n) && drained == CountAdded(ids[..n], reply)
      ensures Extended(outbox, old(streams), ids[..n], reply, streams) && Worked(outbox, ids[..n], reply, work)
      ensures redisUnavailable == if ids == [] then old(redisUnavailable) else reply[ids[n - 1]].Unreachable?
    {
      hide Treated, Extended, Worked, CountAdded, AddedTo, XAdd, StreamOf, Adds;
      var stopped := false;
      NothingDone(outbox, streams, reply);
      assert ids[..0] == [];
      drained, n, work := 0, 0, outbox;
      if ids != [] {
        redisUnavailable := false;
      }
      while n < |ids| && !stopped
        invariant n <= |ids| && (stopped ==> n > 0 && Stops(reply[ids[n - 1]]))
        invariant forall i :: 0 <= i < n && (i < n - 1 || !stopped) ==> !Stops(reply[ids[i]])
        invariant Extended(outbox, old(streams), ids[..n], reply, streams)
        invariant Worked(outbox, ids[..n], reply, work)
        invariant drained == CountAdded(ids[..n], reply)
        invariant redisUnavailable == if ids == [] then old(redisUnavailable) else n > 0 && reply[ids[n - 1]].Unreachable?
        decreases |ids| - n
      {
        var r := ids[n];
        CountNext(ids, n, reply);
        ExtendedNext(outbox, old(streams), ids[..n], r, reply, streams);
        WorkedNext(outbox, ids, n, reply, work);
        assert ids[..n + 1] == ids[..n] + [r];
        var row := RelayRow(r, work, reply[r]);
        work := work[r := row];
        drained := if reply[r].Added? then drained + 1 else drained;
        redisUnavailable := reply[r].Unreachable?;
        stopped := Stops(reply[r]);
        n := n + 1;
      }
    }
  }
}
