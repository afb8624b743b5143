/**
 The inductive invariant of the durable turn protocol, and the proof that every action keeps it.

 The invariant is a conjunction of small predicates, each over the few components it concerns:
 `Ledger`, `Logged`, `SentOk`, `EnvelopesOk`, `Chained`, `TaskOk`, `NotLost` and `PostsOk`.
 */
module DurableInvariant {
  import opened Options
  import opened Lifecycle
  import opened Durable

  // ---- The ledger and the execution log --------------------------------------------------

  ghost predicate Ledger(turns: map<Key, Turn>, nextSeq: nat) {
    && (forall k :: k in turns ==> turns[k].seqno < nextSeq)
    && (forall k, k' :: k in turns && k' in turns && turns[k].seqno == turns[k'].seqno ==> k == k')
  }

  /** What the ledger says of a turn that was executed. */
  ghost predicate Recorded(t: Turn, x: Exec) {
    && t.version == x.version && t.seqno == x.seqno
    && match t.status
       case Executing => x.result.None?
       case Uncertain => x.result.None?
       case Completed => x.result.Some? && t.result == Some(x.result.value.reply)
       case Delivered => x.result.Some?
       case DeliveryFailed => x.result.Some?
       case _ => false
  }

  ghost predicate InLog(log: seq<Exec>, k: Key) {
    exists i :: 0 <= i < |log| && log[i].key == k
  }

  /** Every turn of version `v` with a smaller sequence number has been retired. */
  ghost predicate EarlierRetired(turns: map<Key, Turn>, v: nat, seqno: nat) {
    forall k :: k in turns && turns[k].version == v && turns[k].seqno < seqno ==> Terminal(turns[k].status)
  }

  ghost predicate Logged(turns: map<Key, Turn>, log: seq<Exec>) {
    && (forall i :: 0 <= i < |log| ==> log[i].key in turns && Recorded(turns[log[i].key], log[i]))
    && (forall i, j :: 0 <= i < j < |log| ==> log[i].key != log[j].key)
    && (forall i, j :: 0 <= i < j < |log| && log[i].version == log[j].version ==> log[i].seqno < log[j].seqno)
    && (forall i :: 0 <= i < |log| ==> EarlierRetired(turns, log[i].version, log[i].seqno))
    && (forall k :: k in turns && !turns[k].status.Queued? && !turns[k].status.Aborted? ==> InLog(log, k))
  }

  // ---- Envelopes ------------------------------------------------------------------------

  /** Version `v` has been live at some time. */
  ghost predicate EraBegun(r: Row, v: nat) {
    v < r.version || (v == r.version && (Live(r) || Dead(r)))
  }

  ghost predicate SentOk(row: Row, turns: map<Key, Turn>, sent: map<Key, Envelope>) {
    && sent.Keys == turns.Keys
    && (forall k :: k in sent ==>
          && sent[k].key == k && sent[k].version == turns[k].version && sent[k].host == row.host
          && EraBegun(row, sent[k].version))
    && (row.status.Creating? ==> sent == map[])
  }

  ghost predicate Known(sent: map<Key, Envelope>, e: Envelope) {
    e.key in sent && sent[e.key] == e
  }

  ghost predicate EnvelopesOk(sent: map<Key, Envelope>, outbox: map<RowId, OutboxRow>, stream: map<MsgId, Entry>, lastId: MsgId) {
    && (forall r :: r in outbox ==> Known(sent, outbox[r].envelope))
    && (forall m :: m in stream ==> Known(sent, stream[m].envelope) && m <= lastId)
  }

  // ---- The token chain ------------------------------------------------------------------

  /** The resume token after the first `n` executions of the log, for era `v` starting at `start`:
      each execution of that era replaces it when it returned a token. */
  ghost function Chain(start: Option<Token>, log: seq<Exec>, n: nat, v: nat): Option<Token>
    requires n <= |log|
  {
    if n == 0 then start
    else
      var before := Chain(start, log, n - 1, v);
      if log[n - 1].version == v && log[n - 1].result.Some?
      then Coalesce(log[n - 1].result.value.token, before) else before
  }

  ghost predicate Chained(row: Row, eraStart: map<nat, Option<Token>>, log: seq<Exec>) {
    && (forall v :: v in eraStart ==> EraBegun(row, v))
    && (forall i :: 0 <= i < |log| ==>
          log[i].version in eraStart && log[i].token == Chain(eraStart[log[i].version], log, i, log[i].version))
    && (Live(row) ==>
          row.version in eraStart && row.token == Chain(eraStart[row.version], log, |log|, row.version))
  }

  lemma {:induction false} ChainPrefix(start: Option<Token>, log: seq<Exec>, log': seq<Exec>, n: nat, v: nat)
    requires n <= |log| && n <= |log'|
    requires forall i :: 0 <= i < n ==> log[i] == log'[i]
    ensures Chain(start, log, n, v) == Chain(start, log', n, v)
  {
    if n > 0 {
      ChainPrefix(start, log, log', n - 1, v);
    }
  }

  /** An era that has executed nothing still has its starting token. */
  lemma {:induction false} ChainFresh(start: Option<Token>, log: seq<Exec>, n: nat, v: nat)
    requires n <= |log|
    requires forall i :: 0 <= i < n ==> log[i].version != v
    ensures Chain(start, log, n, v) == start
  {
    if n > 0 {
      ChainFresh(start, log, n - 1, v);
    }
  }

  // ---- Acknowledgement and loss -----------------------------------------------------------

  /** The turn needs no further delivery: it is retired, uncertain, or of an era that is over. */
  ghost predicate Settled(row: Row, turns: map<Key, Turn>, k: Key) {
    && k in turns
    && (Terminal(turns[k].status) || turns[k].status.Uncertain? || Over(row, turns[k].version))
  }

  ghost predicate Unpublished(outbox: map<RowId, OutboxRow>, k: Key) {
    exists r :: r in outbox && !outbox[r].published && outbox[r].envelope.key == k
  }

  ghost predicate Unacked(stream: map<MsgId, Entry>, k: Key) {
    exists m :: m in stream && !stream[m].delivery.Acked? && stream[m].envelope.key == k
  }

  ghost predicate NotLost(s: Slice) {
    forall k :: k in s.turns ==> Settled(s.row, s.turns, k) || Unpublished(s.outbox, k) || Unacked(s.stream, k)
  }

  // ---- Tasks ------------------------------------------------------------------------------

  /** A token read while the session was live at `v` is still the session's token if it is live at `v` now. */
  ghost predicate Current(row: Row, v: nat, token: Option<Token>) {
    EraBegun(row, v) && (LiveAt(row, v) ==> row.token == token)
  }

  /** The ledger row as read earlier still says what the ledger says. */
  ghost predicate Fresh(turns: map<Key, Turn>, k: Key, t: Turn) {
    && k in turns && t.status == turns[k].status && t.version == turns[k].version && t.seqno == turns[k].seqno
    && (t.status.Completed? ==> t.result == turns[k].result)
  }

  ghost predicate PcOk(s: Slice, e: Envelope, pc: InputPc)
    requires e.key in s.turns
  {
    var t := s.turns[e.key];
    match pc
    case Fetched => true
    case Locked => true
    case SawRow(token) => Current(s.row, e.version, token)
    case SawTurn(token, turn) => Current(s.row, e.version, token) && turn.Some? && Fresh(s.turns, e.key, turn.value)
    case Interrupted => t.status.Executing? || t.status.Uncertain?
    case NoticeUncertain => t.status.Uncertain?
    case Denied => t.status.Queued?
    case NoticeDenied => t.status.Aborted?
    case Admitting(token) =>
      Current(s.row, e.version, token) && t.status.Queued? && EarlierRetired(s.turns, e.version, t.seqno)
    case InExecution =>
      && t.status.Executing? && |s.log| > 0
      && s.log[|s.log| - 1].key == e.key && s.log[|s.log| - 1].version == e.version
    case Posting(reply) => t.status.Completed? && reply == t.result
    case Marking(status) => t.status.Completed? && (status.Delivered? || status.DeliveryFailed?)
    case Returned => Settled(s.row, s.turns, e.key)
  }

  ghost predicate TaskOk(s: Slice, tid: TaskId)
    requires tid in s.tasks
  {
    && (HoldsLock(s.tasks[tid]) ==> s.lock == Some(tid))
    && match s.tasks[tid]
       case Input(mid, e, pc) =>
         && e.key in s.turns && Known(s.sent, e) && PcOk(s, e, pc)
         && mid <= s.lastId && (mid in s.stream ==> s.stream[mid].envelope == e)
       case Resuming(v, _, token) =>
         v <= s.row.version && (s.row.version == v && s.row.status.Resuming? ==> s.row.token == token)
       case _ => true
  }

  ghost predicate TasksOk(s: Slice) {
    forall tid :: tid in s.tasks ==> TaskOk(s, tid)
  }

  // ---- Posts ------------------------------------------------------------------------------

  /** Some execution of turn `k` returned exactly `text`. */
  ghost predicate Produced(log: seq<Exec>, k: Key, text: Option<string>) {
    exists i :: 0 <= i < |log| && log[i].key == k && log[i].result.Some? && Some(log[i].result.value.reply) == text
  }

  ghost predicate PostsOk(posts: seq<Post>, log: seq<Exec>) {
    forall p :: 0 <= p < |posts| && posts[p].Reply? ==> Produced(log, posts[p].key, posts[p].text)
  }

  // ---- The invariant ------------------------------------------------------------------------

  ghost predicate Inv(s: Slice) {
    && Ledger(s.turns, s.nextSeq)
    && Logged(s.turns, s.log)
    && SentOk(s.row, s.turns, s.sent)
    && EnvelopesOk(s.sent, s.outbox, s.stream, s.lastId)
    && Chained(s.row, s.eraStart, s.log)
    && TasksOk(s)
    && NotLost(s)
    && PostsOk(s.posts, s.log)
  }

  lemma InvInitially(host: Host)
    ensures Inv(NewSession(host))
  {}

  // ---- Building blocks ------------------------------------------------------------------------

  lemma SettledForever(row: Row, row': Row, turns: map<Key, Turn>, k: Key)
    requires Evolves(row, row') && Settled(row, turns, k)
    ensures Settled(row', turns, k)
  {}

  lemma EvolvesKeepsSent(row: Row, row': Row, turns: map<Key, Turn>, sent: map<Key, Envelope>)
    requires Evolves(row, row') && SentOk(row, turns, sent)
    ensures SentOk(row', turns, sent)
  {}

  lemma EvolvesKeepsTask(s: Slice, s': Slice, tid: TaskId)
    requires tid in s.tasks && TaskOk(s, tid)
    requires s' == s.(row := s'.row, eraStart := s'.eraStart)
    requires Evolves(s.row, s'.row) && KeepsToken(s.row, s'.row)
    ensures TaskOk(s', tid)
  {
    match s.tasks[tid]
    case Input(_, e, pc) =>
      if pc.Returned? {
        SettledForever(s.row, s'.row, s.turns, e.key);
      }
    case _ =>
  }

  lemma EvolvesKeepsChain(row: Row, row': Row, eraStart: map<nat, Option<Token>>, log: seq<Exec>)
    requires Evolves(row, row') && KeepsToken(row, row') && Chained(row, eraStart, log)
    requires Live(row') ==> row'.version == row.version
    ensures Chained(row', if Live(row') && !Live(row) then eraStart[row'.version := row'.token] else eraStart, log)
  {
    if Live(row') && !Live(row) {
      assert row.version !in eraStart;
      forall i | 0 <= i < |log| ensures log[i].version != row'.version {}
      ChainFresh(row'.token, log, |log|, row'.version);
    }
  }

  /** Row writes other than the completion of a turn. */
  lemma WriteRowKeepsInv(s: Slice, w: Write)
    requires Inv(s) && !w.SaveToken?
    ensures Inv(WriteRow(s, w))
  {
    var s' := WriteRow(s, w);
    var busy := Busy(s.turns, s.row.version);
    UpdateEvolves(s.row, busy, w);
    UpdateKeepsToken(s.row, busy, w);
    assert Live(s'.row) ==> s'.row.version == s.row.version by { LiveKeepsVersion(s.row, busy, w); }
    EvolvesKeepsAll(s, s');
  }

  lemma LiveKeepsVersion(r: Row, busy: bool, w: Write)
    ensures Live(Update(r, busy, w)) ==> Update(r, busy, w).version == r.version
  {}

  lemma EvolvesKeepsAll(s: Slice, s': Slice)
    requires Inv(s)
    requires Evolves(s.row, s'.row) && KeepsToken(s.row, s'.row) && (Live(s'.row) ==> s'.row.version == s.row.version)
    requires s' == s.(row := s'.row,
                      eraStart := if Live(s'.row) && !Live(s.row) then s.eraStart[s'.row.version := s'.row.token]
                                  else s.eraStart)
    ensures Inv(s')
  {
    EvolvesKeepsSent(s.row, s'.row, s.turns, s.sent);
    EvolvesKeepsChain(s.row, s'.row, s.eraStart, s.log);
    forall tid | tid in s'.tasks ensures TaskOk(s', tid) {
      EvolvesKeepsTask(s, s', tid);
    }
    forall k | k in s.turns && Settled(s.row, s.turns, k) ensures Settled(s'.row, s.turns, k) {
      SettledForever(s.row, s'.row, s.turns, k);
    }
  }

  /** A task's own obligations do not mention the other tasks. */
  lemma TaskOkLocal(s: Slice, s': Slice, tid: TaskId)
    requires tid in s.tasks && TaskOk(s, tid) && tid in s'.tasks && s'.tasks[tid] == s.tasks[tid]
    requires s' == s.(tasks := s'.tasks, lock := s'.lock, posts := s'.posts)
    requires s.lock == Some(tid) ==> s'.lock == s.lock
    ensures TaskOk(s', tid)
  {}

  lemma PcOkLocal(s: Slice, s': Slice, e: Envelope, pc: InputPc)
    requires e.key in s.turns && PcOk(s, e, pc)
    requires s'.row == s.row && s'.turns == s.turns && s'.log == s.log
    ensures PcOk(s', e, pc)
  {}

  lemma TasksOnlyKeepsInv(s: Slice, s': Slice, tid: TaskId)
    requires Inv(s) && s' == s.(tasks := s'.tasks, lock := s'.lock)
    requires s'.tasks.Keys - {tid} <= s.tasks.Keys
    requires forall t :: t in s'.tasks && t != tid ==> s'.tasks[t] == s.tasks[t]
    requires s'.lock == s.lock || s.lock == None || s.lock == Some(tid)
    requires tid in s'.tasks ==> TaskOk(s', tid)
    ensures Inv(s')
  {
    forall t | t in s'.tasks && t != tid ensures TaskOk(s', t) {
      assert TaskOk(s, t);
      TaskOkLocal(s, s', t);
    }
  }

  lemma EndKeepsInv(s: Slice, tid: TaskId)
    requires Inv(s)
    ensures Inv(End(s, tid))
  {
    TasksOnlyKeepsInv(s, End(s, tid), tid);
  }

  lemma SetPcKeepsInv(s: Slice, tid: TaskId, pc: InputPc)
    requires Inv(s) && At(s, tid) && s.lock == Some(tid)
    requires s.tasks[tid].envelope.key in s.turns && PcOk(s, s.tasks[tid].envelope, pc)
    ensures Inv(SetPc(s, tid, pc))
  {
    assert TaskOk(s, tid);
    var s' := SetPc(s, tid, pc);
    PcOkLocal(s, s', s.tasks[tid].envelope, pc);
    assert TaskOk(s', tid);
    TasksOnlyKeepsInv(s, s', tid);
  }

  lemma ReturnKeepsInv(s: Slice, tid: TaskId, o: Outcome)
    requires Inv(s) && At(s, tid)
    requires !o.Deferred? ==> Settled(s.row, s.turns, s.tasks[tid].envelope.key)
    ensures Inv(Return(s, tid, o))
  {
    assert TaskOk(s, tid);
    TasksOnlyKeepsInv(s, Return(s, tid, o), tid);
  }

  lemma NewTaskKeepsInv(s: Slice, tid: TaskId, t: Task, locked: bool)
    requires Inv(s) && tid !in s.tasks
    requires locked ==> s.lock.None?
    requires HoldsLock(t) ==> locked
    requires match t
             case Input(mid, e, pc) =>
               Known(s.sent, e) && pc.Fetched? && mid <= s.lastId && (mid in s.stream ==> s.stream[mid].envelope == e)
             case Resuming(_, _, _) => false
             case _ => true
    ensures Inv(SetTask(s, tid, t).(lock := if locked then Some(tid) else s.lock))
  {
    TasksOnlyKeepsInv(s, SetTask(s, tid, t).(lock := if locked then Some(tid) else s.lock), tid);
  }
}
