/** All sessions together: each step belongs to one session, or creates one. */
module World {
  import opened Options
  import opened Lifecycle
  import opened Durable
  import opened DurableInvariant
  import opened DurableSteps
  import opened DurableRuns

  type SessionId = nat
  type State = map<SessionId, Slice>

  datatype Event = Created(sid: SessionId, host: Host) | Acted(sid: SessionId, action: Action)

  /** An idempotency key is a fresh UUID: no session has used it before. */
  ghost predicate Occurs(w: State, e: Event, w': State) {
    match e
    case Created(sid, host) => sid !in w && w' == w[sid := NewSession(host)]
    case Acted(sid, a) =>
      && sid in w && sid in w' && Step(w[sid], a, w'[sid]) && w' == w[sid := w'[sid]]
      && (a.Enqueue? ==> forall other :: other in w ==> a.key !in w[other].sent)
  }

  ghost predicate WorldRun(ws: seq<State>, es: seq<Event>) {
    && |ws| == |es| + 1 && ws[0] == map[]
    && forall i :: 0 <= i < |es| ==> Occurs(ws[i], es[i], ws[i + 1])
  }

  /** What session `sid` does at an event. */
  ghost function ActionOf(e: Event, sid: SessionId): Option<Action> {
    if e.Acted? && e.sid == sid then Some(e.action) else None
  }

  /** The history of one session that was created by event `start`. */
  ghost function History(ws: seq<State>, sid: SessionId, start: nat): seq<Slice>
    requires start < |ws| && forall i :: start < i < |ws| ==> sid in ws[i]
  {
    seq(|ws| - start - 1, i requires 0 <= i < |ws| - start - 1 => ws[start + 1 + i][sid])
  }

  ghost function Actions(es: seq<Event>, sid: SessionId, start: nat): seq<Option<Action>>
    requires start < |es|
  {
    seq(|es| - start - 1, i requires 0 <= i < |es| - start - 1 => ActionOf(es[start + 1 + i], sid))
  }

  lemma {:induction false} SessionsStay(ws: seq<State>, es: seq<Event>, sid: SessionId, i: nat, j: nat)
    requires WorldRun(ws, es) && i <= j < |ws| && sid in ws[i]
    ensures sid in ws[j]
    decreases j - i
  {
    hide Step;
    if i < j {
      SessionsStay(ws, es, sid, i, j - 1);
      assert Occurs(ws[j - 1], es[j - 1], ws[j]);
    }
  }

  /** Every session's history within a run of the whole system is a run, so all theorems of `DurableRuns` apply. */
  lemma HistoryIsRun(ws: seq<State>, es: seq<Event>, sid: SessionId, start: nat)
    requires WorldRun(ws, es) && start < |es| && es[start].Created? && es[start].sid == sid
    ensures forall i :: start < i < |ws| ==> sid in ws[i]
    ensures Run(History(ws, sid, start), Actions(es, sid, start))
  {
    hide Step;
    assert Occurs(ws[start], es[start], ws[start + 1]);
    forall i | start < i < |ws| ensures sid in ws[i] {
      SessionsStay(ws, es, sid, start + 1, i);
    }
    var ss, acts := History(ws, sid, start), Actions(es, sid, start);
    assert ss[0] == NewSession(es[start].host);
    forall i | 0 <= i < |acts| ensures Next(ss[i], acts[i], ss[i + 1]) {
      assert ss[i] == ws[start + 1 + i][sid] && ss[i + 1] == ws[start + 2 + i][sid];
      assert acts[i] == ActionOf(es[start + 1 + i], sid);
      assert Occurs(ws[start + 1 + i], es[start + 1 + i], ws[start + 2 + i]);
    }
  }

  ghost predicate WorldInv(w: State) {
    && (forall sid :: sid in w ==> Inv(w[sid]))
    && (forall a, b, k :: a in w && b in w && k in w[a].sent && k in w[b].sent ==> a == b)
  }

  lemma SentGrowsByEnqueue(s: Slice, a: Action, s': Slice)
    requires Step(s, a, s')
    ensures s'.sent == s.sent || (a.Enqueue? && s'.sent.Keys == s.sent.Keys + {a.key})
  {
    hide WriteRow, UpsertExecuting, End, Return, SetPc, NoNewExecution, KeepsStatuses;
    hide StepBegin, StepBeginResume, StepReadResuming, StepPublish, StepRefuse, StepSweepOutbox, StepDeliver, StepTrimEntry,
         StepSweepResult, StepFetch, StepTryLock, StepReadRow, StepReadTurn, StepReadEarliest, StepMarkUncertain,
         StepPostUncertain, StepMarkAborted, StepPostDenied, StepPostReply, StepMarkTurn, StepAck, StepAdmitTurn,
         StepComplete, StepEnqueue, StepEndCreate, StepFailResume, StepCommitResume, StepFailRecover, Standalone;
    match a
    case AdmitTurn(tid) => AdmitSendsNothing(s, tid, s');
    case Complete(tid, reply, token) => CompleteSendsNothing(s, tid, reply, token, s');
    case Enqueue(key, seqno, rid, text) => EnqueueSendsItsKey(s, key, seqno, rid, text, s');
    case Lifecycle(_) =>
    case EndCreate(_, _) =>
    case FailResume(_, _) =>
    case CommitResume(_, _) =>
    case FailRecover(_, _) =>
    case _ => StepReadsRow(s, a, s');
  }

  lemma EnqueueSendsItsKey(s: Slice, key: Key, seqno: nat, rid: RowId, text: string, s': Slice)
    requires StepEnqueue(s, key, seqno, rid, text, s')
    ensures s'.sent.Keys == s.sent.Keys + {key}
  {
    hide WriteRow;
  }

  lemma AdmitSendsNothing(s: Slice, tid: TaskId, s': Slice)
    requires StepAdmitTurn(s, tid, s')
    ensures s'.sent == s.sent
  {
    hide WriteRow, UpsertExecuting;
  }

  lemma CompleteSendsNothing(s: Slice, tid: TaskId, reply: string, token: Option<Token>, s': Slice)
    requires StepComplete(s, tid, reply, token, s')
    ensures s'.sent == s.sent
  {
    hide WriteRow;
  }

  lemma OccursKeepsInv(w: State, e: Event, w': State)
    requires WorldInv(w) && Occurs(w, e, w')
    ensures WorldInv(w')
  {
    hide Inv, Step;
    match e
    case Created(sid, host) => InvInitially(host);
    case Acted(sid, a) =>
      StepKeepsInv(w[sid], a, w'[sid]);
      SentGrowsByEnqueue(w[sid], a, w'[sid]);
  }

  lemma {:induction false} WorldRunKeepsInv(ws: seq<State>, es: seq<Event>, i: nat)
    requires WorldRun(ws, es) && i < |ws|
    ensures WorldInv(ws[i])
  {
    hide Inv, Step;
    if i > 0 {
      WorldRunKeepsInv(ws, es, i - 1);
      assert Occurs(ws[i - 1], es[i - 1], ws[i]);
      OccursKeepsInv(ws[i - 1], es[i - 1], ws[i]);
    }
  }

  lemma LoggedKeysWereSent(s: Slice, m: nat)
    requires Inv(s) && m < |s.log|
    ensures s.log[m].key in s.sent
    ensures forall n :: 0 <= n < |s.log| && s.log[n].key == s.log[m].key ==> n == m
  {
    hide Ledger, Chained, EnvelopesOk, NotLost, TasksOk, PostsOk;
  }

  /** At most once, for the whole system: no idempotency key is executed twice, in any session. */
  lemma KeysExecuteOnce(ws: seq<State>, es: seq<Event>, i: nat, a: SessionId, m: nat, b: SessionId, n: nat)
    requires WorldRun(ws, es) && i < |ws| && a in ws[i] && b in ws[i] && m < |ws[i][a].log| && n < |ws[i][b].log|
    requires ws[i][a].log[m].key == ws[i][b].log[n].key
    ensures a == b && m == n
  {
    hide Inv, Step;
    WorldRunKeepsInv(ws, es, i);
    LoggedKeysWereSent(ws[i][a], m);
    LoggedKeysWereSent(ws[i][b], n);
  }
}
