/**
 The consumer loops of the job streams: every entry is read by one of several consumer processes, handled, and
 acknowledged or retained as a dead letter; what is left pending is claimed again later.

 The runner's loop counts its own attempts per message and the dispatcher's relies on the server's delivery count,
 which reads as zero when it cannot be had; `countsLocally` tells the two apart.
 */
module JobConsumer {
  import opened Options

  type ProcessId = nat
  type MessageId = nat

  datatype Place = Unread | Pending | Acked

  /** A stream entry with the group's view of it; `deliveries` is the server's count. */
  datatype Entry = Entry(place: Place, deliveries: nat)

  datatype Pc =
    | Idle
    | Handling(mid: MessageId)
    | Handled(mid: MessageId)        // the handler returned true; the XACK is next
    | Failed(mid: MessageId)         // it returned false or raised; the budget is checked next
    | Exhausted(mid: MessageId, attempts: nat) // the dead letter is next

  /** One consumer process, with the history of what it did to each message. */
  datatype Consumer = Consumer(
    batch: seq<MessageId>,
    pc: Pc,
    local: map<MessageId, nat>,
    succeeded: set<MessageId>,
    runs: map<MessageId, nat>,
    lostDeadLetters: map<MessageId, nat>,
    misread: map<MessageId, nat>)    // counts that read as zero while the entry was pending

  datatype State = State(
    maxDeliveries: nat,
    countsLocally: bool,
    entries: map<MessageId, Entry>,
    dead: map<MessageId, nat>,       // the dead-letter hash, with the attempts recorded
    everSucceeded: set<MessageId>,   // a handler somewhere has returned true for it
    consumers: map<ProcessId, Consumer>)

  /** A Redis call: it returns, or raises with or without having taken effect. */
  datatype Call = Returns | Raises(effect: bool)

  datatype Action =
    | Append(mid: MessageId)
    | Join(p: ProcessId)
    | Crash(p: ProcessId)
    | Deliver(p: ProcessId, mid: MessageId)    // XREADGROUP or XAUTOCLAIM
    | Start(p: ProcessId)
    | Finish(p: ProcessId, handled: bool)
    | Ack(p: ProcessId, call: Call)
    | Count(p: ProcessId, reading: nat)
    | DeadLetter(p: ProcessId, call: Call)

  function Get(m: map<MessageId, nat>, mid: MessageId): nat {
    if mid in m then m[mid] else 0
  }

  function Inc(m: map<MessageId, nat>, mid: MessageId): map<MessageId, nat> {
    m[mid := Get(m, mid) + 1]
  }

  function Max(a: nat, b: nat): nat {
    if a >= b then a else b
  }

  function NewConsumer(): Consumer {
    Consumer([], Idle, map[], {}, map[], map[], map[])
  }

  function WithConsumer(s: State, p: ProcessId, c: Consumer): State {
    s.(consumers := s.consumers[p := c])
  }

  /** XACK of an entry; one that is not pending is left alone. */
  function AckEntry(entries: map<MessageId, Entry>, mid: MessageId): map<MessageId, Entry> {
    if mid in entries && entries[mid].place.Pending? then entries[mid := entries[mid].(place := Acked)] else entries
  }

  /** HSET and XACK in one MULTI. */
  function Bury(s: State, mid: MessageId, attempts: nat): State {
    s.(entries := AckEntry(s.entries, mid), dead := s.dead[mid := attempts])
  }

  predicate Distinct(batch: seq<MessageId>) {
    forall i, j :: 0 <= i < j < |batch| ==> batch[i] != batch[j]
  }

  predicate Initial(s: State) {
    s.entries == map[] && s.dead == map[] && s.everSucceeded == {} && s.consumers == map[]
  }

  ghost predicate StepDeliver(s: State, p: ProcessId, mid: MessageId, s': State) {
    && p in s.consumers && s.consumers[p].pc.Idle? && mid !in s.consumers[p].batch
    && mid in s.entries && !s.entries[mid].place.Acked?
    && var c := s.consumers[p];
       s' == WithConsumer(s, p, c.(batch := c.batch + [mid]))
             .(entries := s.entries[mid := Entry(Pending, s.entries[mid].deliveries + 1)])
  }

  ghost predicate StepStart(s: State, p: ProcessId, s': State) {
    && p in s.consumers && s.consumers[p].pc.Idle? && s.consumers[p].batch != []
    && var c := s.consumers[p];
       var mid := c.batch[0];
       s' == WithConsumer(s, p, c.(batch := c.batch[1..], pc := Handling(mid), local := Inc(c.local, mid), runs := Inc(c.runs, mid)))
  }

  ghost predicate StepFinish(s: State, p: ProcessId, handled: bool, s': State) {
    && p in s.consumers && s.consumers[p].pc.Handling?
    && var c := s.consumers[p];
       var mid := c.pc.mid;
       s' == if handled
             then WithConsumer(s, p, c.(pc := Handled(mid), succeeded := c.succeeded + {mid}))
                  .(everSucceeded := s.everSucceeded + {mid})
             else WithConsumer(s, p, c.(pc := Failed(mid)))
  }

  /** The local count is forgotten only when the XACK has returned. */
  ghost predicate StepAck(s: State, p: ProcessId, call: Call, s': State) {
    && p in s.consumers && s.consumers[p].pc.Handled?
    && var c := s.consumers[p];
       var mid := c.pc.mid;
       s' == WithConsumer(s, p, c.(pc := Idle, local := if call.Returns? then c.local - {mid} else c.local))
             .(entries := if call.Returns? || call.effect then AckEntry(s.entries, mid) else s.entries)
  }

  /** The server's count is the number of deliveries while the entry is pending; otherwise, and on any error, zero. */
  ghost predicate StepCount(s: State, p: ProcessId, reading: nat, s': State) {
    && p in s.consumers && s.consumers[p].pc.Failed?
    && var c := s.consumers[p];
       var mid := c.pc.mid;
       var pending := mid in s.entries && s.entries[mid].place.Pending?;
       && (reading == 0 || (pending && reading == s.entries[mid].deliveries))
       && var attempts := Max(if s.countsLocally then Get(c.local, mid) else 0, reading);
          var c' := c.(misread := if pending && reading == 0 then Inc(c.misread, mid) else c.misread);
          s' == WithConsumer(s, p, c'.(pc := if attempts >= s.maxDeliveries then Exhausted(mid, attempts) else Idle))
  }

  ghost predicate StepDeadLetter(s: State, p: ProcessId, call: Call, s': State) {
    && p in s.consumers && s.consumers[p].pc.Exhausted?
    && var c := s.consumers[p];
       var mid := c.pc.mid;
       var m := if call.Returns? || call.effect then Bury(s, mid, c.pc.attempts) else s;
       s' == WithConsumer(m, p, if call.Returns? then c.(pc := Idle, local := c.local - {mid})
                                else c.(pc := Idle, lostDeadLetters := Inc(c.lostDeadLetters, mid)))
  }

  ghost predicate Step(s: State, a: Action, s': State) {
    match a
    case Append(mid) => mid !in s.entries && s' == s.(entries := s.entries[mid := Entry(Unread, 0)])
    case Join(p) => p !in s.consumers && s' == WithConsumer(s, p, NewConsumer())
    case Crash(p) => p in s.consumers && s' == s.(consumers := s.consumers - {p})
    case Deliver(p, mid) => StepDeliver(s, p, mid, s')
    case Start(p) => StepStart(s, p, s')
    case Finish(p, handled) => StepFinish(s, p, handled, s')
    case Ack(p, call) => StepAck(s, p, call, s')
    case Count(p, reading) => StepCount(s, p, reading, s')
    case DeadLetter(p, call) => StepDeadLetter(s, p, call, s')
  }

  // ---- The invariant --------------------------------------------------------------------------

  predicate On(pc: Pc, mid: MessageId) {
    !pc.Idle? && pc.mid == mid
  }

  /** Retries that the budget cannot prevent. */
  function Slack(s: State, c: Consumer, mid: MessageId): nat {
    Get(c.lostDeadLetters, mid) + if s.countsLocally then 0 else Get(c.misread, mid)
  }

  /** The message may still be started by this consumer. */
  predicate Open(s: State, c: Consumer, mid: MessageId) {
    mid in c.batch || (mid !in s.entries || !s.entries[mid].place.Acked?)
  }

  function Deliveries(s: State, mid: MessageId): nat {
    if mid in s.entries then s.entries[mid].deliveries else 0
  }

  /** The budget of one message in one process. */
  ghost predicate BudgetInv(s: State, c: Consumer, mid: MessageId) {
    && Get(c.runs, mid) <= Max(1, s.maxDeliveries) + Slack(s, c, mid)
    && (!On(c.pc, mid) && Open(s, c, mid) ==> Get(c.runs, mid) < Max(1, s.maxDeliveries) + Slack(s, c, mid))
    && (On(c.pc, mid) || Open(s, c, mid) ==> s.countsLocally ==> Get(c.local, mid) == Get(c.runs, mid))
    && Get(c.runs, mid) + (if mid in c.batch then 1 else 0) <= Deliveries(s, mid)
  }

  /** A process counts no attempt that was not a delivery. */
  ghost predicate CountInv(s: State, c: Consumer, mid: MessageId) {
    Get(c.local, mid) + (if mid in c.batch then 1 else 0) <= Deliveries(s, mid)
  }

  predicate WasRead(s: State, mid: MessageId) {
    mid in s.entries && !s.entries[mid].place.Unread?
  }

  ghost predicate ConsumerInv(s: State, c: Consumer) {
    && Distinct(c.batch) && (!c.pc.Idle? ==> c.pc.mid !in c.batch && WasRead(s, c.pc.mid))
    && (c.pc.Handled? ==> c.pc.mid in c.succeeded)
    && c.succeeded <= s.everSucceeded
    && (c.pc.Exhausted? ==> s.maxDeliveries <= c.pc.attempts <= Deliveries(s, c.pc.mid))
    && (forall mid :: CountInv(s, c, mid))
    && (forall mid :: mid in c.batch ==> WasRead(s, mid))
    && forall mid :: mid !in c.succeeded ==> BudgetInv(s, c, mid)
  }

  /** Nothing leaves the pending list unless it was handled or is kept as a dead letter. */
  ghost predicate EntryInv(s: State, mid: MessageId)
    requires mid in s.entries
  {
    && (s.entries[mid].place.Acked? ==> mid in s.everSucceeded || mid in s.dead)
    && (mid in s.dead ==> s.entries[mid].place.Acked? && s.maxDeliveries <= s.dead[mid] <= s.entries[mid].deliveries)
  }

  ghost predicate Inv(s: State) {
    && (forall mid :: mid in s.entries ==> EntryInv(s, mid))
    && (forall mid :: mid in s.dead ==> mid in s.entries)
    && forall p :: p in s.consumers ==> ConsumerInv(s, s.consumers[p])
  }

  // ---- Every step keeps it ----------------------------------------------------------------------

  /** Entries are only added, delivered again, and moved on. */
  ghost predicate Evolves(s: State, s': State) {
    && s'.maxDeliveries == s.maxDeliveries && s'.countsLocally == s.countsLocally && s.everSucceeded <= s'.everSucceeded
    && forall mid :: mid in s.entries ==>
         && mid in s'.entries && s'.entries[mid].deliveries >= s.entries[mid].deliveries
         && (s'.entries[mid].place.Unread? ==> s.entries[mid].place.Unread?)
         && (s.entries[mid].place.Acked? ==> s'.entries[mid].place.Acked?)
  }

  lemma StepEvolves(s: State, a: Action, s': State)
    requires Step(s, a, s')
    ensures Evolves(s, s')
  {}

  lemma BudgetKept(s: State, s': State, c: Consumer, mid: MessageId)
    requires BudgetInv(s, c, mid) && Evolves(s, s')
    ensures BudgetInv(s', c, mid)
  {}

  lemma ConsumerKept(s: State, s': State, c: Consumer)
    requires ConsumerInv(s, c) && Evolves(s, s')
    ensures ConsumerInv(s', c)
  {
    hide BudgetInv;
    forall mid | mid !in c.succeeded ensures BudgetInv(s', c, mid) {
      BudgetKept(s, s', c, mid);
    }
    forall mid ensures CountInv(s', c, mid) {
      assert CountInv(s, c, mid);
    }
  }

  lemma DeliverKeepsConsumer(s: State, p: ProcessId, mid: MessageId, s': State)
    requires StepDeliver(s, p, mid, s') && ConsumerInv(s, s.consumers[p])
    ensures ConsumerInv(s', s'.consumers[p])
  {
    var c, c' := s.consumers[p], s'.consumers[p];
    forall m | m !in c'.succeeded ensures BudgetInv(s', c', m) {
      assert BudgetInv(s, c, m);
    }
    forall m ensures CountInv(s', c', m) {
      assert CountInv(s, c, m);
    }
  }

  lemma StartKeepsConsumer(s: State, p: ProcessId, s': State)
    requires StepStart(s, p, s') && ConsumerInv(s, s.consumers[p])
    ensures ConsumerInv(s', s'.consumers[p])
  {
    var c, c' := s.consumers[p], s'.consumers[p];
    assert c.batch[0] in c.batch && c.batch[0] !in c'.batch;
    assert forall m :: m in c.batch <==> m in c'.batch || m == c.batch[0];
    forall m | m !in c'.succeeded ensures BudgetInv(s', c', m) {
      assert BudgetInv(s, c, m);
    }
    forall m ensures CountInv(s', c', m) {
      assert CountInv(s, c, m);
    }
  }

  lemma FinishKeepsConsumer(s: State, p: ProcessId, handled: bool, s': State)
    requires StepFinish(s, p, handled, s') && ConsumerInv(s, s.consumers[p])
    ensures ConsumerInv(s', s'.consumers[p])
  {
    var c, c' := s.consumers[p], s'.consumers[p];
    forall m | m !in c'.succeeded ensures BudgetInv(s', c', m) {
      assert BudgetInv(s, c, m);
    }
    forall m ensures CountInv(s', c', m) {
      assert CountInv(s, c, m);
    }
  }

  lemma AckKeepsConsumer(s: State, p: ProcessId, call: Call, s': State)
    requires StepAck(s, p, call, s') && ConsumerInv(s, s.consumers[p])
    ensures ConsumerInv(s', s'.consumers[p])
  {
    var c, c' := s.consumers[p], s'.consumers[p];
    forall m | m !in c'.succeeded ensures BudgetInv(s', c', m) {
      assert BudgetInv(s, c, m);
    }
    forall m ensures CountInv(s', c', m) {
      assert CountInv(s, c, m);
    }
  }

  lemma CountKeepsConsumer(s: State, p: ProcessId, reading: nat, s': State)
    requires StepCount(s, p, reading, s') && ConsumerInv(s, s.consumers[p])
    ensures ConsumerInv(s', s'.consumers[p])
  {
    var c, c' := s.consumers[p], s'.consumers[p];
    assert CountInv(s, c, c.pc.mid);
    forall m | m !in c'.succeeded ensures BudgetInv(s', c', m) {
      assert BudgetInv(s, c, m);
    }
    forall m ensures CountInv(s', c', m) {
      assert CountInv(s, c, m);
    }
  }

  lemma DeadLetterKeepsConsumer(s: State, p: ProcessId, call: Call, s': State)
    requires StepDeadLetter(s, p, call, s') && ConsumerInv(s, s.consumers[p])
    ensures ConsumerInv(s', s'.consumers[p])
  {
    var c, c' := s.consumers[p], s'.consumers[p];
    forall m | m !in c'.succeeded ensures BudgetInv(s', c', m) {
      assert BudgetInv(s, c, m);
    }
    forall m ensures CountInv(s', c', m) {
      assert CountInv(s, c, m);
    }
  }

  lemma StepKeepsConsumers(s: State, a: Action, s': State, p: ProcessId)
    requires Inv(s) && Step(s, a, s') && p in s'.consumers
    ensures ConsumerInv(s', s'.consumers[p])
  {
    hide ConsumerInv, EntryInv, Evolves;
    StepEvolves(s, a, s');
    if p in s.consumers && s'.consumers[p] == s.consumers[p] {
      ConsumerKept(s, s', s.consumers[p]);
    } else {
      ActorKept(s, a, s', p);
    }
  }

  lemma ActorKept(s: State, a: Action, s': State, p: ProcessId)
    requires Inv(s) && Step(s, a, s') && p in s'.consumers
    requires p in s.consumers ==> s'.consumers[p] != s.consumers[p]
    ensures ConsumerInv(s', s'.consumers[p])
  {
    hide ConsumerInv, EntryInv;
    match a
    case Append(_) =>
    case Join(_) => NewConsumerOk(s');
    case Crash(_) =>
    case Deliver(_, mid) => DeliverKeepsConsumer(s, p, mid, s');
    case Start(_) => StartKeepsConsumer(s, p, s');
    case Finish(_, handled) => FinishKeepsConsumer(s, p, handled, s');
    case Ack(_, call) => AckKeepsConsumer(s, p, call, s');
    case Count(_, reading) => CountKeepsConsumer(s, p, reading, s');
    case DeadLetter(_, call) => DeadLetterKeepsConsumer(s, p, call, s');
  }

  lemma NewConsumerOk(s: State)
    ensures ConsumerInv(s, NewConsumer())
  {}

  lemma StepKeepsEntries(s: State, a: Action, s': State)
    requires Inv(s) && Step(s, a, s')
    ensures forall mid :: mid in s'.entries ==> EntryInv(s', mid)
    ensures forall mid :: mid in s'.dead ==> mid in s'.entries
  {
    hide BudgetInv;
    if a.Ack? || a.DeadLetter? {
      assert ConsumerInv(s, s.consumers[a.p]);
    }
    forall mid | mid in s'.entries ensures EntryInv(s', mid) {
      if mid in s.entries {
        assert EntryInv(s, mid);
      }
    }
  }

  lemma StepKeepsInv(s: State, a: Action, s': State)
    requires Inv(s) && Step(s, a, s')
    ensures Inv(s')
  {
    hide ConsumerInv, EntryInv, Step;
    StepKeepsEntries(s, a, s');
    forall p | p in s'.consumers ensures ConsumerInv(s', s'.consumers[p]) {
      StepKeepsConsumers(s, a, s', p);
    }
  }

  // ---- Runs -------------------------------------------------------------------------------------

  /** Consecutive steps. */
  ghost predicate Path(ss: seq<State>, acts: seq<Action>) {
    |ss| == |acts| + 1 && forall i :: 0 <= i < |acts| ==> Step(ss[i], acts[i], ss[i + 1])
  }

  ghost predicate Run(ss: seq<State>, acts: seq<Action>) {
    Path(ss, acts) && Initial(ss[0])
  }

  lemma {:induction false} RunKeepsInv(ss: seq<State>, acts: seq<Action>, i: nat)
    requires Run(ss, acts) && i < |ss|
    ensures Inv(ss[i]) && ss[i].maxDeliveries == ss[0].maxDeliveries && ss[i].countsLocally == ss[0].countsLocally
  {
    hide Step;
    if i > 0 {
      RunKeepsInv(ss, acts, i - 1);
      StepKeepsInv(ss[i - 1], acts[i - 1], ss[i]);
      StepEvolves(ss[i - 1], acts[i - 1], ss[i]);
    }
  }

  /** Conservation: every entry is unread, pending, acknowledged after a handler returned true for it, or
      acknowledged and retained as a dead letter. No message is buried before it has been delivered as often as its dead
      letter says, which is at least the budget. */
  lemma EveryEntryIsAccountedFor(ss: seq<State>, acts: seq<Action>, i: nat, mid: MessageId)
    requires Run(ss, acts) && i < |ss| && mid in ss[i].entries
    ensures ss[i].entries[mid].place.Acked? ==>
              mid in ss[i].everSucceeded || mid in ss[i].dead
    ensures mid in ss[i].dead ==> && ss[i].entries[mid].place.Acked?
                                  && ss[i].maxDeliveries <= ss[i].dead[mid] <= ss[i].entries[mid].deliveries
  {
    RunKeepsInv(ss, acts, i);
    assert EntryInv(ss[i], mid);
  }

  /** A handler is recorded as successful only where it returned true, and an entry stays in the stream. */
  lemma {:induction false} SuccessHasACause(ss: seq<State>, acts: seq<Action>, i: nat, mid: MessageId) returns (n: nat)
    requires Run(ss, acts) && i < |ss| && mid in ss[i].everSucceeded
    ensures n < i && acts[n].Finish? && acts[n].handled && acts[n].p in ss[n].consumers
    ensures ss[n].consumers[acts[n].p].pc == Handling(mid)
  {
    if i > 0 {
      if mid in ss[i - 1].everSucceeded {
        n := SuccessHasACause(ss, acts, i - 1, mid);
      } else {
        n := i - 1;
      }
    }
  }

  /** Bounded retries: a message for which a process's handler never succeeds is run by it at most `maxDeliveries`
      times (once, if that is zero), plus once for every dead letter whose transaction raised. Without a local
      count, every reading of the server's count as zero may cost one more run. */
  lemma RetriesAreBounded(ss: seq<State>, acts: seq<Action>, i: nat, p: ProcessId, mid: MessageId)
    requires Run(ss, acts) && i < |ss| && p in ss[i].consumers && mid !in ss[i].consumers[p].succeeded
    ensures var c := ss[i].consumers[p];
            Get(c.runs, mid) <= Max(1, ss[i].maxDeliveries) + Get(c.lostDeadLetters, mid)
                                + if ss[i].countsLocally then 0 else Get(c.misread, mid)
  {
    RunKeepsInv(ss, acts, i);
    assert ConsumerInv(ss[i], ss[i].consumers[p]);
    assert BudgetInv(ss[i], ss[i].consumers[p], mid);
  }

  /** The exact budget of the runner: as long as no dead letter raises, whatever the server's count reads. */
  lemma RunnerKeepsItsBudget(ss: seq<State>, acts: seq<Action>, i: nat, p: ProcessId, mid: MessageId)
    requires Run(ss, acts) && i < |ss| && p in ss[i].consumers && mid !in ss[i].consumers[p].succeeded
    requires ss[i].countsLocally && Get(ss[i].consumers[p].lostDeadLetters, mid) == 0
    ensures Get(ss[i].consumers[p].runs, mid) <= Max(1, ss[i].maxDeliveries)
  {
    RetriesAreBounded(ss, acts, i, p, mid);
  }

  // ---- Without those conditions there is no bound --------------------------------------------------

  /** Process 0 has run message 0 `n` times without success, and it can be delivered again. From the budget's last attempt
      on every run has cost a raising dead letter; the server's count could be read each time, or never. */
  ghost predicate Retried(s: State, n: nat, counted: bool) {
    && 0 in s.entries && !s.entries[0].place.Acked? && s.entries[0].deliveries == n && 0 in s.consumers
    && var c := s.consumers[0];
       && c.pc.Idle? && c.batch == [] && 0 !in c.succeeded && Get(c.runs, 0) == n && Get(c.local, 0) == n
       && Get(c.lostDeadLetters, 0) == Lost(s, n, counted) && Get(c.misread, 0) == if counted then 0 else n
  }

  function Lost(s: State, n: nat, counted: bool): nat {
    if !counted && !s.countsLocally && s.maxDeliveries > 0 then 0
    else if n >= Max(1, s.maxDeliveries) then n - Max(1, s.maxDeliveries) + 1 else 0
  }

  /** One more delivery that the handler fails. */
  lemma OneMoreFailure(s: State, n: nat, counted: bool) returns (ss: seq<State>, acts: seq<Action>, c': Consumer)
    requires Retried(s, n, counted)
    ensures Path(ss, acts) && ss[0] == s && |acts| == 4
    ensures ss[4] == WithConsumer(s, 0, c').(entries := s.entries[0 := Entry(Pending, n + 1)])
    ensures c'.batch == [] && c'.succeeded == s.consumers[0].succeeded && Get(c'.runs, 0) == Get(c'.local, 0) == n + 1
    ensures c'.lostDeadLetters == s.consumers[0].lostDeadLetters && Get(c'.misread, 0) == if counted then 0 else n + 1
    ensures if Lost(s, n + 1, counted) == Lost(s, n, counted) then c'.pc.Idle? else c'.pc.Exhausted? && c'.pc.mid == 0
  {
    hide Step;
    var s1, c2 := Started(s, n, counted);
    var s2 := WithConsumer(s1, 0, c2);
    var s3, s4;
    var reading := if counted then n + 1 else 0;
    s3, s4, c' := FailsAndCounts(s2, reading);
    ss, acts := [s, s1, s2, s3, s4], [Deliver(0, 0), Start(0), Finish(0, false), Count(0, reading)];
  }

  /** The handler fails, and its attempts are counted. */
  lemma FailsAndCounts(s: State, reading: nat) returns (s1: State, s': State, c': Consumer)
    requires 0 in s.consumers && s.consumers[0].pc == Handling(0) && 0 in s.entries && s.entries[0].place.Pending?
    requires reading == 0 || reading == s.entries[0].deliveries
    ensures Step(s, Finish(0, false), s1) && Step(s1, Count(0, reading), s') && s' == WithConsumer(s, 0, c')
    ensures var c := s.consumers[0];
            var attempts := Max(if s.countsLocally then Get(c.local, 0) else 0, reading);
            c' == c.(misread := if reading > 0 then c.misread else Inc(c.misread, 0),
                     pc := if attempts >= s.maxDeliveries then Exhausted(0, attempts) else Idle)
  {
    var c := s.consumers[0];
    s1 := WithConsumer(s, 0, c.(pc := Failed(0)));
    var attempts := Max(if s.countsLocally then Get(c.local, 0) else 0, reading);
    c' := c.(misread := if reading > 0 then c.misread else Inc(c.misread, 0),
             pc := if attempts >= s.maxDeliveries then Exhausted(0, attempts) else Idle);
    s' := WithConsumer(s1, 0, c');
  }

  /** The message is delivered and its handler started once more. */
  lemma Started(s: State, n: nat, counted: bool) returns (s1: State, c2: Consumer)
    requires Retried(s, n, counted)
    ensures Step(s, Deliver(0, 0), s1) && Step(s1, Start(0), WithConsumer(s1, 0, c2))
    ensures s1 == WithConsumer(s, 0, s1.consumers[0]).(entries := s.entries[0 := Entry(Pending, n + 1)])
    ensures var c := s.consumers[0];
            c2 == c.(pc := Handling(0), local := Inc(c.local, 0), runs := Inc(c.runs, 0))
  {
    var c := s.consumers[0];
    var c1 := c.(batch := c.batch + [0]);
    s1 := WithConsumer(s, 0, c1).(entries := s.entries[0 := Entry(Pending, n + 1)]);
    c2 := c1.(batch := [], pc := Handling(0), local := Inc(c.local, 0), runs := Inc(c.runs, 0));
    assert StepStart(s1, 0, WithConsumer(s1, 0, c2)) by {
      assert c1.batch[1..] == [];
    }
  }

  /** After it a dead letter, if due, raises. */
  lemma OneMoreRun(s: State, n: nat, counted: bool) returns (ss: seq<State>, acts: seq<Action>)
    requires Retried(s, n, counted)
    ensures Path(ss, acts) && ss[0] == s && Retried(ss[|acts|], n + 1, counted)
    ensures ss[|acts|].maxDeliveries == s.maxDeliveries && ss[|acts|].countsLocally == s.countsLocally
  {
    hide Step;
    var c: Consumer;
    ss, acts, c := OneMoreFailure(s, n, counted);
    if c.pc.Exhausted? {
      var s' := WithConsumer(ss[4], 0, c.(pc := Idle, lostDeadLetters := Inc(c.lostDeadLetters, 0)));
      DeadLetterRaises(ss[4], s');
      ss, acts := ss + [s'], acts + [DeadLetter(0, Raises(false))];
    }
  }

  lemma DeadLetterRaises(s: State, s': State)
    requires 0 in s.consumers && s.consumers[0].pc.Exhausted? && s.consumers[0].pc.mid == 0
    requires var c := s.consumers[0]; s' == WithConsumer(s, 0, c.(pc := Idle, lostDeadLetters := Inc(c.lostDeadLetters, 0)))
    ensures Step(s, DeadLetter(0, Raises(false)), s')
  {}

  lemma Joined(ss: seq<State>, acts: seq<Action>, tt: seq<State>, bb: seq<Action>)
    requires Path(ss, acts) && Path(tt, bb) && tt[0] == ss[|acts|]
    ensures Path(ss + tt[1..], acts + bb) && (ss + tt[1..])[|acts + bb|] == tt[|bb|]
  {
    hide Step;
    var uu, cc := ss + tt[1..], acts + bb;
    forall i | 0 <= i < |cc| ensures Step(uu[i], cc[i], uu[i + 1]) {
      if i < |acts| {
        assert Step(ss[i], acts[i], ss[i + 1]);
      } else {
        assert Step(tt[i - |acts|], bb[i - |acts|], tt[i - |acts| + 1]);
      }
    }
  }

  /** For any budget, a runner whose dead letters keep raising, and a dispatcher whose delivery count keeps reading
      zero although no dead letter raises, run one message any number of times. */
  lemma {:induction false} RetriesAreUnbounded(maxDeliveries: nat, countsLocally: bool, n: nat, counted: bool)
      returns (ss: seq<State>, acts: seq<Action>)
    ensures Run(ss, acts) && Retried(ss[|acts|], n, counted)
    ensures ss[|acts|].maxDeliveries == maxDeliveries && ss[|acts|].countsLocally == countsLocally
  {
    if n == 0 {
      var s := State(maxDeliveries, countsLocally, map[], map[], {}, map[]);
      var s1 := s.(entries := map[0 := Entry(Unread, 0)]);
      var s2 := WithConsumer(s1, 0, NewConsumer());
      ss, acts := [s, s1, s2], [Append(0), Join(0)];
      assert Step(s, Append(0), s1) && Step(s1, Join(0), s2);
    } else {
      ss, acts := RetriesAreUnbounded(maxDeliveries, countsLocally, n - 1, counted);
      var tt, bb := OneMoreRun(ss[|acts|], n - 1, counted);
      Joined(ss, acts, tt, bb);
      ss, acts := ss + tt[1..], acts + bb;
    }
  }

  /** The bound is reached: for every budget, with and without a local count, and every number of raised dead letters there
      is a run in which exactly that many raise, every count is read, and the message is run once more for each of them. */
  lemma RetryBoundIsReached(maxDeliveries: nat, countsLocally: bool, raised: nat) returns (ss: seq<State>, acts: seq<Action>)
    ensures Run(ss, acts) && ss[|acts|].maxDeliveries == maxDeliveries && ss[|acts|].countsLocally == countsLocally
    ensures 0 in ss[|acts|].consumers
    ensures var c := ss[|acts|].consumers[0];
            && 0 !in c.succeeded && Get(c.lostDeadLetters, 0) == raised && Get(c.misread, 0) == 0
            && Get(c.runs, 0) == Max(1, maxDeliveries) + raised
  {
    hide Step;
    var n := Max(1, maxDeliveries) - 1 + raised;
    ss, acts := RetriesAreUnbounded(maxDeliveries, countsLocally, n, true);
    var s1, c2 := Started(ss[|acts|], n, true);
    var tt, bb := [ss[|acts|], s1, WithConsumer(s1, 0, c2)], [Deliver(0, 0), Start(0)];
    assert Path(tt, bb);
    Joined(ss, acts, tt, bb);
    ss, acts := ss + tt[1..], acts + bb;
  }

  // ---- The loop of one process -----------------------------------------------------------------------

  function Actor(a: Action): Option<ProcessId> {
    if a.Append? then None else Some(a.p)
  }

  ghost predicate PathOfOthers(ss: seq<State>, acts: seq<Action>, me: ProcessId) {
    Path(ss, acts) && forall i :: 0 <= i < |acts| ==> Actor(acts[i]) != Some(me)
  }

  ghost predicate Interferes(s: State, s': State, me: ProcessId) {
    exists ss: seq<State>, acts: seq<Action> :: PathOfOthers(ss, acts, me) && ss[0] == s && ss[|acts|] == s'
  }

  ghost predicate Reaches(s: State, s': State) {
    exists ss: seq<State>, acts: seq<Action> :: Path(ss, acts) && ss[0] == s && ss[|acts|] == s'
  }

  lemma ReachesSelf(s: State)
    ensures Reaches(s, s)
  {
    var ss: seq<State>, acts: seq<Action> := [s], [];
    assert Path(ss, acts) && ss[|acts|] == s;
  }

  lemma ReachesTrans(s: State, m: State, s': State)
    requires Reaches(s, m) && Reaches(m, s')
    ensures Reaches(s, s')
  {
    hide Step;
    var ss: seq<State>, acts: seq<Action> :| Path(ss, acts) && ss[0] == s && ss[|acts|] == m;
    var tt: seq<State>, bb: seq<Action> :| Path(tt, bb) && tt[0] == m && tt[|bb|] == s';
    Joined(ss, acts, tt, bb);
  }

  lemma ReachesStep(s: State, m: State, a: Action, s': State)
    requires Reaches(s, m) && Step(m, a, s')
    ensures Reaches(s, s')
  {
    hide Step, Reaches;
    assert Reaches(m, s') by {
      OneStep(m, a, s');
    }
    ReachesTrans(s, m, s');
  }

  lemma OneStep(m: State, a: Action, s': State)
    requires Step(m, a, s')
    ensures Reaches(m, s')
  {
    hide Step;
    var ss, acts := [m, s'], [a];
    assert Path(ss, acts) && ss[|acts|] == s';
  }

  lemma ReachesThenInterferes(s: State, m: State, s': State, me: ProcessId)
    requires Reaches(s, m) && Interferes(m, s', me)
    ensures Reaches(s, s')
  {
    hide Step;
    assert Reaches(m, s');
    ReachesTrans(s, m, s');
  }

  lemma OtherKeepsConsumer(s: State, a: Action, s': State, me: ProcessId)
    requires Step(s, a, s') && Actor(a) != Some(me) && me in s.consumers
    ensures me in s'.consumers && s'.consumers[me] == s.consumers[me]
  {}

  lemma {:induction false} PathKeeps(ss: seq<State>, acts: seq<Action>, me: ProcessId, n: nat)
    requires PathOfOthers(ss, acts, me) && n < |ss| && Inv(ss[0]) && me in ss[0].consumers
    ensures Inv(ss[n]) && me in ss[n].consumers && ss[n].consumers[me] == ss[0].consumers[me]
  {
    hide Step, Inv;
    if n > 0 {
      PathKeeps(ss, acts, me, n - 1);
      StepKeepsInv(ss[n - 1], acts[n - 1], ss[n]);
      OtherKeepsConsumer(ss[n - 1], acts[n - 1], ss[n], me);
    }
  }

  /** Whatever the others do, a process keeps its place, and the invariant holds. */
  lemma InterferenceKeeps(s: State, s': State, me: ProcessId)
    requires Interferes(s, s', me) && Inv(s) && me in s.consumers
    ensures Inv(s') && me in s'.consumers && s'.consumers[me] == s.consumers[me]
  {
    hide Step, Inv;
    var ss: seq<State>, acts: seq<Action> :| PathOfOthers(ss, acts, me) && ss[0] == s && ss[|acts|] == s';
    PathKeeps(ss, acts, me, |acts|);
  }

  /** What the loop reports of one message. */
  datatype Outcome = Acknowledged | LeftPending | Buried | BookkeepingFailed

  class Process {
    const me: ProcessId
    const maxDeliveries: nat
    const countsLocally: bool
    var entries: map<MessageId, Entry>
    var dead: map<MessageId, nat>
    var localAttempts: map<MessageId, nat>
    ghost var everSucceeded: set<MessageId>
    ghost var consumers: map<ProcessId, Consumer>

    ghost function View(): State
      reads this
    {
      State(maxDeliveries, countsLocally, entries, dead, everSucceeded, consumers)
    }

    /** This process is at the given place. */
    ghost predicate Here(batch: seq<MessageId>, pc: Pc)
      reads this
    {
      && Inv(View()) && me in consumers && consumers[me].local == localAttempts
      && consumers[me].batch == batch && consumers[me].pc == pc
    }

    ghost predicate Moved(before: State, a: Action)
      reads this
    {
      Step(before, a, View())
    }

    /** Whatever the producers and the other processes do. Nothing more is promised of it. */
    method Others()
      modifies this`entries, this`dead, this`everSucceeded, this`consumers
      ensures Interferes(old(View()), View(), me)
    {
      ghost var ss: seq<State>, acts: seq<Action> := [View()], [];
      assert PathOfOthers(ss, acts, me) && ss[|acts|] == View();
    }

    /** Meanwhile: what any such interference leaves to this process. */
    method Interfere(ghost batch: seq<MessageId>, ghost pc: Pc)
      requires Here(batch, pc)
      modifies this`entries, this`dead, this`everSucceeded, this`consumers
      ensures Interferes(old(View()), View(), me) && Here(batch, pc) && consumers[me] == old(consumers[me])
    {
      hide Inv, Interferes;
      Others();
      InterferenceKeeps(old(View()), View(), me);
    }

    method BeginMessage(mid: MessageId, ghost rest: seq<MessageId>)
      requires Here([mid] + rest, Idle)
      modifies this`localAttempts, this`consumers
      ensures Moved(old(View()), Start(me)) && Here(rest, Handling(mid))
    {
      hide Inv;
      localAttempts := localAttempts[mid := (if mid in localAttempts then localAttempts[mid] else 0) + 1];
      ghost var c := consumers[me];
      consumers := consumers[me := c.(batch := c.batch[1..], pc := Handling(mid), local := localAttempts, runs := Inc(c.runs, mid))];
      StepKeepsInv(old(View()), Start(me), View());
    }

    method FinishHandler(mid: MessageId, ghost rest: seq<MessageId>, handled: bool)
      requires Here(rest, Handling(mid))
      modifies this`everSucceeded, this`consumers
      ensures Moved(old(View()), Finish(me, handled)) && Here(rest, if handled then Handled(mid) else Failed(mid))
    {
      hide Inv;
      ghost var c := consumers[me];
      if handled {
        consumers := consumers[me := c.(pc := Handled(mid), succeeded := c.succeeded + {mid})];
        everSucceeded := everSucceeded + {mid};
      } else {
        consumers := consumers[me := c.(pc := Failed(mid))];
      }
      StepKeepsInv(old(View()), Finish(me, handled), View());
    }

    method XAck(mid: MessageId)
      modifies this`entries
      ensures entries == AckEntry(old(entries), mid)
    {
      if mid in entries && entries[mid].place.Pending? {
        entries := entries[mid := entries[mid].(place := Acked)];
      }
    }

    method AckMessage(mid: MessageId, ghost rest: seq<MessageId>, call: Call)
      requires Here(rest, Handled(mid))
      modifies this`entries, this`localAttempts, this`consumers
      ensures Moved(old(View()), Ack(me, call)) && Here(rest, Idle)
      ensures call.Returns? ==> mid in entries && entries[mid].place.Acked? && mid in everSucceeded && mid !in localAttempts
    {
      hide Inv;
      ReadFact(View(), me);
      if call.Returns? || call.effect {
        XAck(mid);
      }
      if call.Returns? {
        localAttempts := localAttempts - {mid};
      }
      consumers := consumers[me := consumers[me].(pc := Idle, local := localAttempts)];
      StepKeepsInv(old(View()), Ack(me, call), View());
    }

    /** `delivery_count` and the budget. */
    method CheckBudget(mid: MessageId, ghost rest: seq<MessageId>, answers: bool) returns (attempts: nat)
      requires Here(rest, Failed(mid))
      modifies this`consumers
      ensures exists reading :: Moved(old(View()), Count(me, reading))
      ensures Here(rest, if attempts >= maxDeliveries then Exhausted(mid, attempts) else Idle)
      ensures localAttempts == old(localAttempts) && entries == old(entries)
      ensures countsLocally && mid in localAttempts ==> attempts >= localAttempts[mid]
      ensures answers && mid in entries && entries[mid].place.Pending? ==> attempts >= entries[mid].deliveries
    {
      hide Inv;
      var pending := mid in entries && entries[mid].place.Pending?;
      var reading := if answers && pending then entries[mid].deliveries else 0;
      var counted := if countsLocally && mid in localAttempts then localAttempts[mid] else 0;
      attempts := Max(counted, reading);
      ghost var c := consumers[me];
      consumers := consumers[me := c.(misread := if pending && reading == 0 then Inc(c.misread, mid) else c.misread,
                                      pc := if attempts >= maxDeliveries then Exhausted(mid, attempts) else Idle)];
      StepKeepsInv(old(View()), Count(me, reading), View());
      assert Moved(old(View()), Count(me, reading));
    }

    method BuryMessage(mid: MessageId, ghost rest: seq<MessageId>, attempts: nat, call: Call)
      requires Here(rest, Exhausted(mid, attempts))
      modifies this`entries, this`dead, this`localAttempts, this`consumers
      ensures Moved(old(View()), DeadLetter(me, call)) && Here(rest, Idle)
      ensures call.Returns? ==> mid in dead && mid in entries && entries[mid].place.Acked? && mid !in localAttempts
    {
      hide Inv;
      ReadFact(View(), me);
      if call.Returns? || call.effect {
        dead := dead[mid := attempts];
        XAck(mid);
      }
      if call.Returns? {
        localAttempts := localAttempts - {mid};
        consumers := consumers[me := consumers[me].(pc := Idle, local := localAttempts)];
      } else {
        ghost var c := consumers[me];
        consumers := consumers[me := c.(pc := Idle, lostDeadLetters := Inc(c.lostDeadLetters, mid))];
      }
      StepKeepsInv(old(View()), DeadLetter(me, call), View());
    }

    /** The message loop's body with `_process_runner_message`, given what the handler returns, whether the server's count
        can be had, and how the acknowledgement or the dead letter ends. Afterwards the message is acknowledged after success,
        buried after failure, or left pending after failure within its budget; anything else is a call that raised. */
    method ProcessMessage(mid: MessageId, ghost rest: seq<MessageId>, handled: bool, answers: bool, call: Call) returns (outcome: Outcome)
      requires Here([mid] + rest, Idle)
      modifies this
      ensures Reaches(old(View()), View()) && Here(rest, Idle)
      ensures Processed(mid, handled, call, outcome)
    {
      hide Inv, Step, Reaches, Processed;
      ghost var start, before := View(), View();
      ReachesSelf(start);
      BeginMessage(mid, rest);
      ReachesStep(start, before, Start(me), View());
      before := View();
      Interfere(rest, Handling(mid));
      ReachesThenInterferes(start, before, View(), me);
      before := View();
      FinishHandler(mid, rest, handled);
      ReachesStep(start, before, Finish(me, handled), View());
      before := View();
      Interfere(rest, if handled then Handled(mid) else Failed(mid));
      ReachesThenInterferes(start, before, View(), me);
      outcome := Settle(mid, rest, handled, answers, call, start);
    }

    /** What has become of a message. */
    ghost predicate Processed(mid: MessageId, handled: bool, call: Call, outcome: Outcome)
      reads this
    {
      && (handled ==> outcome == if call.Returns? then Acknowledged else BookkeepingFailed)
      && (!handled ==> outcome.LeftPending? || outcome == if call.Returns? then Buried else BookkeepingFailed)
      && (outcome.Acknowledged? ==> mid in entries && entries[mid].place.Acked? && mid in everSucceeded && mid !in localAttempts)
      && (outcome.Buried? ==> mid in entries && entries[mid].place.Acked? && mid in dead && mid !in localAttempts)
      && (outcome.LeftPending? && countsLocally && mid in localAttempts ==> localAttempts[mid] < maxDeliveries)
    }

    /** What follows the handler. */
    method Settle(mid: MessageId, ghost rest: seq<MessageId>, handled: bool, answers: bool, call: Call, ghost start: State)
      returns (outcome: Outcome)
      requires Here(rest, if handled then Handled(mid) else Failed(mid)) && Reaches(start, View())
      modifies this
      ensures Reaches(start, View()) && Here(rest, Idle)
      ensures Processed(mid, handled, call, outcome)
    {
      hide Inv, Step, Reaches;
      ghost var before := View();
      if handled {
        AckMessage(mid, rest, call);
        ReachesStep(start, before, Ack(me, call), View());
        return if call.Returns? then Acknowledged else BookkeepingFailed;
      }
      var attempts := CheckBudget(mid, rest, answers);
      ghost var reading :| Moved(before, Count(me, reading));
      ReachesStep(start, before, Count(me, reading), View());
      if attempts < maxDeliveries {
        return LeftPending;
      }
      before := View();
      Interfere(rest, Exhausted(mid, attempts));
      ReachesThenInterferes(start, before, View(), me);
      before := View();
      BuryMessage(mid, rest, attempts, call);
      ReachesStep(start, before, DeadLetter(me, call), View());
      outcome := if call.Returns? then Buried else BookkeepingFailed;
    }

    /** The loop over one batch: every message is processed once, in order. */
    method ConsumeBatch(batch: seq<MessageId>)
      requires Here(batch, Idle)
      modifies this
      ensures Reaches(old(View()), View()) && Here([], Idle)
    {
      hide Inv, Step, Reaches;
      ghost var start := View();
      ReachesSelf(start);
      for i := 0 to |batch|
        invariant Reaches(start, View()) && Here(batch[i..], Idle)
      {
        ghost var before := View();
        assert batch[i..] == [batch[i]] + batch[i + 1..];
        var handled, answers, works, effect: bool := *, *, *, *;
        var _ := ProcessMessage(batch[i], batch[i + 1..], handled, answers, if works then Returns else Raises(effect));
        ReachesTrans(start, before, View());
      }
    }
  }

  /** A message being worked on has been read. */
  lemma ReadFact(s: State, p: ProcessId)
    requires Inv(s) && p in s.consumers && !s.consumers[p].pc.Idle?
    ensures WasRead(s, s.consumers[p].pc.mid)
    ensures s.consumers[p].pc.Handled? ==> s.consumers[p].pc.mid in s.everSucceeded
  {
    assert ConsumerInv(s, s.consumers[p]);
  }
}
