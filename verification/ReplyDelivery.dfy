/**
 Chunk delivery: `post_reply` sends the chunks of one reply in order, each under a lease in its idempotency row
 (`_send_checkpointed`), with any number of concurrent or retried handlers.

 A handler claims a chunk's row for ten minutes, sends, and records the message id while it still owns the
 row. The history fields count successful sends per chunk, and the accidents that may repeat one: a handler
 lost between its send and its checkpoint, and a claim that takes over the expired lease of a handler that
 is still sending.
 */
module ReplyDelivery {
  import opened Options

  const LEASE: real := 600.0

  type HandlerId = nat
  type Owner = nat
  type MessageId = nat

  /** The idempotency row of a chunk; no outcome means 'pending'. */
  datatype Row = Row(outcome: Option<MessageId>, owner: Option<Owner>, expires: Option<real>)

  datatype Pc =
    | Start                            // about to look at the chunk's row
    | SawPending                       // the row was pending
    | Claimed(owner: Owner)            // holds (or held) the lease, sending
    | Sent(owner: Owner, id: MessageId) // sent, not yet recorded

  datatype Handler = Handler(chunk: nat, ids: seq<MessageId>, pc: Pc)

  datatype State = State(
    now: real,
    rows: seq<Row>,
    handlers: map<HandlerId, Handler>,
    owners: set<Owner>,                // claim owners used so far
    // history
    sends: seq<seq<MessageId>>,
    accidents: seq<nat>)

  datatype Action =
    | Begin(h: HandlerId)
    | Read(h: HandlerId)
    | Claim(h: HandlerId, owner: Owner, started: real)
    | Send(h: HandlerId, id: MessageId)
    | SendFails(h: HandlerId)          // nothing was posted; the lease is given back
    | Checkpoint(h: HandlerId)
    | CheckpointFails(h: HandlerId)    // posted but not recorded; the lease is given back
    | Crash(h: HandlerId)              // the lease is left to expire
    | Tick(seconds: real)

  predicate Initial(s: State) {
    && s.handlers == map[] && s.owners == {} && |s.rows| == |s.sends| == |s.accidents|
    && forall c :: 0 <= c < |s.rows| ==> s.rows[c] == Row(None, None, None) && s.sends[c] == [] && s.accidents[c] == 0
  }

  /** The handler is at a chunk, with the given kind of program counter. */
  predicate At(s: State, h: HandlerId) {
    && h in s.handlers && s.handlers[h].chunk < |s.rows| == |s.sends| == |s.accidents|
  }

  predicate OwnedBy(r: Row, pc: Pc) {
    (pc.Claimed? || pc.Sent?) && r.owner == Some(pc.owner)
  }

  /** Some handler that still claims or has just sent chunk `c` owns its row. */
  ghost predicate Held(s: State, c: nat)
    requires c < |s.rows|
  {
    exists h :: h in s.handlers && s.handlers[h].chunk == c && OwnedBy(s.rows[c], s.handlers[h].pc)
  }

  /** `UPDATE .. SET claim_expires_at=NULL WHERE claim_owner=:owner` */
  function Release(r: Row, owner: Owner): Row {
    if r.owner == Some(owner) then r.(expires := None) else r
  }

  function Advance(h: Handler, id: MessageId): Handler {
    Handler(h.chunk + 1, h.ids + [id], Start)
  }

  ghost predicate StepRead(s: State, h: HandlerId, s': State) {
    && At(s, h) && s.handlers[h].pc.Start?
    && var x := s.handlers[h];
       var outcome := s.rows[x.chunk].outcome;
       s' == s.(handlers := s.handlers[h := if outcome.Some? then Advance(x, outcome.value) else x.(pc := SawPending)])
  }

  /** The claim succeeds on a pending row whose lease is free or has expired; otherwise the handler gives up (409).
      The database's now() is the start of the claiming transaction. */
  ghost predicate StepClaim(s: State, h: HandlerId, owner: Owner, started: real, s': State) {
    && At(s, h) && s.handlers[h].pc.SawPending? && owner !in s.owners && started <= s.now
    && var x := s.handlers[h];
       var c := x.chunk;
       var r := s.rows[c];
       if r.outcome.None? && (r.expires.None? || r.expires.value <= started) then
         s' == s.(rows := s.rows[c := Row(None, Some(owner), Some(started + LEASE))],
                  handlers := s.handlers[h := x.(pc := Claimed(owner))],
                  owners := s.owners + {owner},
                  accidents := if Held(s, c) then s.accidents[c := s.accidents[c] + 1] else s.accidents)
       else s' == s.(handlers := s.handlers - {h})
  }

  ghost predicate StepSend(s: State, h: HandlerId, id: MessageId, s': State) {
    && At(s, h) && s.handlers[h].pc.Claimed?
    && var x := s.handlers[h];
       s' == s.(handlers := s.handlers[h := x.(pc := Sent(x.pc.owner, id))],
                sends := s.sends[x.chunk := s.sends[x.chunk] + [id]])
  }

  ghost predicate StepSendFails(s: State, h: HandlerId, s': State) {
    && At(s, h) && s.handlers[h].pc.Claimed?
    && var x := s.handlers[h];
       s' == s.(handlers := s.handlers - {h},
                rows := s.rows[x.chunk := Release(s.rows[x.chunk], x.pc.owner)])
  }

  /** The id is recorded if the row is still owned; the handler goes on either way. */
  ghost predicate StepCheckpoint(s: State, h: HandlerId, s': State) {
    && At(s, h) && s.handlers[h].pc.Sent?
    && var x := s.handlers[h];
       var r := s.rows[x.chunk];
       s' == s.(handlers := s.handlers[h := Advance(x, x.pc.id)],
                rows := s.rows[x.chunk := if r.owner == Some(x.pc.owner) then Row(Some(x.pc.id), r.owner, None) else r])
  }

  ghost predicate StepCheckpointFails(s: State, h: HandlerId, s': State) {
    && At(s, h) && s.handlers[h].pc.Sent?
    && var x := s.handlers[h];
       s' == s.(handlers := s.handlers - {h},
                rows := s.rows[x.chunk := Release(s.rows[x.chunk], x.pc.owner)],
                accidents := s.accidents[x.chunk := s.accidents[x.chunk] + 1])
  }

  ghost predicate StepCrash(s: State, h: HandlerId, s': State) {
    && h in s.handlers
    && s' == s.(handlers := s.handlers - {h},
                accidents := if At(s, h) && s.handlers[h].pc.Sent?
                             then s.accidents[s.handlers[h].chunk := s.accidents[s.handlers[h].chunk] + 1]
                             else s.accidents)
  }

  ghost predicate Step(s: State, a: Action, s': State) {
    match a
    case Begin(h) => h !in s.handlers && s' == s.(handlers := s.handlers[h := Handler(0, [], Start)])
    case Read(h) => StepRead(s, h, s')
    case Claim(h, owner, started) => StepClaim(s, h, owner, started, s')
    case Send(h, id) => StepSend(s, h, id, s')
    case SendFails(h) => StepSendFails(s, h, s')
    case Checkpoint(h) => StepCheckpoint(s, h, s')
    case CheckpointFails(h) => StepCheckpointFails(s, h, s')
    case Crash(h) => StepCrash(s, h, s')
    case Tick(d) => d >= 0.0 && s' == s.(now := s.now + d)
  }

  // ---- The invariant --------------------------------------------------------------------------

  ghost function ClaimedAt(handlers: map<HandlerId, Handler>, c: nat): set<HandlerId> {
    set h | h in handlers && handlers[h].chunk == c && handlers[h].pc.Claimed?
  }

  ghost predicate Shape(s: State) {
    |s.rows| == |s.sends| == |s.accidents|
  }

  /** What a handler knows: everything before its chunk was sent, under the ids it collected. */
  ghost predicate HandlerOk(s: State, x: Handler)
    requires Shape(s)
  {
    && x.chunk <= |s.rows| && |x.ids| == x.chunk
    && (forall c :: 0 <= c < x.chunk ==> x.ids[c] in s.sends[c])
    && (x.chunk == |s.rows| ==> x.pc.Start?)
    && (x.pc.Claimed? || x.pc.Sent? ==> x.pc.owner in s.owners)
    && (x.pc.Sent? ==> x.pc.id in s.sends[x.chunk])
    && (x.chunk < |s.rows| && OwnedBy(s.rows[x.chunk], x.pc) ==>
          s.rows[x.chunk].outcome.None? && s.rows[x.chunk].expires.Some?)
  }

  /** No two handlers share a claim owner. */
  ghost predicate OwnersDistinct(s: State) {
    forall h, h' :: h in s.handlers && h' in s.handlers && h != h'
                    && (s.handlers[h].pc.Claimed? || s.handlers[h].pc.Sent?)
                    && (s.handlers[h'].pc.Claimed? || s.handlers[h'].pc.Sent?) ==>
                      s.handlers[h].pc.owner != s.handlers[h'].pc.owner
  }

  ghost predicate RowOk(s: State, c: nat)
    requires Shape(s) && c < |s.rows|
  {
    && (s.rows[c].outcome.Some? ==> s.rows[c].outcome.value in s.sends[c])
    && (s.rows[c].owner.Some? ==> s.rows[c].owner.value in s.owners)
    && (forall c' :: 0 <= c' < c && s.sends[c] != [] ==> s.sends[c'] != [])
  }

  /** Sends made, and sends still to come from claims, are paid for by accidents and by the one that counts. */
  ghost predicate Paid(s: State, c: nat)
    requires Shape(s) && c < |s.rows|
  {
    |s.sends[c]| + |ClaimedAt(s.handlers, c)| <= s.accidents[c] + if s.rows[c].outcome.Some? || Held(s, c) then 1 else 0
  }

  ghost predicate Inv(s: State) {
    && Shape(s) && OwnersDistinct(s)
    && (forall h :: h in s.handlers ==> HandlerOk(s, s.handlers[h]))
    && (forall c :: 0 <= c < |s.rows| ==> RowOk(s, c))
    && (forall c :: 0 <= c < |s.rows| ==> Paid(s, c))
  }

  lemma InvInitially(s: State)
    requires Initial(s)
    ensures Inv(s)
  {
    forall c | 0 <= c < |s.rows| ensures Paid(s, c) {
      assert ClaimedAt(s.handlers, c) == {};
    }
  }

  // ---- Counting claims ------------------------------------------------------------------------

  lemma ClaimsAfterUpdate(handlers: map<HandlerId, Handler>, h: HandlerId, x: Handler, c: nat)
    ensures ClaimedAt(handlers[h := x], c)
            == if x.chunk == c && x.pc.Claimed? then ClaimedAt(handlers, c) + {h} else ClaimedAt(handlers, c) - {h}
  {}

  lemma ClaimsAfterRemoval(handlers: map<HandlerId, Handler>, h: HandlerId, c: nat)
    ensures ClaimedAt(handlers - {h}, c) == ClaimedAt(handlers, c) - {h}
  {}

  /** A chunk whose row and handlers are the same is held as before. */
  lemma HeldElsewhere(s: State, s': State, h: HandlerId, c: nat)
    requires c < |s.rows| == |s'.rows| && s'.rows[c] == s.rows[c] && s'.handlers - {h} == s.handlers - {h}
    requires h in s.handlers ==> !(s.handlers[h].chunk == c && OwnedBy(s.rows[c], s.handlers[h].pc))
    requires h in s'.handlers ==> !(s'.handlers[h].chunk == c && OwnedBy(s.rows[c], s'.handlers[h].pc))
    ensures Held(s', c) == Held(s, c)
  {
    if Held(s, c) {
      var g :| g in s.handlers && s.handlers[g].chunk == c && OwnedBy(s.rows[c], s.handlers[g].pc);
      assert g in (s.handlers - {h}) && g in s'.handlers && s'.handlers[g] == (s'.handlers - {h})[g];
    }
    if Held(s', c) {
      var g :| g in s'.handlers && s'.handlers[g].chunk == c && OwnedBy(s'.rows[c], s'.handlers[g].pc);
      assert g in (s'.handlers - {h}) && g in s.handlers && s.handlers[g] == (s.handlers - {h})[g];
    }
  }

  lemma ClaimsElsewhere(handlers: map<HandlerId, Handler>, handlers': map<HandlerId, Handler>, h: HandlerId, c: nat)
    requires handlers' - {h} == handlers - {h}
    requires h in handlers ==> !handlers[h].pc.Claimed?
    requires h in handlers' ==> !handlers'[h].pc.Claimed?
    ensures ClaimedAt(handlers', c) == ClaimedAt(handlers, c)
  {
    ClaimsAfterRemoval(handlers, h, c);
    ClaimsAfterRemoval(handlers', h, c);
    assert ClaimedAt(handlers, c) - {h} == ClaimedAt(handlers, c);
    assert ClaimedAt(handlers', c) - {h} == ClaimedAt(handlers', c);
  }

  /** Steps by a handler that neither claims nor owns anything, before and after. */
  lemma IdleKeepsPaid(s: State, s': State, h: HandlerId, c: nat)
    requires Shape(s) && c < |s.rows| && Paid(s, c)
    requires s' == s.(handlers := s'.handlers) && s'.handlers - {h} == s.handlers - {h}
    requires h in s.handlers ==> s.handlers[h].pc.Start? || s.handlers[h].pc.SawPending?
    requires h in s'.handlers ==> s'.handlers[h].pc.Start? || s'.handlers[h].pc.SawPending?
    ensures Paid(s', c)
  {
    hide Held, ClaimedAt;
    HeldElsewhere(s, s', h, c);
    ClaimsElsewhere(s.handlers, s'.handlers, h, c);
  }

  lemma ClaimKeepsPaid(s: State, h: HandlerId, owner: Owner, started: real, s': State, c: nat)
    requires Inv(s) && StepClaim(s, h, owner, started, s') && h in s'.handlers && c < |s.rows|
    ensures Paid(s', c)
  {
    var x := s.handlers[h];
    ClaimsAfterUpdate(s.handlers, h, x.(pc := Claimed(owner)), c);
    assert Paid(s, c);
    if c == x.chunk {
      assert OwnedBy(s'.rows[c], s'.handlers[h].pc) && Held(s', c);
    } else {
      assert s'.handlers - {h} == s.handlers - {h};
      HeldElsewhere(s, s', h, c);
      assert h !in ClaimedAt(s.handlers, c);
      assert ClaimedAt(s'.handlers, c) == ClaimedAt(s.handlers, c);
    }
  }

  lemma SendKeepsHeld(s: State, h: HandlerId, id: MessageId, s': State, c: nat)
    requires StepSend(s, h, id, s') && c < |s.rows|
    ensures Held(s', c) == Held(s, c)
  {
    if Held(s, c) {
      var g :| g in s.handlers && s.handlers[g].chunk == c && OwnedBy(s.rows[c], s.handlers[g].pc);
      assert g in s'.handlers && s'.handlers[g].chunk == c && OwnedBy(s'.rows[c], s'.handlers[g].pc);
    }
    if Held(s', c) {
      var g :| g in s'.handlers && s'.handlers[g].chunk == c && OwnedBy(s'.rows[c], s'.handlers[g].pc);
      assert g in s.handlers && s.handlers[g].chunk == c && OwnedBy(s.rows[c], s.handlers[g].pc);
    }
  }

  lemma SendKeepsPaid(s: State, h: HandlerId, id: MessageId, s': State, c: nat)
    requires Inv(s) && StepSend(s, h, id, s') && c < |s.rows|
    ensures Paid(s', c)
  {
    var x := s.handlers[h];
    ClaimsAfterUpdate(s.handlers, h, s'.handlers[h], c);
    assert Paid(s, c);
    SendKeepsHeld(s, h, id, s', c);
    if c == x.chunk {
      assert h in ClaimedAt(s.handlers, c);
    } else {
      assert h !in ClaimedAt(s.handlers, c);
      assert ClaimedAt(s'.handlers, c) == ClaimedAt(s.handlers, c);
    }
  }

  /** A handler that leaves, whatever it was doing. It takes its claim with it; if it had sent, that is an accident. */
  lemma LeaveKeepsPaid(s: State, h: HandlerId, s': State, c: nat)
    requires Inv(s) && h in s.handlers && c < |s.rows| && Shape(s')
    requires s'.handlers == s.handlers - {h} && s'.sends == s.sends && |s'.rows| == |s.rows|
    requires s'.rows[c].outcome == s.rows[c].outcome && s'.rows[c].owner == s.rows[c].owner
    requires s'.accidents[c]
             == s.accidents[c] + if s.handlers[h].chunk == c && s.handlers[h].pc.Sent? then 1 else 0
    ensures Paid(s', c)
  {
    var x := s.handlers[h];
    assert Paid(s, c);
    ClaimsAfterRemoval(s.handlers, h, c);
    if x.chunk == c && OwnedBy(s.rows[c], x.pc) {
      if x.pc.Claimed? {
        assert h in ClaimedAt(s.handlers, c);
      }
    } else {
      if Held(s, c) {
        var g :| g in s.handlers && s.handlers[g].chunk == c && OwnedBy(s.rows[c], s.handlers[g].pc);
        assert g in s'.handlers && OwnedBy(s'.rows[c], s'.handlers[g].pc);
      }
      assert |ClaimedAt(s'.handlers, c)| <= |ClaimedAt(s.handlers, c)|;
    }
  }

  lemma CheckpointKeepsPaid(s: State, h: HandlerId, s': State, c: nat)
    requires Inv(s) && StepCheckpoint(s, h, s') && c < |s.rows|
    ensures Paid(s', c)
  {
    var x := s.handlers[h];
    ClaimsAfterUpdate(s.handlers, h, s'.handlers[h], c);
    assert Paid(s, c) && h !in ClaimedAt(s.handlers, c);
    assert ClaimedAt(s'.handlers, c) == ClaimedAt(s.handlers, c);
    if c != x.chunk || s.rows[c].owner != Some(x.pc.owner) {
      assert s'.handlers - {h} == s.handlers - {h};
      HeldElsewhere(s, s', h, c);
    }
  }

  // ---- Preservation -----------------------------------------------------------------------------

  lemma {:induction false} StepKeepsPaid(s: State, a: Action, s': State, c: nat)
    requires Inv(s) && Step(s, a, s') && c < |s.rows| && Shape(s') && |s'.rows| == |s.rows|
    ensures Paid(s', c)
  {
    hide OwnersDistinct, HandlerOk, RowOk, ClaimedAt;
    match a
    case Begin(h) =>
      assert s'.handlers - {h} == s.handlers - {h};
      IdleKeepsPaid(s, s', h, c);
    case Read(h) =>
      assert s'.handlers - {h} == s.handlers - {h};
      IdleKeepsPaid(s, s', h, c);
    case Claim(h, owner, started) =>
      if h in s'.handlers {
        ClaimKeepsPaid(s, h, owner, started, s', c);
      } else {
        assert s'.handlers - {h} == s.handlers - {h};
        IdleKeepsPaid(s, s', h, c);
      }
    case Send(h, id) => SendKeepsPaid(s, h, id, s', c);
    case SendFails(h) => LeaveKeepsPaid(s, h, s', c);
    case Checkpoint(h) => CheckpointKeepsPaid(s, h, s', c);
    case CheckpointFails(h) => LeaveKeepsPaid(s, h, s', c);
    case Crash(h) => LeaveKeepsPaid(s, h, s', c);
    case Tick(_) =>
      assert Paid(s, c);
      assert Held(s', c) == Held(s, c);
  }

  /** Everything but the count. */
  ghost predicate Core(s: State) {
    && Shape(s) && OwnersDistinct(s)
    && (forall h :: h in s.handlers ==> HandlerOk(s, s.handlers[h]))
    && (forall c :: 0 <= c < |s.rows| ==> RowOk(s, c))
  }

  /** Steps that change one handler only, or drop it. */
  lemma HandlerStepKeepsCore(s: State, s': State, h: HandlerId)
    requires Core(s) && s' == s.(handlers := s'.handlers, accidents := s'.accidents) && |s'.accidents| == |s.accidents|
    requires forall g :: g in s'.handlers && g != h ==> g in s.handlers && s'.handlers[g] == s.handlers[g]
    requires h in s'.handlers ==> HandlerOk(s, s'.handlers[h]) && !s'.handlers[h].pc.Claimed? && !s'.handlers[h].pc.Sent?
    ensures Core(s')
  {
    forall g | g in s'.handlers ensures HandlerOk(s', s'.handlers[g]) {}
    forall c | 0 <= c < |s'.rows| ensures RowOk(s', c) {
      assert RowOk(s, c);
    }
  }

  lemma ReadKeepsCore(s: State, h: HandlerId, s': State)
    requires Core(s) && StepRead(s, h, s')
    ensures Core(s')
  {
    var x := s.handlers[h];
    assert HandlerOk(s, x) && RowOk(s, x.chunk);
    HandlerStepKeepsCore(s, s', h);
  }

  lemma ClaimKeepsCore(s: State, h: HandlerId, owner: Owner, started: real, s': State)
    requires Core(s) && StepClaim(s, h, owner, started, s')
    ensures Core(s')
  {
    hide Held;
    if h in s'.handlers {
      forall g | g in s'.handlers ensures HandlerOk(s', s'.handlers[g]) {
        assert HandlerOk(s, s.handlers[g]);
      }
      forall c | 0 <= c < |s'.rows| ensures RowOk(s', c) {
        assert RowOk(s, c);
      }
    } else {
      HandlerStepKeepsCore(s, s', h);
    }
  }

  lemma SendKeepsCore(s: State, h: HandlerId, id: MessageId, s': State)
    requires Core(s) && StepSend(s, h, id, s')
    ensures Core(s')
  {
    var x := s.handlers[h];
    assert HandlerOk(s, x);
    forall g | g in s'.handlers ensures HandlerOk(s', s'.handlers[g]) {
      assert HandlerOk(s, s.handlers[g]);
    }
    forall c | 0 <= c < |s'.rows| ensures RowOk(s', c) {
      assert RowOk(s, c);
      if c == x.chunk {
        forall c' | 0 <= c' < c ensures s'.sends[c'] != [] {
          assert x.ids[c'] in s.sends[c'];
        }
      }
    }
  }

  /** A handler leaves and gives its lease back. */
  lemma ReleaseKeepsCore(s: State, s': State, h: HandlerId, c: nat, owner: Owner)
    requires Core(s) && h in s.handlers && c < |s.rows|
    requires (s.handlers[h].pc.Claimed? || s.handlers[h].pc.Sent?) && s.handlers[h].pc.owner == owner
    requires s' == s.(handlers := s.handlers - {h}, rows := s.rows[c := Release(s.rows[c], owner)], accidents := s'.accidents)
    requires |s'.accidents| == |s.accidents|
    ensures Core(s')
  {
    forall g | g in s'.handlers ensures HandlerOk(s', s'.handlers[g]) {
      assert HandlerOk(s, s.handlers[g]);
    }
    forall d | 0 <= d < |s'.rows| ensures RowOk(s', d) {
      assert RowOk(s, d);
    }
  }

  lemma CheckpointKeepsCore(s: State, h: HandlerId, s': State)
    requires Core(s) && StepCheckpoint(s, h, s')
    ensures Core(s')
  {
    var x := s.handlers[h];
    assert HandlerOk(s, x);
    forall g | g in s'.handlers ensures HandlerOk(s', s'.handlers[g]) {
      assert HandlerOk(s, s.handlers[g]);
    }
    forall c | 0 <= c < |s'.rows| ensures RowOk(s', c) {
      assert RowOk(s, c);
    }
  }

  lemma BeginKeepsCore(s: State, h: HandlerId, s': State)
    requires Core(s) && Step(s, Begin(h), s')
    ensures Core(s')
  {
    HandlerStepKeepsCore(s, s', h);
  }

  lemma TickKeepsCore(s: State, s': State)
    requires Core(s) && s' == s.(now := s'.now)
    ensures Core(s')
  {
    forall g | g in s'.handlers ensures HandlerOk(s', s'.handlers[g]) {
      assert HandlerOk(s, s.handlers[g]);
    }
    forall c | 0 <= c < |s'.rows| ensures RowOk(s', c) {
      assert RowOk(s, c);
    }
  }

  lemma StepKeepsCore(s: State, a: Action, s': State)
    requires Core(s) && Step(s, a, s')
    ensures Core(s') && |s'.rows| == |s.rows|
  {
    hide Held, HandlerOk, RowOk, OwnersDistinct;
    match a
    case Begin(h) => BeginKeepsCore(s, h, s');
    case Read(h) => ReadKeepsCore(s, h, s');
    case Claim(h, owner, started) => ClaimKeepsCore(s, h, owner, started, s');
    case Send(h, id) => SendKeepsCore(s, h, id, s');
    case SendFails(h) => ReleaseKeepsCore(s, s', h, s.handlers[h].chunk, s.handlers[h].pc.owner);
    case Checkpoint(h) => CheckpointKeepsCore(s, h, s');
    case CheckpointFails(h) => ReleaseKeepsCore(s, s', h, s.handlers[h].chunk, s.handlers[h].pc.owner);
    case Crash(h) => HandlerStepKeepsCore(s, s', h);
    case Tick(_) => TickKeepsCore(s, s');
  }

  lemma StepKeepsInv(s: State, a: Action, s': State)
    requires Inv(s) && Step(s, a, s')
    ensures Inv(s')
  {
    hide HandlerOk, OwnersDistinct, RowOk, Paid, Step;
    StepKeepsCore(s, a, s');
    forall c | 0 <= c < |s'.rows| ensures Paid(s', c) {
      StepKeepsPaid(s, a, s', c);
    }
  }

  // ---- Runs -------------------------------------------------------------------------------------

  ghost predicate Run(ss: seq<State>, acts: seq<Action>) {
    && |ss| == |acts| + 1 && Initial(ss[0])
    && forall i :: 0 <= i < |acts| ==> Step(ss[i], acts[i], ss[i + 1])
  }

  lemma {:induction false} RunKeepsInv(ss: seq<State>, acts: seq<Action>, i: nat)
    requires Run(ss, acts) && i < |ss|
    ensures Inv(ss[i]) && |ss[i].rows| == |ss[0].rows|
  {
    hide Step, Inv, Core;
    if i == 0 {
      InvInitially(ss[0]);
    } else {
      RunKeepsInv(ss, acts, i - 1);
      StepKeepsInv(ss[i - 1], acts[i - 1], ss[i]);
      RowsStay(ss[i - 1], acts[i - 1], ss[i]);
    }
  }

  lemma RowsStay(s: State, a: Action, s': State)
    requires Inv(s) && Step(s, a, s')
    ensures |s'.rows| == |s.rows|
  {
    StepKeepsCore(s, a, s');
  }

  /** In every state of every interleaving, the chunks ever sent form a prefix of the reply. */
  lemma SentChunksFormAPrefix(ss: seq<State>, acts: seq<Action>, i: nat) returns (k: nat)
    requires Run(ss, acts) && i < |ss|
    ensures |ss[i].sends| == |ss[i].rows| && k <= |ss[i].rows|
    ensures forall c :: 0 <= c < |ss[i].rows| ==> (ss[i].sends[c] != [] <==> c < k)
  {
    RunKeepsInv(ss, acts, i);
    var s := ss[i];
    k := 0;
    while k < |s.rows| && s.sends[k] != []
      invariant k <= |s.rows| && forall c :: 0 <= c < k ==> s.sends[c] != []
    {
      k := k + 1;
    }
    forall c | k <= c < |s.rows| ensures s.sends[c] == [] {
      assert RowOk(s, c);
    }
  }

  lemma OutcomeKept(s: State, a: Action, s': State, c: nat)
    requires Inv(s) && Step(s, a, s') && c < |s.rows| && s.rows[c].outcome.Some?
    ensures |s'.rows| == |s.rows| && s'.rows[c].outcome == s.rows[c].outcome
  {
    hide Held, Paid, RowOk, OwnersDistinct;
    if a.Checkpoint? {
      assert HandlerOk(s, s.handlers[a.h]);
    }
  }

  /** A recorded message id is never changed, and it is the id of a message that was sent. */
  lemma {:induction false} RecordedIdIsWriteOnce(ss: seq<State>, acts: seq<Action>, i: nat, j: nat, c: nat)
    requires Run(ss, acts) && i <= j < |ss| && c < |ss[i].rows| && ss[i].rows[c].outcome.Some?
    ensures |ss[j].rows| == |ss[i].rows| == |ss[j].sends| && ss[j].rows[c].outcome == ss[i].rows[c].outcome
    ensures ss[i].rows[c].outcome.value in ss[j].sends[c]
    decreases j - i
  {
    hide Step;
    RunKeepsInv(ss, acts, i);
    RunKeepsInv(ss, acts, j);
    if i < j {
      RecordedIdIsWriteOnce(ss, acts, i, j - 1, c);
      RunKeepsInv(ss, acts, j - 1);
      OutcomeKept(ss[j - 1], acts[j - 1], ss[j], c);
    }
    assert RowOk(ss[j], c);
  }

  /** A chunk is sent at most once more than there were accidents with it. */
  lemma SendsAreBounded(ss: seq<State>, acts: seq<Action>, i: nat, c: nat)
    requires Run(ss, acts) && i < |ss| && c < |ss[i].rows|
    ensures |ss[i].sends| == |ss[i].accidents| == |ss[i].rows|
    ensures |ss[i].sends[c]| <= 1 + ss[i].accidents[c]
  {
    RunKeepsInv(ss, acts, i);
    assert Paid(ss[i], c);
  }

  /** No send outlives its lease: a handler that owns its chunk's row does so before the lease expires. */
  ghost predicate Punctual(s: State) {
    forall h :: h in s.handlers && s.handlers[h].chunk < |s.rows|
                && OwnedBy(s.rows[s.handlers[h].chunk], s.handlers[h].pc)
                && s.rows[s.handlers[h].chunk].expires.Some? ==>
                  s.now < s.rows[s.handlers[h].chunk].expires.value
  }

  /** The action loses a handler between its send and its checkpoint. */
  ghost predicate LosesASend(s: State, a: Action) {
    (a.CheckpointFails? || a.Crash?) && a.h in s.handlers && s.handlers[a.h].pc.Sent?
  }

  lemma NoAccident(s: State, a: Action, s': State)
    requires Inv(s) && Step(s, a, s') && Punctual(s) && !LosesASend(s, a)
    ensures s'.accidents == s.accidents
  {
    hide Paid, RowOk, OwnersDistinct;
    if a.Claim? && Held(s, s.handlers[a.h].chunk) {
      var c := s.handlers[a.h].chunk;
      var g :| g in s.handlers && s.handlers[g].chunk == c && OwnedBy(s.rows[c], s.handlers[g].pc);
      assert HandlerOk(s, s.handlers[g]);
    }
  }

  lemma {:induction false} NoAccidents(ss: seq<State>, acts: seq<Action>, i: nat)
    requires Run(ss, acts) && i < |ss|
    requires forall n :: 0 <= n < i ==> Punctual(ss[n]) && !LosesASend(ss[n], acts[n])
    ensures ss[i].accidents == ss[0].accidents
  {
    hide Step, Inv;
    if i > 0 {
      NoAccidents(ss, acts, i - 1);
      RunKeepsInv(ss, acts, i - 1);
      NoAccident(ss[i - 1], acts[i - 1], ss[i]);
    }
  }

  /** If no send outlives its lease and none is lost before its checkpoint, each chunk is sent at most once. */
  lemma EachChunkSentAtMostOnce(ss: seq<State>, acts: seq<Action>, i: nat, c: nat)
    requires Run(ss, acts) && i < |ss| && c < |ss[i].rows|
    requires forall n :: 0 <= n < i ==> Punctual(ss[n]) && !LosesASend(ss[n], acts[n])
    ensures |ss[i].sends| == |ss[i].rows| && |ss[i].sends[c]| <= 1
  {
    hide Step, Inv, Punctual;
    RunKeepsInv(ss, acts, i);
    NoAccidents(ss, acts, i);
    SendsAreBounded(ss, acts, i, c);
  }

  // ---- The endpoint -------------------------------------------------------------------------------

  function Actor(a: Action): Option<HandlerId> {
    if a.Tick? then None else Some(a.h)
  }

  ghost predicate Path(ss: seq<State>, acts: seq<Action>, h: HandlerId) {
    && |ss| == |acts| + 1
    && forall i :: 0 <= i < |acts| ==> Step(ss[i], acts[i], ss[i + 1]) && Actor(acts[i]) != Some(h)
  }

  /** Anything that time and handlers other than `h` can do. */
  ghost predicate Interferes(s: State, s': State, h: HandlerId) {
    exists ss: seq<State>, acts: seq<Action> :: Path(ss, acts, h) && ss[0] == s && ss[|acts|] == s'
  }

  lemma OtherKeepsHandler(s: State, a: Action, s': State, h: HandlerId)
    requires Step(s, a, s') && Actor(a) != Some(h) && h in s.handlers
    ensures h in s'.handlers && s'.handlers[h] == s.handlers[h]
  {
    hide Held;
  }

  lemma {:induction false} PathKeeps(ss: seq<State>, acts: seq<Action>, h: HandlerId, n: nat)
    requires Path(ss, acts, h) && n < |ss| && Inv(ss[0]) && h in ss[0].handlers
    ensures Inv(ss[n]) && h in ss[n].handlers && ss[n].handlers[h] == ss[0].handlers[h] && |ss[n].rows| == |ss[0].rows|
    ensures ss[0].now <= ss[n].now
  {
    hide Step, Inv;
    if n > 0 {
      PathKeeps(ss, acts, h, n - 1);
      TimePasses(ss[n - 1], acts[n - 1], ss[n]);
      StepKeepsInv(ss[n - 1], acts[n - 1], ss[n]);
      RowsStay(ss[n - 1], acts[n - 1], ss[n]);
      OtherKeepsHandler(ss[n - 1], acts[n - 1], ss[n], h);
    }
  }

  lemma TimePasses(s: State, a: Action, s': State)
    requires Step(s, a, s')
    ensures s.now <= s'.now
  {
    hide Held;
  }

  /** Whatever the others do, a handler keeps its place, and the invariant holds. */
  lemma InterferenceKeeps(s: State, s': State, h: HandlerId)
    requires Interferes(s, s', h) && Inv(s) && h in s.handlers
    ensures Inv(s') && h in s'.handlers && s'.handlers[h] == s.handlers[h] && |s'.rows| == |s.rows| && s.now <= s'.now
  {
    hide Step, Inv;
    var ss: seq<State>, acts: seq<Action> :| Path(ss, acts, h) && ss[0] == s && ss[|acts|] == s';
    PathKeeps(ss, acts, h, |acts|);
  }

  lemma {:induction false} Bounded(os: set<Owner>) returns (bound: nat)
    ensures forall o :: o in os ==> o < bound
  {
    bound := 0;
    if os != {} {
      var o :| o in os;
      var rest := Bounded(os - {o});
      assert forall p :: p in os ==> p == o || p in os - {o};
      bound := if rest <= o then o + 1 else rest;
    }
  }

  lemma UuidsDoNotRunOut(os: set<Owner>)
    ensures exists o: Owner :: o !in os
  {
    var bound := Bounded(os);
    assert bound !in os;
  }

  /** The state machine can go from `s` to `s'`. */
  ghost predicate Reaches(s: State, s': State) {
    exists ss: seq<State>, acts: seq<Action> ::
      |ss| == |acts| + 1 && (forall i :: 0 <= i < |acts| ==> Step(ss[i], acts[i], ss[i + 1])) && ss[0] == s && ss[|acts|] == s'
  }

  lemma ReachesSelf(s: State)
    ensures Reaches(s, s)
  {
    hide Step;
    var ss: seq<State>, acts: seq<Action> := [s], [];
    assert |ss| == |acts| + 1 && ss[|acts|] == s;
  }

  lemma ReachesStep(s: State, m: State, a: Action, s': State)
    requires Reaches(s, m) && Step(m, a, s')
    ensures Reaches(s, s')
  {
    hide Step;
    var ss: seq<State>, acts: seq<Action> :|
      |ss| == |acts| + 1 && (forall i :: 0 <= i < |acts| ==> Step(ss[i], acts[i], ss[i + 1])) && ss[0] == s && ss[|acts|] == m;
    var tt, bb := ss + [s'], acts + [a];
    forall i | 0 <= i < |bb| ensures Step(tt[i], bb[i], tt[i + 1]) {
      if i < |acts| {
        assert Step(ss[i], acts[i], ss[i + 1]);
      }
    }
    assert |tt| == |bb| + 1 && tt[0] == s && tt[|bb|] == s';
  }

  lemma {:induction false} ReachesAlong(s: State, ss: seq<State>, acts: seq<Action>, n: nat)
    requires |ss| == |acts| + 1 && (forall i :: 0 <= i < |acts| ==> Step(ss[i], acts[i], ss[i + 1]))
    requires n < |ss| && Reaches(s, ss[0])
    ensures Reaches(s, ss[n])
  {
    hide Step, Reaches;
    if n > 0 {
      ReachesAlong(s, ss, acts, n - 1);
      ReachesStep(s, ss[n - 1], acts[n - 1], ss[n]);
    }
  }

  lemma ReachesTrans(s: State, m: State, s': State)
    requires Reaches(s, m) && Reaches(m, s')
    ensures Reaches(s, s')
  {
    hide Step;
    var ss: seq<State>, acts: seq<Action> :|
      |ss| == |acts| + 1 && (forall i :: 0 <= i < |acts| ==> Step(ss[i], acts[i], ss[i + 1])) && ss[0] == m && ss[|acts|] == s';
    ReachesAlong(s, ss, acts, |acts|);
  }

  lemma ReachesThenInterferes(s: State, m: State, s': State, h: HandlerId)
    requires Reaches(s, m) && Interferes(m, s', h)
    ensures Reaches(s, s')
  {
    hide Step, Reaches;
    var ss: seq<State>, acts: seq<Action> :| Path(ss, acts, h) && ss[0] == m && ss[|acts|] == s';
    ReachesAlong(s, ss, acts, |acts|);
  }

  class Endpoint {
    var now: real
    var rows: seq<Row>
    ghost var handlers: map<HandlerId, Handler>
    var owners: set<Owner>
    ghost var sends: seq<seq<MessageId>>
    ghost var accidents: seq<nat>

    ghost function View(): State
      reads this
    {
      State(now, rows, handlers, owners, sends, accidents)
    }

    ghost predicate Here(h: HandlerId, x: Handler)
      reads this
    {
      h in handlers && handlers[h] == x
    }

    /** Whatever time and the other handlers do. Nothing more is promised of it. */
    method Others(ghost h: HandlerId)
      modifies this
      ensures Interferes(old(View()), View(), h)
    {
      ghost var ss: seq<State>, acts: seq<Action> := [View()], [];
      assert Path(ss, acts, h) && ss[|acts|] == View();
    }

    /** Between two transactions: what any such interference leaves to this handler. */
    method Interfere(ghost h: HandlerId)
      requires Inv(View()) && h in handlers
      modifies this
      ensures Interferes(old(View()), View(), h)
      ensures Inv(View()) && Here(h, old(handlers[h])) && |rows| == |old(rows)| && now >= old(now)
    {
      hide Inv, Interferes;
      Others(h);
      InterferenceKeeps(old(View()), View(), h);
    }

    method ReadOutcome(ghost h: HandlerId, ghost x: Handler, chunk: nat) returns (id: Option<MessageId>)
      requires Inv(View()) && Here(h, x) && x.chunk == chunk < |rows| && x.pc.Start?
      modifies this
      ensures Step(old(View()), Read(h), View()) && Inv(View()) && rows == old(rows) && now == old(now)
      ensures id == rows[chunk].outcome
      ensures if id.Some? then Here(h, Advance(x, id.value)) else Here(h, x.(pc := SawPending))
    {
      hide Inv;
      ShapeFact(View());
      id := rows[chunk].outcome;
      handlers := handlers[h := if id.Some? then Advance(x, id.value) else x.(pc := SawPending)];
      StepKeepsInv(old(View()), Read(h), View());
    }

    method TryClaim(ghost h: HandlerId, ghost x: Handler, chunk: nat, owner: Owner, started: real) returns (claimed: bool)
      requires Inv(View()) && Here(h, x) && x.chunk == chunk < |rows| && x.pc.SawPending? && owner !in owners && started <= now
      modifies this
      ensures Step(old(View()), Claim(h, owner, started), View()) && Inv(View()) && |rows| == |old(rows)|
      ensures claimed <==> old(rows)[chunk].outcome.None? && (old(rows)[chunk].expires.None? || old(rows)[chunk].expires.value <= started)
      ensures rows == if claimed then old(rows)[chunk := Row(None, Some(owner), Some(started + 600.0))] else old(rows)
      ensures if claimed then Here(h, x.(pc := Claimed(owner))) else h !in handlers
    {
      hide Inv;
      ShapeFact(View());
      var r := rows[chunk];
      claimed := r.outcome.None? && (r.expires.None? || r.expires.value <= started);
      if claimed {
        accidents := if Held(View(), chunk) then accidents[chunk := accidents[chunk] + 1] else accidents;
        rows := rows[chunk := Row(None, Some(owner), Some(started + LEASE))];
        handlers := handlers[h := x.(pc := Claimed(owner))];
        owners := owners + {owner};
      } else {
        handlers := handlers - {h};
      }
      StepKeepsInv(old(View()), Claim(h, owner, started), View());
    }

    /** The network call: it posts and reports an id, or it does not post. */
    method SendChunk(ghost h: HandlerId, ghost x: Handler, chunk: nat, owner: Owner, result: Option<MessageId>)
      requires Inv(View()) && Here(h, x) && x.chunk == chunk < |rows| && x.pc == Claimed(owner)
      modifies this
      ensures Inv(View()) && |rows| == |old(rows)|
      ensures Step(old(View()), if result.Some? then Send(h, result.value) else SendFails(h), View())
      ensures if result.Some? then Here(h, x.(pc := Sent(owner, result.value))) else h !in handlers
      ensures chunk < |old(sends)| && sends == if result.Some? then old(sends)[chunk := old(sends)[chunk] + [result.value]] else old(sends)
      ensures rows == if result.None? && old(rows)[chunk].owner == Some(owner)
                      then old(rows)[chunk := old(rows)[chunk].(expires := None)] else old(rows)
    {
      hide Inv;
      ShapeFact(View());
      if result.Some? {
        sends := sends[chunk := sends[chunk] + [result.value]];
        handlers := handlers[h := x.(pc := Sent(owner, result.value))];
        StepKeepsInv(old(View()), Send(h, result.value), View());
      } else {
        if rows[chunk].owner == Some(owner) {
          rows := rows[chunk := rows[chunk].(expires := None)];
        }
        handlers := handlers - {h};
        StepKeepsInv(old(View()), SendFails(h), View());
      }
    }

    /** Records the id while the row is still owned; when that transaction fails, the lease is given back. */
    method RecordOutcome(ghost h: HandlerId, ghost x: Handler, chunk: nat, owner: Owner, id: MessageId, works: bool)
      requires Inv(View()) && Here(h, x) && x.chunk == chunk < |rows| && x.pc == Sent(owner, id)
      modifies this
      ensures Step(old(View()), if works then Checkpoint(h) else CheckpointFails(h), View())
      ensures Inv(View()) && |rows| == |old(rows)|
      ensures if works then Here(h, Advance(x, id)) else h !in handlers
      ensures rows == if old(rows)[chunk].owner != Some(owner) then old(rows)
                      else old(rows)[chunk := Row(if works then Some(id) else old(rows)[chunk].outcome, Some(owner), None)]
    {
      hide Inv;
      ShapeFact(View());
      var owned := rows[chunk].owner == Some(owner);
      if works {
        if owned {
          rows := rows[chunk := Row(Some(id), rows[chunk].owner, None)];
        }
        handlers := handlers[h := Advance(x, id)];
        StepKeepsInv(old(View()), Checkpoint(h), View());
      } else {
        if owned {
          rows := rows[chunk := rows[chunk].(expires := None)];
        }
        handlers := handlers - {h};
        accidents := accidents[chunk := accidents[chunk] + 1];
        StepKeepsInv(old(View()), CheckpointFails(h), View());
      }
    }

    /** `_send_checkpointed`, given what the send would report and whether recording it works. `seen` is the moment that
        decides: the row was recorded already, is in use by another handler, or is claimed; only then the chunk is sent. */
    method SendCheckpointed(ghost h: HandlerId, ghost x: Handler, chunk: nat, result: Option<MessageId>, works: bool)
      returns (id: Option<MessageId>, ghost seen: State)
      requires Inv(View()) && Here(h, x) && x.chunk == chunk < |rows| && x.pc.Start?
      modifies this
      ensures Reaches(old(View()), seen) && Reaches(seen, View()) && Inv(View()) && |rows| == |old(rows)|
      ensures if id.Some? then Here(h, Advance(x, id.value)) else h !in handlers
      ensures Ends(seen, chunk, old(now), result, works, id)
      ensures old(rows)[chunk].outcome.Some? ==> id == old(rows)[chunk].outcome
    {
      hide Inv, Step, Reaches;
      ghost var start, before := View(), View();
      seen := start;
      ReachesSelf(start);
      var started := now;
      id := ReadOutcome(h, x, chunk);
      ReachesStep(start, before, Read(h), View());
      if id.Some? {
        return;
      }
      before := View();
      Interfere(h);
      ReachesThenInterferes(start, before, View(), h);
      UuidsDoNotRunOut(owners);
      var owner: Owner :| owner !in owners;
      seen := View();
      ReachesSelf(seen);
      var claimed := TryClaim(h, x.(pc := SawPending), chunk, owner, started);
      ReachesStep(seen, seen, Claim(h, owner, started), View());
      if claimed {
        id := SendAndRecord(h, x.(pc := Claimed(owner)), chunk, owner, result, works, seen);
      }
    }

    /** The part under the lease. */
    method SendAndRecord(ghost h: HandlerId, ghost x: Handler, chunk: nat, owner: Owner, result: Option<MessageId>, works: bool,
                         ghost start: State)
        returns (id: Option<MessageId>)
      requires Inv(View()) && Here(h, x) && x.chunk == chunk < |rows| && x.pc == Claimed(owner)
      requires Reaches(start, View())
      modifies this
      ensures Reaches(start, View()) && Inv(View()) && |rows| == |old(rows)|
      ensures id == if works then result else None
      ensures if id.Some? then Here(h, Advance(x, id.value)) else h !in handlers
    {
      hide Inv, Step, Reaches;
      ghost var before := View();
      Interfere(h);
      ReachesThenInterferes(start, before, View(), h);
      before := View();
      SendChunk(h, x, chunk, owner, result);
      ReachesStep(start, before, if result.Some? then Send(h, result.value) else SendFails(h), View());
      if result.None? {
        return None;
      }
      ghost var sent := x.(pc := Sent(owner, result.value));
      assert Here(h, sent);
      before := View();
      Interfere(h);
      ReachesThenInterferes(start, before, View(), h);
      before := View();
      RecordOutcome(h, sent, chunk, owner, result.value, works);
      ReachesStep(start, before, if works then Checkpoint(h) else CheckpointFails(h), View());
      id := if works then result else None;
    }

    /** The chunk loop of `post_reply`, given what each send would report and whether recording it works. Success reports one
        id per chunk, each of a message of that chunk. It fails at a chunk that could not be sent or recorded, or was in use
        by another handler when it was looked at (`seen`). */
    method PostReply(ghost h: HandlerId, results: seq<Option<MessageId>>, works: seq<bool>)
      returns (ids: Option<seq<MessageId>>, ghost failed: nat, ghost seen: State)
      requires Inv(View()) && Here(h, Handler(0, [], Start)) && |results| == |works| == |rows|
      modifies this
      ensures Reaches(old(View()), seen) && Reaches(seen, View()) && Inv(View()) && |rows| == |old(rows)|
      ensures ids.Some? ==> |ids.value| == |rows| == |sends| && forall c :: 0 <= c < |rows| ==> ids.value[c] in sends[c]
      ensures ids.Some? ==> forall c :: 0 <= c < |rows| && old(rows)[c].outcome.Some? ==> ids.value[c] == old(rows)[c].outcome.value
      ensures ids.None? ==> && failed < |rows| && old(rows)[failed].outcome.None? && |sends| == |rows|
                            && (results[failed].None? || !works[failed] || InUse(seen, failed, old(now)))
                            && forall c :: 0 <= c < failed ==> sends[c] != []
    {
      hide Inv, Step, Reaches;
      var collected: seq<MessageId> := [];
      ghost var start, before := View(), View();
      failed := 0;
      ReachesSelf(start);
      while |collected| < |rows|
        invariant Reaches(start, View()) && Inv(View()) && |rows| == |old(rows)|
        invariant |collected| <= |rows| && Here(h, Handler(|collected|, collected, Start)) && old(now) <= now
        invariant forall c :: 0 <= c < |collected| && old(rows)[c].outcome.Some? ==> collected[c] == old(rows)[c].outcome.value
        decreases |old(rows)| - |collected|
      {
        before := View();
        Interfere(h);
        ReachesThenInterferes(start, before, View(), h);
        before := View();
        var c := |collected|;
        failed := c;
        CollectedWereSent(View(), h);
        ReachesKeeps(start, View());
        var id;
        id, seen := SendCheckpointed(h, Handler(c, collected, Start), c, results[c], works[c]);
        ReachesTrans(start, before, seen);
        ReachesTrans(start, seen, View());
        ReachesTrans(before, seen, View());
        ReachesLater(before, View());
        if id.None? {
          ReachesKeeps(before, View());
          return None, failed, seen;
        }
        collected := collected + [id.value];
      }
      CollectedWereSent(View(), h);
      seen := View();
      ReachesSelf(seen);
      return Some(collected), failed, seen;
    }
  }

  /** The chunk is recorded, or leased beyond `since`. */
  ghost predicate InUse(s: State, chunk: nat, since: real) {
    chunk < |s.rows| && (s.rows[chunk].outcome.Some? || (s.rows[chunk].expires.Some? && s.rows[chunk].expires.value > since))
  }

  /** How a call ends that began at `since`: with the recorded id, without sending because the chunk is in use, or, when it
      was free, with what sending and recording gave. */
  ghost predicate Ends(seen: State, chunk: nat, since: real, result: Option<MessageId>, works: bool, id: Option<MessageId>) {
    && chunk < |seen.rows|
    && if InUse(seen, chunk, since) then id.None? || id == seen.rows[chunk].outcome
       else id == if works then result else None
  }

  lemma {:induction false} LaterAlong(ss: seq<State>, acts: seq<Action>, n: nat)
    requires |ss| == |acts| + 1 && n < |ss| && forall i :: 0 <= i < |acts| ==> Step(ss[i], acts[i], ss[i + 1])
    ensures ss[0].now <= ss[n].now
  {
    hide Step;
    if n > 0 {
      LaterAlong(ss, acts, n - 1);
      TimePasses(ss[n - 1], acts[n - 1], ss[n]);
    }
  }

  /** What is recorded stays recorded, and what is sent stays sent. */
  ghost predicate Keeps(s: State, s': State) {
    && Shape(s) && Shape(s') && |s'.rows| == |s.rows|
    && (forall c :: 0 <= c < |s.rows| && s.rows[c].outcome.Some? ==> s'.rows[c].outcome == s.rows[c].outcome)
    && (forall c :: 0 <= c < |s.rows| ==> s.sends[c] <= s'.sends[c])
  }

  lemma StepKeeps(s: State, a: Action, s': State)
    requires Inv(s) && Step(s, a, s')
    ensures Keeps(s, s')
  {
    hide Inv, Step;
    StepSends(s, a, s');
    forall c | 0 <= c < |s.rows| && s.rows[c].outcome.Some? ensures s'.rows[c].outcome == s.rows[c].outcome {
      OutcomeKept(s, a, s', c);
    }
  }

  lemma StepSends(s: State, a: Action, s': State)
    requires Inv(s) && Step(s, a, s')
    ensures Shape(s) && Shape(s') && |s'.rows| == |s.rows| && forall c :: 0 <= c < |s.rows| ==> s.sends[c] <= s'.sends[c]
  {
    hide HandlerOk, Held, Paid, RowOk, OwnersDistinct;
  }

  lemma {:induction false} KeptAlong(ss: seq<State>, acts: seq<Action>, n: nat)
    requires |ss| == |acts| + 1 && n < |ss| && (forall i :: 0 <= i < |acts| ==> Step(ss[i], acts[i], ss[i + 1])) && Inv(ss[0])
    ensures Inv(ss[n]) && Keeps(ss[0], ss[n])
  {
    hide Step, HandlerOk, Held, Paid, RowOk, OwnersDistinct;
    if n > 0 {
      KeptAlong(ss, acts, n - 1);
      StepKeepsInv(ss[n - 1], acts[n - 1], ss[n]);
      StepKeeps(ss[n - 1], acts[n - 1], ss[n]);
    }
  }

  lemma ReachesKeeps(s: State, s': State)
    requires Reaches(s, s') && Inv(s)
    ensures Keeps(s, s')
  {
    hide Step, Inv, Keeps;
    var ss: seq<State>, acts: seq<Action> :|
      |ss| == |acts| + 1 && (forall i :: 0 <= i < |acts| ==> Step(ss[i], acts[i], ss[i + 1])) && ss[0] == s && ss[|acts|] == s';
    KeptAlong(ss, acts, |acts|);
  }

  lemma ReachesLater(s: State, s': State)
    requires Reaches(s, s')
    ensures s.now <= s'.now
  {
    hide Step;
    var ss: seq<State>, acts: seq<Action> :|
      |ss| == |acts| + 1 && (forall i :: 0 <= i < |acts| ==> Step(ss[i], acts[i], ss[i + 1])) && ss[0] == s && ss[|acts|] == s';
    LaterAlong(ss, acts, |acts|);
  }

  /** A handler that gives up while it owns its chunk leaves the chunk free: the next handler to try claims it, at once. */
  lemma FailedChunkIsFree(s: State, a: Action, s': State, g: HandlerId, owner: Owner, started: real, s'': State)
    requires Inv(s) && (a.SendFails? || a.CheckpointFails?) && Step(s, a, s')
    requires At(s, a.h) && OwnedBy(s.rows[s.handlers[a.h].chunk], s.handlers[a.h].pc)
    requires Step(s', Claim(g, owner, started), s'') && s'.handlers[g].chunk == s.handlers[a.h].chunk
    ensures g in s''.handlers && s''.handlers[g].pc == Claimed(owner)
    ensures s''.rows[s'.handlers[g].chunk] == Row(None, Some(owner), Some(started + 600.0))
  {
    hide Paid, RowOk, OwnersDistinct, Held;
    assert HandlerOk(s, s.handlers[a.h]);
  }

  lemma ShapeFact(s: State)
    requires Inv(s)
    ensures Shape(s)
  {}

  lemma CollectedWereSent(s: State, h: HandlerId)
    requires Inv(s) && h in s.handlers
    ensures Shape(s) && |s.handlers[h].ids| == s.handlers[h].chunk <= |s.rows|
    ensures forall c :: 0 <= c < s.handlers[h].chunk ==> s.handlers[h].ids[c] in s.sends[c]
  {
    hide Paid, RowOk, OwnersDistinct;
    assert HandlerOk(s, s.handlers[h]);
  }
}
