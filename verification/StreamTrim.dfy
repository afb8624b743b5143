/**
 `trim_acknowledged`: removing stream history that every consumer group has read and acknowledged,
 while deliveries, acknowledgements, claims and appends go on between its reads and its XTRIM.
 */
module StreamTrim {
  import opened Options

  /** A stream entry id: milliseconds and sequence, compared lexicographically. */
  datatype Id = Id(ms: nat, seqno: nat)

  predicate Less(a: Id, b: Id) {
    a.ms < b.ms || (a.ms == b.ms && a.seqno < b.seqno)
  }

  function MinId(a: Id, b: Id): Id {
    if Less(b, a) then b else a
  }

  type GroupName = nat

  /** A consumer group: the last id delivered to it, and the ids delivered but not acknowledged. */
  datatype Group = Group(last: Id, pending: set<Id>)

  datatype Stream = Stream(entries: set<Id>, groups: map<GroupName, Group>)

  /** The entry is unread or pending in some group. */
  ghost predicate Needed(s: Stream, id: Id) {
    exists g :: g in s.groups && (Less(s.groups[g].last, id) || id in s.groups[g].pending)
  }

  // ---- What others may do meanwhile ------------------------------------------------------

  datatype Event =
    | Append(id: Id)
    | Deliver(group: GroupName, id: Id)   // XREADGROUP '>'
    | Ack(group: GroupName, id: Id)       // XACK, also that of a dead letter
    | Claim(group: GroupName, id: Id)     // XAUTOCLAIM, which forgets a pending id whose entry is gone
    | Remove(id: Id)                      // another trim

  ghost predicate Occurs(s: Stream, e: Event, s': Stream) {
    match e
    case Append(id) => (forall i :: i in s.entries ==> Less(i, id)) && s' == s.(entries := s.entries + {id})
    case Deliver(g, id) =>
      && g in s.groups && id in s.entries && Less(s.groups[g].last, id)
      && s' == s.(groups := s.groups[g := Group(id, s.groups[g].pending + {id})])
    case Ack(g, id) =>
      g in s.groups && s' == s.(groups := s.groups[g := s.groups[g].(pending := s.groups[g].pending - {id})])
    case Claim(g, id) =>
      && g in s.groups
      && s' == if id in s.entries then s
               else s.(groups := s.groups[g := s.groups[g].(pending := s.groups[g].pending - {id})])
    case Remove(id) => s' == s.(entries := s.entries - {id})
  }

  /** The groups are the same, their last delivered ids only grow, and what was delivered by then and is
      pending now was pending then. */
  ghost predicate Evolves(s: Stream, s': Stream) {
    && s'.groups.Keys == s.groups.Keys
    && forall g :: g in s.groups ==>
         && !Less(s'.groups[g].last, s.groups[g].last)
         && forall i :: i in s'.groups[g].pending && !Less(s.groups[g].last, i) ==> i in s.groups[g].pending
  }

  lemma OccursEvolves(s: Stream, e: Event, s': Stream)
    requires Occurs(s, e, s')
    ensures Evolves(s, s')
  {}

  lemma EvolvesTransitive(s: Stream, s': Stream, s'': Stream)
    requires Evolves(s, s') && Evolves(s', s'')
    ensures Evolves(s, s'')
  {
    forall g | g in s.groups
      ensures !Less(s''.groups[g].last, s.groups[g].last)
      ensures forall i :: i in s''.groups[g].pending && !Less(s.groups[g].last, i) ==> i in s.groups[g].pending
    {
      assert g in s'.groups;
    }
  }

  /** Whatever happens in between, and in whatever order, the stream evolves. */
  lemma {:induction false} RunEvolves(ss: seq<Stream>, es: seq<Event>, n: nat)
    requires |ss| == |es| + 1 && n < |ss|
    requires forall i :: 0 <= i < |es| ==> Occurs(ss[i], es[i], ss[i + 1])
    ensures Evolves(ss[0], ss[n])
  {
    if n > 0 {
      RunEvolves(ss, es, n - 1);
      OccursEvolves(ss[n - 1], es[n - 1], ss[n]);
      EvolvesTransitive(ss[0], ss[n - 1], ss[n]);
    }
  }

  ghost predicate IsPath(ss: seq<Stream>, es: seq<Event>) {
    |ss| == |es| + 1 && forall i :: 0 <= i < |es| ==> Occurs(ss[i], es[i], ss[i + 1])
  }

  /** Some events lead from `s` to `s'`. */
  ghost predicate Happens(s: Stream, s': Stream) {
    exists ss: seq<Stream>, es: seq<Event> :: IsPath(ss, es) && ss[0] == s && ss[|es|] == s'
  }

  lemma HappeningEvolves(s: Stream, s': Stream)
    requires Happens(s, s')
    ensures Evolves(s, s')
  {
    hide Occurs, Evolves;
    var ss: seq<Stream>, es: seq<Event> :| IsPath(ss, es) && ss[0] == s && ss[|es|] == s';
    RunEvolves(ss, es, |es|);
  }

  /** Group `g` has read and acknowledged everything below `floor`. */
  ghost predicate Passed(s: Stream, g: GroupName, floor: Id) {
    g in s.groups && !Less(s.groups[g].last, floor) && forall i :: i in s.groups[g].pending ==> !Less(i, floor)
  }

  /** A group that has passed a floor stays past it. */
  lemma PassedForever(s: Stream, s': Stream, g: GroupName, floor: Id)
    requires Evolves(s, s') && Passed(s, g, floor)
    ensures Passed(s', g, floor)
  {}

  /** Every group has read on past the entry and waits for nothing up to it. */
  ghost predicate Behind(s: Stream, id: Id) {
    forall g :: g in s.groups ==> Less(id, s.groups[g].last) && forall i :: i in s.groups[g].pending ==> Less(id, i)
  }

  /** What a group reports later is no lower than what it was past at first. */
  lemma BehindForever(s: Stream, s': Stream, g: GroupName, id: Id)
    requires Evolves(s, s') && Behind(s, id) && g in s.groups
    ensures g in s'.groups && Less(id, s'.groups[g].last) && forall i :: i in s'.groups[g].pending ==> Less(id, i)
  {}

  lemma PassedIsNotNeeded(s: Stream, id: Id, floor: Id)
    requires Less(id, floor) && forall g :: g in s.groups ==> Passed(s, g, floor)
    ensures !Needed(s, id)
  {}

  class RedisStream {
    var entries: set<Id>
    var groups: map<GroupName, Group>

    ghost function View(): Stream
      reads this
    {
      Stream(entries, groups)
    }

    /** Any number of events of other clients. Nothing more is promised of them. */
    method Others()
      modifies this
      ensures Happens(old(View()), View())
    {
      ghost var ss: seq<Stream>, es: seq<Event> := [View()], [];
      assert IsPath(ss, es) && ss[|es|] == View();
    }

    method Interfere()
      modifies this
      ensures Evolves(old(View()), View())
    {
      hide Happens, Evolves;
      Others();
      HappeningEvolves(old(View()), View());
    }

    /** XPENDING - + COUNT 1: the smallest pending id of a group. */
    method FirstPending(g: GroupName) returns (first: Option<Id>)
      requires g in groups
      ensures first.None? <==> groups[g].pending == {}
      ensures first.Some? ==> first.value in groups[g].pending
                              && forall i :: i in groups[g].pending ==> !Less(i, first.value)
    {
      var rest := groups[g].pending;
      first := None;
      while rest != {}
        invariant rest <= groups[g].pending
        invariant first.None? ==> rest == groups[g].pending
        invariant first.Some? ==> first.value in groups[g].pending
                                  && forall i :: i in groups[g].pending && i !in rest ==> !Less(i, first.value)
      {
        var i :| i in rest;
        rest := rest - {i};
        if first.None? || Less(i, first.value) {
          first := Some(i);
        }
      }
    }

    /** The reads: XINFO GROUPS once, then XPENDING group by group, lowering the floor. */
    method ReadFloor(cutoff: Id) returns (floor: Id)
      modifies this
      ensures Evolves(old(View()), View())
      ensures !Less(cutoff, floor)
      ensures forall g :: g in groups ==> Passed(View(), g, floor)
      ensures forall id :: Less(id, cutoff) && Behind(old(View()), id) ==> Less(id, floor)
    {
      hide Evolves, Behind;
      var infos := groups;
      ghost var s0 := View();
      EvolvesReflexive(s0);
      floor := cutoff;
      var rest := infos.Keys;
      while rest != {}
        invariant rest <= infos.Keys && infos == s0.groups
        invariant Evolves(s0, View())
        invariant !Less(cutoff, floor)
        invariant forall g :: g in infos && g !in rest ==> Passed(View(), g, floor)
        invariant forall id :: Less(id, cutoff) && Behind(s0, id) ==> Less(id, floor)
      {
        ghost var s1 := View();
        Interfere();
        EvolvesTransitive(s0, s1, View());
        AllPassedForever(s1, View(), infos.Keys - rest, floor);
        var g :| g in rest;
        rest := rest - {g};
        LastOnlyGrows(s0, View(), g);
        ghost var floor0 := floor;
        assert forall id :: Less(id, cutoff) && Behind(s0, id) ==>
                 Less(id, infos[g].last) && forall i :: i in groups[g].pending ==> Less(id, i) by {
          forall id | Less(id, cutoff) && Behind(s0, id)
            ensures Less(id, infos[g].last) && forall i :: i in groups[g].pending ==> Less(id, i)
          {
            BehindForever(s0, View(), g, id);
            BehindFact(s0, g, id);
          }
        }
        floor := MinId(floor, infos[g].last);
        var first := FirstPending(g);
        if first.Some? {
          floor := MinId(floor, first.value);
        }
        AllPassedLower(View(), infos.Keys - rest - {g}, floor0, floor);
        assert Passed(View(), g, floor);
      }
      SameGroups(s0, View());
    }

    /** `before` is the stream at the moment of the XTRIM. No entry that is unread or pending in any group then
        is removed, nothing younger than the retention time is, and the groups are not touched. If there is a group,
        everything older that all groups were past when the procedure was called is removed. */
    method TrimAcknowledged(nowMs: nat, retentionHours: nat) returns (removed: nat, ghost before: Stream)
      modifies this
      ensures Evolves(old(View()), before)
      ensures groups == before.groups && entries <= before.entries && removed == |before.entries - entries|
      ensures forall i :: i in before.entries && Needed(before, i) ==> i in entries
      ensures forall i :: i in before.entries - entries ==> i.ms + retentionHours * 3600000 < nowMs
      ensures groups == map[] ==> entries == before.entries
      ensures groups != map[] ==>
                forall i :: i in before.entries && i.ms + retentionHours * 3600000 < nowMs && Behind(old(View()), i) ==> i !in entries
    {
      hide Evolves, Needed, Passed, Behind;
      ghost var s0 := View();
      EvolvesReflexive(s0);
      removed, before := 0, s0;
      if groups.Keys == {} {
        assert before.entries - entries == {};
        return;
      }
      var age := retentionHours * 3600000;
      var floor := ReadFloor(Id(if nowMs < age then 0 else nowMs - age, 0));
      ghost var s1 := View();
      SameGroups(s0, s1);
      if floor == Id(0, 0) {
        before := View();
        assert before.entries - entries == {};
        return;
      }
      Interfere();
      before := View();
      EvolvesTransitive(s0, s1, before);
      SameGroups(s1, before);
      AllPassedForever(s1, before, groups.Keys, floor);
      forall i | i in entries && Less(i, floor) ensures !Needed(before, i) {
        PassedIsNotNeeded(before, i, floor);
      }
      var kept := set i | i in entries && !Less(i, floor);
      removed := |entries - kept|;
      entries := kept;
    }
  }

  lemma BehindFact(s: Stream, g: GroupName, id: Id)
    requires Behind(s, id) && g in s.groups
    ensures Less(id, s.groups[g].last)
  {}

  lemma EvolvesReflexive(s: Stream)
    ensures Evolves(s, s)
  {}

  lemma SameGroups(s: Stream, s': Stream)
    requires Evolves(s, s')
    ensures s'.groups.Keys == s.groups.Keys
  {}

  lemma LastOnlyGrows(s: Stream, s': Stream, g: GroupName)
    requires Evolves(s, s') && g in s.groups
    ensures g in s'.groups && !Less(s'.groups[g].last, s.groups[g].last)
  {}

  lemma AllPassedForever(s: Stream, s': Stream, gs: set<GroupName>, floor: Id)
    requires Evolves(s, s') && forall g :: g in gs ==> Passed(s, g, floor)
    ensures forall g :: g in gs ==> Passed(s', g, floor)
  {
    hide Evolves, Passed;
    forall g | g in gs ensures Passed(s', g, floor) {
      PassedForever(s, s', g, floor);
    }
  }

  lemma AllPassedLower(s: Stream, gs: set<GroupName>, floor: Id, floor': Id)
    requires !Less(floor, floor') && forall g :: g in gs ==> Passed(s, g, floor)
    ensures forall g :: g in gs ==> Passed(s, g, floor')
  {}
}
