/**
 `ChannelRateLimiter`: a token bucket per channel, over real time.

 A channel's history is the sequence of its buckets after each grant; `time` is the moment of the grant.
 */
module RateLimiter {
  import opened Options

  type Channel = nat

  datatype Bucket = Bucket(tokens: real, time: real)

  function MinReal(a: real, b: real): real {
    if a <= b then a else b
  }

  /** The tokens available at `now`: a full bucket on first use, otherwise refilled up to the capacity. */
  function Available(capacity: nat, refill: real, b: Option<Bucket>, now: real): real {
    if b.None? then capacity as real
    else MinReal(capacity as real, b.value.tokens + (now - b.value.time) * refill)
  }

  /** A grant whose clock was read at `now`: at once when a token is there, otherwise after a sleep that is not
      shorter than asked for. */
  ghost predicate GrantedAt(capacity: nat, refill: real, b: Option<Bucket>, now: real, b': Bucket)
    requires refill > 0.0
  {
    && (b.Some? ==> b.value.time <= now)
    && var tokens := Available(capacity, refill, b, now);
       if tokens < 1.0 then b'.tokens == 0.0 && b'.time >= now + (1.0 - tokens) / refill
       else b' == Bucket(tokens - 1.0, now)
  }

  ghost predicate Granted(capacity: nat, refill: real, b: Option<Bucket>, b': Bucket)
    requires refill > 0.0
  {
    exists now :: GrantedAt(capacity, refill, b, now, b')
  }

  /** The bucket before grant `i`. */
  ghost function Before(h: seq<Bucket>, i: nat): Option<Bucket>
    requires i <= |h|
  {
    if i == 0 then None else Some(h[i - 1])
  }

  ghost predicate History(capacity: nat, refill: real, h: seq<Bucket>)
    requires refill > 0.0
  {
    forall i :: 0 <= i < |h| ==> Granted(capacity, refill, Before(h, i), h[i])
  }

  // ---- The window bound -------------------------------------------------------------------

  lemma WaitEarnsAToken(missing: real, refill: real, elapsed: real)
    requires refill > 0.0 && elapsed >= missing / refill
    ensures elapsed * refill >= missing
  {
    assert elapsed * refill >= missing / refill * refill;
  }

  /** A bucket is never negative, and a grant costs a token of what the time since the last one refilled. */
  lemma GrantCosts(capacity: nat, refill: real, b: Bucket, b': Bucket)
    requires refill > 0.0 && Granted(capacity, refill, Some(b), b')
    ensures b'.tokens >= 0.0 && b'.time >= b.time
    ensures b'.tokens + 1.0 <= b.tokens + (b'.time - b.time) * refill
  {
    var now :| GrantedAt(capacity, refill, Some(b), now, b');
    var tokens := Available(capacity, refill, Some(b), now);
    if tokens < 1.0 {
      assert (1.0 - tokens) / refill >= 0.0;
      WaitEarnsAToken(1.0 - tokens, refill, b'.time - now);
      assert (b'.time - b.time) * refill == (b'.time - now) * refill + (now - b.time) * refill;
    }
  }

  lemma GrantLeaves(capacity: nat, refill: real, b: Option<Bucket>, b': Bucket)
    requires refill > 0.0 && Granted(capacity, refill, b, b')
    ensures b'.tokens >= 0.0 && (capacity >= 1 ==> b'.tokens <= capacity as real - 1.0) && (capacity == 0 ==> b'.tokens == 0.0)
  {
    var now :| GrantedAt(capacity, refill, b, now, b');
  }

  lemma Distribute(a: real, b: real, c: real)
    ensures (a + b) * c == a * c + b * c
  {}

  /** Over grants i+1 .. j, the bucket pays one token each and gains at most the refill of the time between. */
  lemma {:induction false} Telescope(capacity: nat, refill: real, h: seq<Bucket>, i: nat, j: nat)
    requires refill > 0.0 && History(capacity, refill, h) && i <= j < |h|
    ensures h[j].tokens + (j - i) as real <= h[i].tokens + (h[j].time - h[i].time) * refill
    ensures h[i].time <= h[j].time
    decreases j - i
  {
    hide Granted;
    if i < j {
      Telescope(capacity, refill, h, i, j - 1);
      assert Granted(capacity, refill, Before(h, j), h[j]);
      GrantCosts(capacity, refill, h[j - 1], h[j]);
      Distribute(h[j].time - h[j - 1].time, h[j - 1].time - h[i].time, refill);
    }
  }

  /** Any window holds at most capacity + refill * length grants. (A capacity of zero still grants one at a time.) */
  lemma WindowBound(capacity: nat, refill: real, h: seq<Bucket>, i: nat, j: nat)
    requires refill > 0.0 && History(capacity, refill, h) && i <= j < |h|
    ensures (j - i + 1) as real <= (if capacity == 0 then 1 else capacity) as real + (h[j].time - h[i].time) * refill
  {
    Telescope(capacity, refill, h, i, j);
    GrantLeaves(capacity, refill, Before(h, i), h[i]);
    GrantLeaves(capacity, refill, Before(h, j), h[j]);
  }

  /** With capacity zero the first grant is one in a window of length zero. */
  lemma ZeroCapacityStillGrants(refill: real, t: real)
    requires refill > 0.0
    ensures History(0, refill, [Bucket(0.0, t + 1.0 / refill)])
  {
    assert GrantedAt(0, refill, None, t, Bucket(0.0, t + 1.0 / refill));
  }

  /** All windows of all histories hold at most capacity + refill * length grants. */
  ghost predicate Bounded(capacity: nat, refill: real)
    requires refill > 0.0
  {
    forall h: seq<Bucket>, i: nat, j: nat ::
      History(capacity, refill, h) && i <= j < |h| ==>
        (j - i + 1) as real <= capacity as real + (h[j].time - h[i].time) * refill
  }

  /** The exact condition. */
  lemma BoundHoldsFrom(capacity: nat, refill: real)
    requires refill > 0.0
    ensures Bounded(capacity, refill) <==> capacity >= 1
  {
    hide History;
    if capacity >= 1 {
      forall h: seq<Bucket>, i: nat, j: nat | History(capacity, refill, h) && i <= j < |h|
        ensures (j - i + 1) as real <= capacity as real + (h[j].time - h[i].time) * refill
      {
        WindowBound(capacity, refill, h, i, j);
      }
    } else {
      ZeroCapacityStillGrants(refill, 0.0);
      var h, i: nat, j: nat := [Bucket(0.0, 0.0 + 1.0 / refill)], 0, 0;
      assert History(capacity, refill, h) && i <= j < |h| && (h[j].time - h[i].time) * refill == 0.0;
    }
  }

  // ---- The lower bound --------------------------------------------------------------------

  /** The grants that are due at once: a full bucket on first use; later what was left and what has been refilled since, up to
      the capacity. */
  function Due(capacity: nat, refill: real, b: Option<Bucket>, now: real): (level: real)
    requires refill > 0.0 && (b.Some? ==> b.value.time <= now)
    ensures b.None? ==> level == capacity as real
    ensures b.Some? ==> level <= capacity as real && level <= b.value.tokens + (now - b.value.time) * refill
    ensures b.Some? ==> level == capacity as real || level == b.value.tokens + (now - b.value.time) * refill
  {
    if b.None? then capacity as real
    else
      var refilled := b.value.tokens + (now - b.value.time) * refill;
      if refilled <= capacity as real then refilled else capacity as real
  }

  /** Successive grants, whose clocks all read `now`. */
  ghost predicate Burst(capacity: nat, refill: real, b: Option<Bucket>, now: real, bs: seq<Bucket>)
    requires refill > 0.0
  {
    forall k :: 0 <= k < |bs| ==> GrantedAt(capacity, refill, Previous(b, bs, k), now, bs[k])
  }

  function Previous(b: Option<Bucket>, bs: seq<Bucket>, k: nat): Option<Bucket>
    requires k <= |bs|
  {
    if k == 0 then b else Some(bs[k - 1])
  }

  /** As many grants in a row as are due are granted without sleeping. */
  lemma {:induction false} DueGrantsDoNotSleep(capacity: nat, refill: real, b: Option<Bucket>, now: real, bs: seq<Bucket>)
    requires refill > 0.0 && (b.Some? ==> b.value.time <= now) && Burst(capacity, refill, b, now, bs)
    requires |bs| as real <= Due(capacity, refill, b, now)
    ensures forall k :: 0 <= k < |bs| ==> bs[k] == Bucket(Due(capacity, refill, b, now) - (k + 1) as real, now)
  {
    hide Due, GrantedAt, Burst;
    if bs != [] {
      var n := |bs| - 1;
      var level := Due(capacity, refill, b, now);
      DueIsBounded(capacity, refill, b, now);
      BurstPrefix(capacity, refill, b, now, bs);
      DueGrantsDoNotSleep(capacity, refill, b, now, bs[..n]);
      if n > 0 {
        assert bs[n - 1] == bs[..n][n - 1] == Bucket(level - n as real, now);
        DueAtOnce(capacity, refill, level - n as real, now);
      }
      NextOfBurst(capacity, refill, Previous(b, bs, n), now, bs[n]);
      forall k | 0 <= k < n ensures bs[k] == Bucket(level - (k + 1) as real, now) {
        assert bs[k] == bs[..n][k];
      }
    }
  }

  lemma DueIsBounded(capacity: nat, refill: real, b: Option<Bucket>, now: real)
    requires refill > 0.0 && (b.Some? ==> b.value.time <= now)
    ensures Due(capacity, refill, b, now) <= capacity as real
  {}

  lemma DueAtOnce(capacity: nat, refill: real, tokens: real, now: real)
    requires refill > 0.0 && tokens <= capacity as real
    ensures Due(capacity, refill, Some(Bucket(tokens, now)), now) == tokens
  {}

  lemma BurstPrefix(capacity: nat, refill: real, b: Option<Bucket>, now: real, bs: seq<Bucket>)
    requires refill > 0.0 && Burst(capacity, refill, b, now, bs) && bs != []
    ensures Burst(capacity, refill, b, now, bs[..|bs| - 1])
    ensures GrantedAt(capacity, refill, Previous(b, bs, |bs| - 1), now, bs[|bs| - 1])
  {
    hide GrantedAt;
    var before := bs[..|bs| - 1];
    forall k | 0 <= k < |before| ensures GrantedAt(capacity, refill, Previous(b, before, k), now, before[k]) {
      assert Previous(b, before, k) == Previous(b, bs, k) && before[k] == bs[k];
    }
  }

  lemma NextOfBurst(capacity: nat, refill: real, b: Option<Bucket>, now: real, b': Bucket)
    requires refill > 0.0 && (b.Some? ==> b.value.time <= now) && GrantedAt(capacity, refill, b, now, b')
    requires 1.0 <= Due(capacity, refill, b, now)
    ensures b' == Bucket(Due(capacity, refill, b, now) - 1.0, now)
  {}

  /** After `t` seconds without a grant, that is at least min(capacity, tokens + t * refill) of them, rounded down; a channel
      that was never used grants its capacity at once. */
  lemma IdleChannelsRefill(capacity: nat, refill: real, b: Option<Bucket>, t: real, bs: seq<Bucket>, now: real)
    requires refill > 0.0 && t >= 0.0 && (b.Some? ==> now == b.value.time + t) && Burst(capacity, refill, b, now, bs)
    requires |bs| <= capacity && (b.Some? ==> |bs| as real <= b.value.tokens + t * refill)
    ensures forall k :: 0 <= k < |bs| ==> bs[k].time == now
  {
    DueGrantsDoNotSleep(capacity, refill, b, now, bs);
  }

  // ---- What happens while a coroutine sleeps --------------------------------------------------

  /** The dictionaries of the limiter, the clock, and the grants of each channel. */
  datatype Limiter = Limiter(
    tokens: map<Channel, real>,
    last: map<Channel, real>,
    cooloff: map<Channel, real>,
    clock: real,
    history: map<Channel, seq<Bucket>>)

  ghost function HistoryOf(l: Limiter, c: Channel): seq<Bucket> {
    if c in l.history then l.history[c] else []
  }

  /** The history of a channel ends in the bucket that the two dictionaries hold for it. */
  ghost predicate Recorded(capacity: nat, refill: real, h: seq<Bucket>, tokens: real, last: real, clock: real)
    requires refill > 0.0
  {
    h != [] && h[|h| - 1] == Bucket(tokens, last) && last <= clock && History(capacity, refill, h)
  }

  ghost predicate Sound(capacity: nat, refill: real, l: Limiter) {
    && refill > 0.0 && l.clock >= 0.0
    && l.tokens.Keys == l.last.Keys == l.history.Keys
    && forall c :: c in l.history ==> Recorded(capacity, refill, l.history[c], l.tokens[c], l.last[c], l.clock)
  }

  datatype Event =
    | Tick(seconds: real)
    | Note(channel: Channel, until: real)                  // `note_retry_after`, which takes no lock
    | Grant(channel: Channel, bucket: Bucket, read: real)  // the end of an `acquire`, under the channel's lock

  function Granting(l: Limiter, c: Channel, b: Bucket, h: seq<Bucket>): Limiter {
    l.(tokens := l.tokens[c := b.tokens], last := l.last[c := b.time], history := l.history[c := h + [b]])
  }

  ghost predicate Occurs(capacity: nat, refill: real, l: Limiter, e: Event, l': Limiter)
    requires refill > 0.0
  {
    match e
    case Tick(seconds) => seconds >= 0.0 && l' == l.(clock := l.clock + seconds)
    case Note(c, until) => until >= l.clock && l' == l.(cooloff := l.cooloff[c := until])
    case Grant(c, b, read) =>
      var h := HistoryOf(l, c);
      GrantedAt(capacity, refill, Before(h, |h|), read, b) && b.time <= l.clock && l' == Granting(l, c, b, h)
  }

  /** Events, none of them a grant on channel `me`, whose lock is held. */
  ghost predicate Path(capacity: nat, refill: real, ls: seq<Limiter>, es: seq<Event>, me: Channel)
    requires refill > 0.0
  {
    && |ls| == |es| + 1
    && forall i :: 0 <= i < |es| ==> Occurs(capacity, refill, ls[i], es[i], ls[i + 1]) && !(es[i].Grant? && es[i].channel == me)
  }

  ghost predicate Happens(capacity: nat, refill: real, l: Limiter, l': Limiter, me: Channel)
    requires refill > 0.0
  {
    exists ls: seq<Limiter>, es: seq<Event> :: Path(capacity, refill, ls, es, me) && ls[0] == l && ls[|es|] == l'
  }

  lemma LastBucket(capacity: nat, refill: real, l: Limiter, c: Channel)
    requires Sound(capacity, refill, l)
    ensures var h := HistoryOf(l, c);
            && History(capacity, refill, h) && (h == [] <==> c !in l.tokens) && (c in l.tokens <==> c in l.last)
            && (h != [] ==> h[|h| - 1] == Bucket(l.tokens[c], l.last[c]) && l.last[c] <= l.clock)
  {
    hide History;
    EmptyHistory(capacity, refill);
    assert c in l.tokens.Keys <==> c in l.history.Keys;
  }

  lemma GrantKeepsSound(capacity: nat, refill: real, l: Limiter, c: Channel, b: Bucket, read: real)
    requires Sound(capacity, refill, l) && b.time <= l.clock
    requires GrantedAt(capacity, refill, Before(HistoryOf(l, c), |HistoryOf(l, c)|), read, b)
    ensures Sound(capacity, refill, Granting(l, c, b, HistoryOf(l, c)))
  {
    hide History, GrantedAt;
    LastBucket(capacity, refill, l, c);
    ExtendHistory(capacity, refill, HistoryOf(l, c), read, b);
  }

  /** Histories only grow, and the clock only advances. */
  ghost predicate Grows(l: Limiter, l': Limiter) {
    l.clock <= l'.clock && forall c :: HistoryOf(l, c) <= HistoryOf(l', c)
  }

  lemma OccursKeeps(capacity: nat, refill: real, l: Limiter, e: Event, l': Limiter, me: Channel)
    requires Sound(capacity, refill, l) && Occurs(capacity, refill, l, e, l') && !(e.Grant? && e.channel == me)
    ensures Sound(capacity, refill, l') && Grows(l, l') && HistoryOf(l', me) == HistoryOf(l, me)
  {
    hide History, GrantedAt;
    if e.Grant? {
      GrantKeepsSound(capacity, refill, l, e.channel, e.bucket, e.read);
    }
  }

  lemma {:induction false} PathKeeps(capacity: nat, refill: real, ls: seq<Limiter>, es: seq<Event>, me: Channel, n: nat)
    requires refill > 0.0 && Path(capacity, refill, ls, es, me) && n < |ls| && Sound(capacity, refill, ls[0])
    ensures Sound(capacity, refill, ls[n]) && Grows(ls[0], ls[n]) && HistoryOf(ls[n], me) == HistoryOf(ls[0], me)
  {
    hide Sound, Occurs, HistoryOf;
    if n > 0 {
      PathKeeps(capacity, refill, ls, es, me, n - 1);
      OccursKeeps(capacity, refill, ls[n - 1], es[n - 1], ls[n], me);
    }
  }

  /** Whatever happens while the channel's lock is held, its own bucket stays. */
  lemma HappeningKeeps(capacity: nat, refill: real, l: Limiter, l': Limiter, me: Channel)
    requires Sound(capacity, refill, l) && Happens(capacity, refill, l, l', me)
    ensures Sound(capacity, refill, l') && Grows(l, l') && HistoryOf(l', me) == HistoryOf(l, me)
  {
    hide Occurs, HistoryOf;
    var ls: seq<Limiter>, es: seq<Event> :| Path(capacity, refill, ls, es, me) && ls[0] == l && ls[|es|] == l';
    PathKeeps(capacity, refill, ls, es, me, |es|);
  }

  // ---- The limiter --------------------------------------------------------------------------

  class ChannelRateLimiter {
    const capacity: nat
    const refill: real
    var tokens: map<Channel, real>
    var last: map<Channel, real>
    var cooloffUntil: map<Channel, real>
    var clock: real
    ghost var history: map<Channel, seq<Bucket>>

    ghost function View(): Limiter
      reads this
    {
      Limiter(tokens, last, cooloffUntil, clock, history)
    }

    ghost predicate Valid()
      reads this
    {
      Sound(capacity, refill, View())
    }

    constructor (capacity: nat, refill: real)
      requires refill > 0.0
      ensures Valid() && this.capacity == capacity && this.refill == refill && history == map[]
    {
      this.capacity, this.refill := capacity, refill;
      tokens, last, cooloffUntil, history, clock := map[], map[], map[], map[], 0.0;
    }

    /** At least `seconds` pass, and the other coroutines go on meanwhile. Nothing more is promised of them. */
    method Others(ghost me: Channel, seconds: real)
      requires refill > 0.0 && seconds >= 0.0
      modifies this
      ensures Happens(capacity, refill, old(View()), View(), me) && clock >= old(clock) + seconds
    {
      clock := clock + seconds;
      ghost var ls, es := [old(View()), View()], [Tick(seconds)];
      assert Path(capacity, refill, ls, es, me) && ls[|es|] == View();
    }

    /** asyncio.sleep under the lock of channel `me`, and time.monotonic after it. */
    method Sleep(ghost me: Channel, seconds: real) returns (now: real)
      requires Valid() && seconds >= 0.0
      modifies this
      ensures Valid() && Grows(old(View()), View()) && now == clock >= old(clock) + seconds
      ensures HistoryOf(View(), me) == old(HistoryOf(View(), me))
    {
      hide Happens, HistoryOf, Grows;
      Others(me, seconds);
      HappeningKeeps(capacity, refill, old(View()), View(), me);
      now := clock;
    }

    method NoteRetryAfter(channel: Channel, seconds: real)
      requires Valid()
      modifies this`cooloffUntil
      ensures Valid() && Occurs(capacity, refill, old(View()), Note(channel, clock + if seconds < 0.0 then 0.0 else seconds), View())
    {
      hide History;
      cooloffUntil := cooloffUntil[channel := clock + if seconds < 0.0 then 0.0 else seconds];
    }

    /** Sleeps over the cool-off as it is when the lock has been taken; one noted later is for later calls. */
    method AwaitCooloff(channel: Channel) returns (now: real)
      requires Valid()
      modifies this
      ensures Valid() && Grows(old(View()), View()) && now == clock
      ensures HistoryOf(View(), channel) == old(HistoryOf(View(), channel))
      ensures channel in old(cooloffUntil) ==> now >= old(cooloffUntil[channel])
      ensures !old(Cooling(channel)) ==> View() == old(View())
    {
      hide Sound, HistoryOf;
      SoundFact(capacity, refill, View());
      now := clock;
      var cooloff := if channel in cooloffUntil then cooloffUntil[channel] else 0.0;
      if cooloff > now {
        now := Sleep(channel, cooloff - now);
      }
    }

    ghost predicate Cooling(channel: Channel)
      reads this
    {
      channel in cooloffUntil && cooloffUntil[channel] > clock
    }

    /** The refilled bucket of a channel. */
    method Refilled(channel: Channel, now: real) returns (available: real)
      requires Valid()
      ensures var h := HistoryOf(View(), channel); available == Available(capacity, refill, Before(h, |h|), now)
      ensures channel !in tokens ==> available == capacity as real
      ensures channel in tokens ==>
                var refilled := tokens[channel] + (now - last[channel]) * refill;
                available == if refilled <= capacity as real then refilled else capacity as real
    {
      hide History, Sound, HistoryOf;
      hide Available;
      LevelOfBucket(capacity, refill, View(), channel, now);
      available := if channel in tokens then tokens[channel] else capacity as real;
      var since := if channel in last then last[channel] else now;
      NoTimeNoRefill(now, since, refill);
      available := MinReal(capacity as real, available + (now - since) * refill);
    }

    /** Sleep until a token is there; `b` is the bucket to be recorded. */
    method AwaitToken(channel: Channel, available: real, read: real) returns (b: Bucket)
      requires Valid() && read == clock
      requires var h := HistoryOf(View(), channel); available == Available(capacity, refill, Before(h, |h|), read)
      modifies this
      ensures Valid() && Grows(old(View()), View()) && read <= b.time <= clock
      ensures HistoryOf(View(), channel) == old(HistoryOf(View(), channel))
      ensures var h := HistoryOf(View(), channel); GrantedAt(capacity, refill, Before(h, |h|), read, b)
      ensures if available >= 1.0 then View() == old(View()) && b == Bucket(available - 1.0, read)
              else b.tokens == 0.0 && b.time >= read + (1.0 - available) / refill
    {
      hide History, Sound, Available, HistoryOf;
      LastBucket(capacity, refill, View(), channel);
      SoundFact(capacity, refill, View());
      if available < 1.0 {
        assert (1.0 - available) / refill >= 0.0;
        var now := Sleep(channel, (1.0 - available) / refill);
        b := Bucket(1.0 - 1.0, now);
      } else {
        b := Bucket(available - 1.0, read);
      }
    }

    /** `acquire`: one grant is added to the channel's history, which stays lawful, whatever other coroutines do while it
        sleeps; the cool-off found at the start has elapsed. Without a cool-off, a call for which a token is due is granted at
        once, taking one of those that are due; any other sleeps until its token has been refilled and leaves none. */
    method Acquire(channel: Channel)
      requires Valid()
      modifies this
      ensures Valid() && Grows(old(View()), View())
      ensures |HistoryOf(View(), channel)| == |old(HistoryOf(View(), channel))| + 1 && channel in tokens && channel in last
      ensures HistoryOf(View(), channel)[|HistoryOf(View(), channel)| - 1] == Bucket(tokens[channel], last[channel])
      ensures channel in old(cooloffUntil) ==> last[channel] >= old(cooloffUntil[channel])
      ensures !old(Cooling(channel)) ==>
                var level := old(Level(channel));
                if level >= 1.0 then clock == old(clock) && last[channel] == old(clock) && Level(channel) == level - 1.0
                                     && cooloffUntil == old(cooloffUntil)
                else tokens[channel] == 0.0 && last[channel] >= old(clock) + (1.0 - level) / refill
    {
      hide Sound, GrantedAt, Available, HistoryOf;
      ghost var level := Level(channel);
      ghost var cooling := Cooling(channel);
      LevelFact(channel);
      var read := AwaitCooloff(channel);
      var available := Refilled(channel, read);
      assert !cooling ==> available == level;
      var b := AwaitToken(channel, available, read);
      Record(channel, b, read);
      if !cooling && level >= 1.0 {
        LevelAfterGrant(channel);
      }
    }

    /** The grants of a channel that are due now. */
    ghost function Level(channel: Channel): real
      requires Valid()
      reads this
    {
      var h := HistoryOf(View(), channel);
      LastBucket(capacity, refill, View(), channel);
      SoundFact(capacity, refill, View());
      Due(capacity, refill, Before(h, |h|), clock)
    }

    lemma LevelFact(channel: Channel)
      requires Valid()
      ensures var h := HistoryOf(View(), channel); Level(channel) == Available(capacity, refill, Before(h, |h|), clock)
    {
      hide Sound, HistoryOf;
      LastBucket(capacity, refill, View(), channel);
      SoundFact(capacity, refill, View());
    }

    /** Right after a grant at this moment, what it left is due. */
    lemma LevelAfterGrant(channel: Channel)
      requires Valid() && channel in tokens && channel in last && last[channel] == clock && tokens[channel] <= capacity as real
      ensures Level(channel) == tokens[channel]
    {
      hide History;
      LastBucket(capacity, refill, View(), channel);
    }

    /** `_tokens[channel_id] = ..; _last[channel_id] = ..` */
    method Record(channel: Channel, b: Bucket, ghost read: real)
      requires Valid() && b.time <= clock
      requires var h := HistoryOf(View(), channel); GrantedAt(capacity, refill, Before(h, |h|), read, b)
      modifies this`tokens, this`last, this`history
      ensures Valid() && Grows(old(View()), View()) && channel in last && last[channel] == b.time
      ensures channel in tokens && tokens[channel] == b.tokens
      ensures HistoryOf(View(), channel) == old(HistoryOf(View(), channel)) + [b]
    {
      hide Sound, GrantedAt;
      GrantKeepsSound(capacity, refill, View(), channel, b, read);
      tokens := tokens[channel := b.tokens];
      last := last[channel := b.time];
      history := history[channel := HistoryOf(View(), channel) + [b]];
      assert View() == Granting(old(View()), channel, b, old(HistoryOf(View(), channel)));
    }

    /** Every window of every channel's grants is bounded. */
    lemma EveryWindowIsBounded(c: Channel, i: nat, j: nat)
      requires Valid() && i <= j < |HistoryOf(View(), c)|
      ensures var h := HistoryOf(View(), c);
              (j - i + 1) as real <= (if capacity == 0 then 1 else capacity) as real + (h[j].time - h[i].time) * refill
    {
      hide History, Sound, HistoryOf;
      LastBucket(capacity, refill, View(), c);
      SoundFact(capacity, refill, View());
      WindowBound(capacity, refill, HistoryOf(View(), c), i, j);
    }
  }

  lemma SoundFact(capacity: nat, refill: real, l: Limiter)
    requires Sound(capacity, refill, l)
    ensures refill > 0.0 && l.clock >= 0.0
  {}

  lemma LevelOfBucket(capacity: nat, refill: real, l: Limiter, c: Channel, now: real)
    requires Sound(capacity, refill, l)
    ensures c in l.tokens <==> c in l.last
    ensures var h := HistoryOf(l, c);
            Available(capacity, refill, Before(h, |h|), now)
            == if c in l.tokens then MinReal(capacity as real, l.tokens[c] + (now - l.last[c]) * refill) else capacity as real
  {
    hide Sound, History, HistoryOf;
    LastBucket(capacity, refill, l, c);
  }

  lemma NoTimeNoRefill(now: real, since: real, refill: real)
    ensures now == since ==> (now - since) * refill == 0.0
  {}

  lemma EmptyHistory(capacity: nat, refill: real)
    requires refill > 0.0
    ensures History(capacity, refill, [])
  {}

  lemma ExtendHistory(capacity: nat, refill: real, h: seq<Bucket>, now: real, b: Bucket)
    requires refill > 0.0 && History(capacity, refill, h) && GrantedAt(capacity, refill, Before(h, |h|), now, b)
    ensures History(capacity, refill, h + [b])
  {
    hide GrantedAt;
    var h' := h + [b];
    forall i | 0 <= i < |h'| ensures Granted(capacity, refill, Before(h', i), h'[i]) {
      if i < |h| {
        assert Granted(capacity, refill, Before(h, i), h[i]);
        assert Before(h', i) == Before(h, i);
      } else {
        assert Before(h', i) == Before(h, |h|);
      }
    }
  }
}
