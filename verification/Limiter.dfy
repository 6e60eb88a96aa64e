/** The process-wide rate limiter: slots are reserved under a lock, callers sleep outside it, and a barrier
  * raised meanwhile makes a sleeper queue again. Time is counted in ticks.
  */
module Limiter {
  import opened Rows
  import opened Counting

  function Max(a: int, b: int): int {
    if a < b then b else a
  }

  function Min(a: int, b: int): int {
    if a < b then a else b
  }

  // ---------------------------------------------------------------- reserved slots

  /** Neighbouring slots are at least an interval apart. */
  predicate Spaced(slots: seq<int>, interval: nat) {
    forall i | 0 < i < |slots| :: slots[i - 1] + interval <= slots[i]
  }

  /** No slot was pushed further than one interval past its predecessor, or past the barrier and the clock. */
  predicate Prompt(slots: seq<int>, interval: nat, horizon: int) {
    && (|slots| > 0 ==> slots[0] <= horizon)
    && forall i | 0 < i < |slots| :: slots[i] <= Max(horizon, slots[i - 1] + interval)
  }

  lemma {:induction false} SpacedApart(slots: seq<int>, interval: nat, i: nat, j: nat)
    requires Spaced(slots, interval) && i <= j < |slots|
    ensures slots[i] + (j - i) * interval <= slots[j]
    decreases j - i
  {
    if i < j {
      SpacedApart(slots, interval, i, j - 1);
      assert (j - i) * interval == (j - 1 - i) * interval + interval;
    }
  }

  function InWindow(slots: seq<int>, start: int, width: nat): set<nat> {
    set i: nat | i < |slots| && start <= slots[i] < start + width
  }

  function Ceil(a: nat, b: nat): nat
    requires b > 0
  {
    (a + b - 1) / b
  }

  lemma {:induction false} Interval(n: nat) returns (all: set<nat>)
    ensures (forall i: nat :: i in all <==> i < n) && |all| == n
  {
    all := {};
    if n > 0 {
      var fewer := Interval(n - 1);
      all := fewer + {n - 1};
    }
  }

  /** No window of `width` ticks holds more than `width / interval` slots, rounded up. */
  lemma WindowBound(slots: seq<int>, interval: nat, start: int, width: nat)
    requires Spaced(slots, interval) && interval > 0
    ensures |InWindow(slots, start, width)| <= Ceil(width, interval)
  {
    var held := InWindow(slots, start, width);
    if held == {} { return; }
    var first: nat := Least(held);
    var n := Ceil(width, interval);
    forall i | i in held ensures first <= i < first + n {
      SpacedApart(slots, interval, first, i);
      CeilBound(i - first, width, interval);
    }
    var all := Interval(n);
    var shifted := map i: nat | i in all :: first + i;
    ImageSize(shifted);
    assert held <= shifted.Values by {
      forall i | i in held ensures i in shifted.Values { assert i - first in all && shifted[i - first] == i; }
    }
    SubsetSize(held, shifted.Values);
    assert shifted.Keys == all;
  }

  lemma CeilBound(k: nat, width: nat, interval: nat)
    requires interval > 0 && k * interval < width
    ensures k < Ceil(width, interval)
  {
    var n := Ceil(width, interval);
    var r := (width + interval - 1) % interval;
    assert width + interval - 1 == n * interval + r;
    if n <= k { Times(n, k, interval); }
  }

  lemma {:induction false} Least(s: set<nat>) returns (m: nat)
    requires s != {}
    ensures m in s && forall i | i in s :: m <= i
    decreases |s|
  {
    var x :| x in s;
    m := x;
    if s != {x} {
      var rest := Least(s - {x});
      m := if rest < x then rest else x;
      forall i | i in s ensures m <= i { assert i == x || i in s - {x}; }
    }
  }

  lemma {:induction false} ImageSize<K, V>(m: map<K, V>)
    ensures |m.Values| <= |m.Keys|
    decreases |m.Keys|
  {
    if m.Keys != {} {
      var k :| k in m.Keys;
      var rest := m - {k};
      assert rest.Keys == m.Keys - {k};
      ImageSize(rest);
      assert m.Values <= rest.Values + {m[k]} by {
        forall v | v in m.Values ensures v in rest.Values + {m[k]} {
          var x :| x in m && m[x] == v;
          if x != k { assert x in rest && rest[x] == v; }
        }
      }
      SubsetSize(m.Values, rest.Values + {m[k]});
    } else {
      assert m.Values == {};
    }
  }

  /** `k` intervals. */
  function Span(k: nat, interval: nat): nat {
    if k == 0 then 0 else Span(k - 1, interval) + interval
  }

  lemma {:induction false} SpanMonotone(j: nat, k: nat, interval: nat)
    requires j <= k
    ensures Span(j, interval) <= Span(k, interval)
    decreases k
  {
    if j < k { SpanMonotone(j, k - 1, interval); }
  }

  lemma {:induction false} SpanIsProduct(k: nat, interval: nat)
    ensures Span(k, interval) == k * interval
  {
    if k > 0 {
      SpanIsProduct(k - 1, interval);
      assert k * interval == (k - 1) * interval + interval;
    }
  }

  /** The last slot is at most one interval per still future slot past the horizon. */
  lemma {:induction false} QueueBound(slots: seq<int>, interval: nat, horizon: int, now: int, past: nat)
    requires Prompt(slots, interval, horizon) && now <= horizon && past <= |slots| && |slots| > 0
    requires past > 0 ==> slots[past - 1] <= now
    ensures slots[|slots| - 1] <= horizon + Span(|slots| - past, interval)
    decreases |slots|
  {
    var n := |slots|;
    if past < n && n > 1 {
      var fewer := slots[..n - 1];
      assert fewer[n - 2] == slots[n - 2] && (past > 0 ==> fewer[past - 1] == slots[past - 1]);
      QueueBound(fewer, interval, horizon, now, past);
    }
  }

  /** The slots that still lie in the future. They are the last ones, because slots only grow. */
  function Ahead(slots: seq<int>, now: int): (k: nat)
    ensures k <= |slots|
  {
    if slots == [] || slots[|slots| - 1] <= now then 0 else 1 + Ahead(slots[..|slots| - 1], now)
  }

  lemma {:induction false} AheadIsSuffix(slots: seq<int>, interval: nat, now: int)
    requires Spaced(slots, interval)
    ensures var past := |slots| - Ahead(slots, now);
            && (past > 0 ==> slots[past - 1] <= now)
            && forall i | 0 <= i < |slots| :: (slots[i] > now <==> i >= past)
    decreases |slots|
  {
    var n := |slots|;
    if n > 0 && slots[n - 1] > now {
      AheadIsSuffix(slots[..n - 1], interval, now);
    } else {
      forall i: nat | i < n ensures slots[i] <= now { SpacedApart(slots, interval, i, n - 1); Times(0, n - 1 - i, interval); }
    }
  }

  lemma StillSpaced(slots: seq<int>, interval: nat, slot: int)
    requires Spaced(slots, interval) && (slots != [] ==> slots[|slots| - 1] + interval <= slot)
    ensures Spaced(slots + [slot], interval)
  {
    var more := slots + [slot];
    forall i | 0 < i < |more| ensures more[i - 1] + interval <= more[i] {
      if i < |slots| { assert more[i] == slots[i] && more[i - 1] == slots[i - 1]; }
    }
  }

  lemma StillPrompt(slots: seq<int>, gap: nat, horizon: int, slot: int)
    requires Prompt(slots, gap, horizon)
    requires slot <= if slots == [] then horizon else Max(horizon, slots[|slots| - 1] + gap)
    ensures Prompt(slots + [slot], gap, horizon)
  {
    var more := slots + [slot];
    forall i | 0 < i < |more| ensures more[i] <= Max(horizon, more[i - 1] + gap) {
      if i < |slots| { assert more[i] == slots[i] && more[i - 1] == slots[i - 1]; }
    }
  }

  /** A new slot lies at most one gap per slot ahead of it, and one more, past the horizon. */
  lemma NewSlotBound(slots: seq<int>, interval: nat, gap: nat, horizon: int, now: int, slot: int)
    requires Spaced(slots, interval) && Prompt(slots + [slot], gap, horizon) && now <= horizon
    ensures slot <= horizon + Span(Ahead(slots, now) + 1, gap)
  {
    AheadIsSuffix(slots, interval, now);
    var past := |slots| - Ahead(slots, now);
    var more := slots + [slot];
    assert past > 0 ==> more[past - 1] == slots[past - 1];
    QueueBound(more, gap, horizon, now, past);
  }

  lemma PromptLonger(slots: seq<int>, gap: nat, horizon: int, horizon': int)
    requires Prompt(slots, gap, horizon) && horizon <= horizon'
    ensures Prompt(slots, gap, horizon')
  {
    forall i | 0 < i < |slots| ensures slots[i] <= Max(horizon', slots[i - 1] + gap) {
      assert slots[i] <= Max(horizon, slots[i - 1] + gap);
    }
  }

  /** The first tick from `from` on at which another slot may follow `slots`. */
  function Following(slots: seq<int>, interval: nat, from: int): int {
    if slots == [] then from else Max(from, slots[|slots| - 1] + interval)
  }

  // ---------------------------------------------------------------- one gate

  class RateLimiter {
    const interval: nat
    const maxCooldown: nat
    var nextSlot: int
    var blockedUntil: int
    var cooldowns: nat
    ghost var slots: seq<int>     // every slot ever reserved
    ghost var raises: nat         // how often the barrier was raised

    /** What holds of a gate at time `now`, whoever shares its budget. */
    ghost predicate Valid(now: int)
      reads this
    {
      && interval > 0 && now >= 0 && Spaced(slots, interval)
      && (slots != [] ==> slots[|slots| - 1] + interval <= nextSlot)
      && nextSlot <= Max(Max(0, blockedUntil), if slots == [] then 0 else slots[|slots| - 1] + interval)
      && blockedUntil <= now + maxCooldown
    }

    /** ... and of a gate whose slots depend on nothing else. */
    ghost predicate Alone(now: int)
      reads this
    {
      Valid(now) && Prompt(slots, interval, Max(now, blockedUntil))
    }

    constructor (interval: nat, maxCooldown: nat)
      requires interval > 0
      ensures Alone(0) && slots == [] && raises == 0 && cooldowns == 0
      ensures this.interval == interval && this.maxCooldown == maxCooldown
    {
      this.interval, this.maxCooldown := interval, maxCooldown;
      nextSlot, blockedUntil, cooldowns, slots, raises := 0, 0, 0, [], 0;
    }

    /** The critical section of `acquire`: the first slot is reserved that lies behind the clock and the barrier and
      * an interval past the last one. It lies at most one interval per caller that still waits, and one more, past
      * the clock or the barrier.
      */
    method Reserve(now: int) returns (slot: int)
      requires Alone(now)
      modifies this`nextSlot, this`slots
      ensures Alone(now) && slots == old(slots) + [slot] && nextSlot == slot + interval
      ensures slot == Following(old(slots), interval, Max(now, blockedUntil))
      ensures slot <= Max(now, blockedUntil) + Span(Ahead(old(slots), now) + 1, interval)
    {
      slot := Max(Max(now, nextSlot), blockedUntil);
      StillSpaced(slots, interval, slot);
      StillPrompt(slots, interval, Max(now, blockedUntil), slot);
      NewSlotBound(slots, interval, interval, Max(now, blockedUntil), now, slot);
      hide Spaced, Prompt;
      nextSlot, slots := slot + interval, slots + [slot];
    }

    /** A slot that may be further away than this gate alone would ask for is reserved. */
    method Take(ghost now: int, slot: int)
      requires Valid(now) && nextSlot <= slot
      modifies this`nextSlot, this`slots
      ensures Valid(now) && slots == old(slots) + [slot] && nextSlot == slot + interval
    {
      StillSpaced(slots, interval, slot);
      nextSlot, slots := slot + interval, slots + [slot];
    }

    /** The check after the sleep: a slot that a barrier has overtaken is void. */
    method Stands(slot: int) returns (ok: bool)
      ensures ok <==> blockedUntil <= slot
    {
      ok := blockedUntil <= slot;
    }

    /** `penalize`: the barrier moves to `delay` past the clock, cut at the longest pause, and never back. */
    method Penalize(now: int, delay: int) returns (capped: int)
      requires Valid(now)
      modifies this`nextSlot, this`blockedUntil, this`cooldowns, this`raises
      ensures Valid(now) && (old(Alone(now)) ==> Alone(now))
      ensures capped == Max(0, Min(delay, maxCooldown)) && cooldowns == old(cooldowns) + 1
      ensures blockedUntil == Max(old(blockedUntil), now + capped) && blockedUntil <= nextSlot
      ensures raises == old(raises) + if blockedUntil > old(blockedUntil) then 1 else 0
    {
      capped := Max(0, Min(delay, maxCooldown));
      if now + capped > blockedUntil { raises := raises + 1; }
      blockedUntil := Max(blockedUntil, now + capped);
      nextSlot := Max(nextSlot, blockedUntil);
      cooldowns := cooldowns + 1;
    }

    /** Time passes. */
    lemma Later(now: int, now': int)
      requires now <= now'
      ensures (Valid(now) ==> Valid(now')) && (Alone(now) ==> Alone(now'))
    {
    }

    /** What other callers do while this one is outside the lock; `budget` bounds their penalties. */
    method Others(now: int, budget: nat) returns (now': int, left: nat)
      requires Alone(now)
      modifies this
      ensures Alone(now') && now <= now' && left <= budget
      ensures raises - old(raises) <= budget - left && old(raises) <= raises
      ensures blockedUntil >= old(blockedUntil)
      ensures blockedUntil > old(blockedUntil) ==> raises > old(raises)
      ensures |slots| >= |old(slots)| && slots[..|old(slots)|] == old(slots)
    {
      now', left := now, budget;
      var rounds: nat := *;
      while rounds > 0
        invariant Alone(now') && now <= now' && left <= budget
        invariant raises - old(raises) <= budget - left && old(raises) <= raises
        invariant blockedUntil >= old(blockedUntil)
        invariant blockedUntil > old(blockedUntil) ==> raises > old(raises)
        invariant |slots| >= |old(slots)| && slots[..|old(slots)|] == old(slots)
        decreases rounds
      {
        var kind: int, delay: int, ticks: nat := *, *, *;
        if kind == 0 {
          var _ := Reserve(now');
        } else if kind == 1 && left > 0 {
          var _ := Penalize(now', delay);
          left := left - 1;
        } else {
          Later(now', now' + ticks);
          now' := now' + ticks;
        }
        rounds := rounds - 1;
      }
    }

    /** `acquire` without a checkpoint. It queues again only when the barrier was raised over its slot, so at
      * most once per raise; the slot it returns with is not overtaken.
      */
    method Acquire(now: int, budget: nat) returns (slot: int, now': int, turns: nat)
      requires Alone(now)
      modifies this
      ensures Alone(now') && slot <= now' && slot in slots && blockedUntil <= slot
      ensures 1 <= turns <= 1 + raises - old(raises)
      ensures turns <= 1 + budget
    {
      now', turns := now, 0;
      var left: nat := budget;
      while true
        invariant Alone(now') && left <= budget
        invariant old(raises) <= raises && turns <= raises - old(raises) && raises - old(raises) <= budget - left
        decreases left
      {
        turns := turns + 1;
        slot := Reserve(now');
        ghost var at := |slots| - 1;
        ghost var before := raises;
        ghost var was := left;
        now', left := Others(now', left);
        if now' < slot {
          Later(now', slot);
          now' := slot;
        }
        assert slots[at] == slot;
        var ok := Stands(slot);
        if ok { return; }
        assert before < raises;
      }
    }
  }

  // ---------------------------------------------------------------- two lanes under one budget

  datatype Lane = Read | Write

  datatype Reservation = Reservation(lane: Lane, slot: int)

  function SlotsOf(log: seq<Reservation>, lane: Lane): seq<int> {
    if log == [] then []
    else
      var before, last := SlotsOf(log[..|log| - 1], lane), log[|log| - 1];
      if last.lane == lane then before + [last.slot] else before
  }

  function AllSlots(log: seq<Reservation>): (slots: seq<int>)
    ensures |slots| == |log| && forall i | 0 <= i < |log| :: slots[i] == log[i].slot
  {
    seq(|log|, i requires 0 <= i < |log| => log[i].slot)
  }

  lemma LastOfLane(log: seq<Reservation>, lane: Lane)
    ensures var s := SlotsOf(log, lane); s != [] ==> exists i | 0 <= i < |log| :: log[i].slot == s[|s| - 1]
  {
    if log != [] && log[|log| - 1].lane != lane {
      LastOfLane(log[..|log| - 1], lane);
      var s := SlotsOf(log, lane);
      if s != [] {
        var i :| 0 <= i < |log| - 1 && log[..|log| - 1][i].slot == s[|s| - 1];
        assert log[i].slot == s[|s| - 1];
      }
    }
  }

  lemma LaneIsOlder(log: seq<Reservation>, lane: Lane, interval: nat)
    requires Spaced(AllSlots(log), interval)
    ensures var mine, all := SlotsOf(log, lane), AllSlots(log);
            mine != [] ==> all != [] && mine[|mine| - 1] <= all[|all| - 1]
  {
    LastOfLane(log, lane);
    var mine, all := SlotsOf(log, lane), AllSlots(log);
    if mine != [] {
      var i: nat :| i < |log| && log[i].slot == mine[|mine| - 1];
      SpacedApart(all, interval, i, |all| - 1);
      Times(0, |all| - 1 - i, interval);
    }
  }

  lemma LogGrows(log: seq<Reservation>, r: Reservation)
    ensures SlotsOf(log + [r], r.lane) == SlotsOf(log, r.lane) + [r.slot]
    ensures forall lane: Lane | lane != r.lane :: SlotsOf(log + [r], lane) == SlotsOf(log, lane)
    ensures AllSlots(log + [r]) == AllSlots(log) + [r.slot]
  {
    var more := log + [r];
    assert more[..|log|] == log;
    forall lane: Lane ensures SlotsOf(more, lane) == SlotsOf(log, lane) + if r.lane == lane then [r.slot] else [] {}
  }

  /** The first tick from `from` on at which `lane` may have another slot: an interval of its own past its last one,
    * and a total interval past the last one of all.
    */
  function Due(log: seq<Reservation>, lane: Lane, interval: nat, total: nat, from: int): int {
    Following(AllSlots(log), total, Following(SlotsOf(log, lane), interval, from))
  }

  /** A reservation of the other lane holds a caller up only through the total budget: until one total interval
    * behind it, and no longer.
    */
  lemma OtherLane(log: seq<Reservation>, r: Reservation, lane: Lane, interval: nat, total: nat, from: int)
    requires r.lane != lane && Spaced(AllSlots(log + [r]), total)
    ensures Due(log + [r], lane, interval, total, from) == Max(Due(log, lane, interval, total, from), r.slot + total)
  {
    LogGrows(log, r);
    var all := AllSlots(log + [r]);
    if log != [] { assert all[|log| - 1] + total <= all[|log|]; }
  }

  class SplitRateLimiter {
    const read: RateLimiter
    const write: RateLimiter
    const total: RateLimiter
    ghost var log: seq<Reservation>

    constructor (read: nat, write: nat, total: nat, maxCooldown: nat)
      requires read > 0 && write > 0 && total > 0
      ensures Valid(0) && log == [] && fresh(this.read) && fresh(this.write) && fresh(this.total)
      ensures this.read.interval == read && this.write.interval == write && this.total.interval == total
    {
      this.read := new RateLimiter(read, maxCooldown);
      this.write := new RateLimiter(write, maxCooldown);
      this.total := new RateLimiter(total, maxCooldown);
      log := [];
    }

    function LaneOf(lane: Lane): RateLimiter {
      if lane.Read? then read else write
    }

    /** How often a barrier that a caller of `lane` looks at was raised. */
    ghost function Raises(lane: Lane): nat
      reads LaneOf(lane), total
    {
      LaneOf(lane).raises + total.raises
    }

    function Slowest(): nat {
      if read.interval < write.interval
      then if write.interval < total.interval then total.interval else write.interval
      else if read.interval < total.interval then total.interval else read.interval
    }

    function Horizon(now: int): int
      reads read, write, total
    {
      Max(Max(now, total.blockedUntil), Max(read.blockedUntil, write.blockedUntil))
    }

    /** The lanes and the parent account for the same reservations. */
    ghost predicate Valid(now: int)
      reads this, read, write, total
    {
      && read != write && read != total && write != total
      && read.Valid(now) && write.Valid(now) && total.Valid(now)
      && read.slots == SlotsOf(log, Read) && write.slots == SlotsOf(log, Write) && total.slots == AllSlots(log)
      && Prompt(total.slots, Slowest(), Horizon(now))
    }

    function NextSlot(lane: Lane, now: int): int
      reads read, write, total
    {
      Max(Max(now, Max(LaneOf(lane).nextSlot, total.nextSlot)), Max(LaneOf(lane).blockedUntil, total.blockedUntil))
    }

    /** The latest of the clock and the two barriers that a caller of `lane` looks at. */
    function Open(lane: Lane, now: int): int
      reads LaneOf(lane), total
    {
      Max(now, Max(LaneOf(lane).blockedUntil, total.blockedUntil))
    }

    /** The critical section of `acquire`: the lane and the parent are reserved together, at the first tick that the
      * clock, the two barriers, the lane and the total budget leave.
      */
    method Reserve(lane: Lane, now: int) returns (slot: int)
      requires Valid(now)
      modifies this`log, read`nextSlot, read`slots, write`nextSlot, write`slots, total`nextSlot, total`slots
      ensures Valid(now) && log == old(log) + [Reservation(lane, slot)]
      ensures slot == Due(old(log), lane, LaneOf(lane).interval, total.interval, Open(lane, now))
      ensures now <= slot && LaneOf(lane).blockedUntil <= slot && total.blockedUntil <= slot
      ensures slot <= Horizon(now) + Span(Ahead(old(total.slots), now) + 1, Slowest())
    {
      slot := NextSlot(lane, now);
      ReserveBound(lane, now, slot);
      NextIsDue(lane, now);
      hide *;
      Commit(lane, now, slot);
    }

    /** What a penalty adds to the next slots is no more than the barriers ask for. */
    lemma NextIsDue(lane: Lane, now: int)
      requires Valid(now)
      ensures NextSlot(lane, now) == Due(log, lane, LaneOf(lane).interval, total.interval, Open(lane, now))
    {
      hide Prompt, Spaced, SlotsOf, AllSlots;
    }

    lemma ReserveBound(lane: Lane, now: int, slot: int)
      requires Valid(now) && slot == NextSlot(lane, now)
      ensures Prompt(total.slots + [slot], Slowest(), Horizon(now))
      ensures LaneOf(lane).nextSlot <= slot && total.nextSlot <= slot && now <= slot
      ensures LaneOf(lane).blockedUntil <= slot && total.blockedUntil <= slot
      ensures slot <= Horizon(now) + Span(Ahead(total.slots, now) + 1, Slowest())
    {
      NotPushed(lane, now, slot);
      hide Prompt, Spaced, Span, Ahead, SlotsOf, AllSlots;
      NewSlotBound(total.slots, total.interval, Slowest(), Horizon(now), now, slot);
    }

    method Commit(lane: Lane, now: int, slot: int)
      requires Valid(now) && LaneOf(lane).nextSlot <= slot && total.nextSlot <= slot
      requires Prompt(total.slots + [slot], Slowest(), Horizon(now))
      modifies this`log, read`nextSlot, read`slots, write`nextSlot, write`slots, total`nextSlot, total`slots
      ensures Valid(now) && log == old(log) + [Reservation(lane, slot)]
      ensures Open(lane, now) == old(Open(lane, now)) && Horizon(now) == old(Horizon(now))
    {
      LogGrows(log, Reservation(lane, slot));
      hide Spaced, Prompt, SlotsOf, AllSlots, Span, Ahead;
      if lane.Read? { read.Take(now, slot); } else { write.Take(now, slot); }
      total.Take(now, slot);
      log := log + [Reservation(lane, slot)];
    }

    /** The next slot lies at most one interval of the slowest gate past the last one. */
    lemma NotPushed(lane: Lane, now: int, slot: int)
      requires Valid(now)
      requires slot == NextSlot(lane, now)
      ensures Prompt(total.slots + [slot], Slowest(), Horizon(now)) && Spaced(total.slots + [slot], total.interval)
    {
      LaneIsOlder(log, lane, total.interval);
      hide Prompt, Spaced, SlotsOf, AllSlots;
      StillSpaced(total.slots, total.interval, slot);
      StillPrompt(total.slots, Slowest(), Horizon(now), slot);
    }

    /** The check after the sleep looks at the barrier of the lane and at that of the parent. */
    method Stands(lane: Lane, slot: int) returns (ok: bool)
      ensures ok <==> LaneOf(lane).blockedUntil <= slot && total.blockedUntil <= slot
    {
      ok := Max(LaneOf(lane).blockedUntil, total.blockedUntil) <= slot;
    }

    /** The gates in the order in which `penalize` raises their barriers. */
    function Gate(stage: nat): RateLimiter {
      if stage == 0 then read else if stage == 1 then write else total
    }

    /** One of the three steps of `penalize`; anything may happen between them. */
    method PenalizeGate(stage: nat, now: int, delay: int) returns (capped: int)
      requires Valid(now) && stage < 3
      modifies read`nextSlot, read`blockedUntil, read`cooldowns, read`raises,
               write`nextSlot, write`blockedUntil, write`cooldowns, write`raises,
               total`nextSlot, total`blockedUntil, total`cooldowns, total`raises
      ensures Valid(now) && Horizon(now) >= old(Horizon(now))
      ensures capped == Max(0, Min(delay, Gate(stage).maxCooldown))
      ensures Gate(stage).blockedUntil == Max(old(Gate(stage).blockedUntil), now + capped)
      ensures forall k | 0 <= k < 3 && k != stage :: Gate(k).blockedUntil == old(Gate(k).blockedUntil)
      ensures forall lane :: old(Raises(lane)) <= Raises(lane)
      ensures forall lane | Raises(lane) == old(Raises(lane)) ::
                LaneOf(lane).blockedUntil == old(LaneOf(lane).blockedUntil) && total.blockedUntil == old(total.blockedUntil)
    {
      hide Spaced, SlotsOf, AllSlots;
      ghost var horizon := Horizon(now);
      if stage == 0 {
        capped := read.Penalize(now, delay);
      } else if stage == 1 {
        capped := write.Penalize(now, delay);
      } else {
        capped := total.Penalize(now, delay);
      }
      PromptLonger(total.slots, Slowest(), horizon, Horizon(now));
    }

    lemma Later(now: int, now': int)
      requires Valid(now) && now <= now'
      ensures Valid(now')
    {
      PromptLonger(total.slots, Slowest(), Horizon(now), Horizon(now'));
    }
  }

  // ---------------------------------------------------------------- any number of callers, interleaved

  type CallerId = nat

  datatype Penalty = Penalty(delay: int, stage: nat)

  /** A caller was let through: the slot it holds and the barriers it saw, how often it queued, and how often one of
    * these barriers was raised meanwhile.
    */
  datatype Grant = Grant(reservation: Reservation, time: int, barrier: int, turns: nat, raises: nat)

  /** A call of `acquire`: how often it queued, and how often its barriers had been raised when it began and when it
    * queued last.
    */
  datatype Call = Call(turns: nat, start: nat, seen: nat)

  /** Every slot still ahead belongs to a caller that waits or gave up, and nobody passed a barrier it saw. */
  ghost predicate Books(log: seq<Reservation>, waiting: map<CallerId, Reservation>, left: set<Reservation>,
                        grants: seq<Grant>, now: int)
  {
    && (forall i | 0 <= i < |log| && log[i].slot > now :: log[i] in waiting.Values || log[i] in left)
    && (forall c | c in waiting :: waiting[c] in log)
    && (forall i | 0 <= i < |grants| :: Passed(log, grants[i]))
  }

  /** The reservations whose slot lies in the future. */
  function Future(log: seq<Reservation>, now: int): set<Reservation> {
    set i | 0 <= i < |log| && log[i].slot > now :: log[i]
  }

  /** The slots rise, so that the last one is new. */
  lemma LastIsLatest(log: seq<Reservation>, interval: nat)
    requires Spaced(AllSlots(log), interval) && interval > 0 && log != []
    ensures var n := |log| - 1;
            && AllSlots(log)[..n] == AllSlots(log[..n]) && Spaced(AllSlots(log[..n]), interval)
            && forall i: nat | i < n :: log[i].slot < log[n].slot
  {
    var n := |log| - 1;
    var slots, before := AllSlots(log), AllSlots(log[..n]);
    assert slots[..n] == before;
    forall i | 0 < i < n ensures before[i - 1] + interval <= before[i] { assert slots[i - 1] + interval <= slots[i]; }
    forall i: nat | i < n ensures log[i].slot < log[n].slot {
      SpacedApart(slots, interval, i, n);
      Times(1, n - i, interval);
    }
  }

  lemma FutureGrows(log: seq<Reservation>, now: int)
    requires log != [] && forall i: nat | i < |log| - 1 :: log[i].slot < log[|log| - 1].slot
    ensures var n := |log| - 1;
            if log[n].slot > now then Future(log, now) == Future(log[..n], now) + {log[n]} && log[n] !in Future(log[..n], now)
            else Future(log, now) == {}
  {
    var n := |log| - 1;
    forall r | r in Future(log, now) ensures r in Future(log[..n], now) + {log[n]} {
      var i :| 0 <= i < |log| && log[i] == r && r.slot > now;
      if i < n { assert log[..n][i] == r; }
    }
  }

  lemma {:induction false} FutureSize(log: seq<Reservation>, interval: nat, now: int)
    requires Spaced(AllSlots(log), interval) && interval > 0
    ensures |Future(log, now)| == Ahead(AllSlots(log), now)
    decreases |log|
  {
    if log != [] {
      LastIsLatest(log, interval);
      FutureSize(log[..|log| - 1], interval, now);
      FutureGrows(log, now);
      hide Spaced, Future;
    }
  }

  /** The callers that wait for a slot in the future. */
  function Waiting(waiting: map<CallerId, Reservation>, now: int): set<CallerId> {
    set c | c in waiting && waiting[c].slot > now
  }

  /** The slots in the future that nobody waits for any more. */
  function Unused(left: set<Reservation>, now: int): set<Reservation> {
    set r | r in left && r.slot > now
  }

  /** Every slot in the future is one that a caller waits for, or that a caller gave up. */
  lemma AheadIsQueue(log: seq<Reservation>, interval: nat, waiting: map<CallerId, Reservation>, left: set<Reservation>,
                     grants: seq<Grant>, now: int)
    requires Spaced(AllSlots(log), interval) && interval > 0 && Books(log, waiting, left, grants, now)
    ensures Ahead(AllSlots(log), now) <= |Waiting(waiting, now)| + |Unused(left, now)|
  {
    FutureSize(log, interval, now);
    var held := map c | c in Waiting(waiting, now) :: waiting[c];
    ImageSize(held);
    forall r | r in Future(log, now) ensures r in held.Values + Unused(left, now) {
      if r !in left {
        var c :| c in waiting && waiting[c] == r;
        assert held[c] == r;
      }
    }
    SubsetSize(Future(log, now), held.Values + Unused(left, now));
    assert held.Keys == Waiting(waiting, now);
  }

  lemma WaitersBounded(log: seq<Reservation>, interval: nat, gap: nat, horizon: int, now: int,
                       waiting: map<CallerId, Reservation>, queue: nat)
    requires Spaced(AllSlots(log), interval) && Prompt(AllSlots(log), gap, horizon) && now <= horizon
    requires Ahead(AllSlots(log), now) <= queue && forall c | c in waiting :: waiting[c] in log
    ensures forall c | c in waiting :: waiting[c].slot <= horizon + Span(queue, gap)
  {
    var slots := AllSlots(log);
    AheadIsSuffix(slots, interval, now);
    hide Prompt, Spaced, Ahead;
    if slots != [] {
      QueueBound(slots, gap, horizon, now, |slots| - Ahead(slots, now));
      SpanMonotone(Ahead(slots, now), queue, gap);
      hide Prompt, Ahead, Span;
      forall c | c in waiting ensures waiting[c].slot <= slots[|slots| - 1] {
        var i :| 0 <= i < |log| && log[i] == waiting[c];
        NoneIsLater(slots, interval, i);
      }
    }
  }

  lemma NoneIsLater(slots: seq<int>, interval: nat, i: nat)
    requires Spaced(slots, interval) && i < |slots|
    ensures slots[i] <= slots[|slots| - 1]
  {
    SpacedApart(slots, interval, i, |slots| - 1);
    Times(0, |slots| - 1 - i, interval);
  }

  /** The barriers that the callers of a lane look at: how often they were raised, and the later one. */
  datatype Sight = Sight(raises: nat, barrier: int)

  /** Every time a caller queued again a barrier had been raised since, and one that lies behind its slot now was
    * raised since it queued last.
    */
  predicate Justified(waiting: map<CallerId, Reservation>, calls: map<CallerId, Call>, read: Sight, write: Sight) {
    && calls.Keys == waiting.Keys
    && forall c | c in waiting ::
         var call, sight := calls[c], if waiting[c].lane.Read? then read else write;
         && call.turns >= 1 && call.start + call.turns <= call.seen + 1 && call.seen <= sight.raises
         && (sight.raises == call.seen ==> sight.barrier <= waiting[c].slot)
  }

  function Queues(calls: map<CallerId, Call>, c: CallerId, sight: Sight): map<CallerId, Call> {
    calls[c := if c !in calls then Call(1, sight.raises, sight.raises)
               else Call(calls[c].turns + 1, calls[c].start, sight.raises)]
  }

  lemma JustifiedQueued(waiting: map<CallerId, Reservation>, calls: map<CallerId, Call>, read: Sight, write: Sight,
                        c: CallerId, r: Reservation)
    requires Justified(waiting, calls, read, write)
    requires var sight := if r.lane.Read? then read else write;
             sight.barrier <= r.slot && (c in waiting ==> waiting[c].lane == r.lane && waiting[c].slot < sight.barrier)
    ensures Justified(waiting[c := r], Queues(calls, c, if r.lane.Read? then read else write), read, write)
  {
  }

  /** A barrier is not raised without being counted. */
  lemma JustifiedLater(waiting: map<CallerId, Reservation>, calls: map<CallerId, Call>, read: Sight, write: Sight,
                       read': Sight, write': Sight)
    requires Justified(waiting, calls, read, write)
    requires read.raises <= read'.raises && (read'.raises == read.raises ==> read' == read)
    requires write.raises <= write'.raises && (write'.raises == write.raises ==> write' == write)
    ensures Justified(waiting, calls, read', write')
  {
  }

  predicate Passed(log: seq<Reservation>, g: Grant) {
    g.reservation in log && g.barrier <= g.reservation.slot <= g.time && g.turns <= 1 + g.raises
  }

  lemma BooksLater(log: seq<Reservation>, waiting: map<CallerId, Reservation>, left: set<Reservation>,
                   grants: seq<Grant>, now: int, now': int)
    requires Books(log, waiting, left, grants, now) && now <= now'
    ensures Books(log, waiting, left, grants, now')
  {
  }

  lemma BooksQueued(log: seq<Reservation>, waiting: map<CallerId, Reservation>, left: set<Reservation>,
                    grants: seq<Grant>, now: int, c: CallerId, r: Reservation)
    requires Books(log, waiting, left, grants, now) && (c in waiting ==> waiting[c].slot <= now)
    ensures Books(log + [r], waiting[c := r], left, grants, now)
  {
    var waiting' := waiting[c := r];
    forall i | 0 <= i < |log + [r]| && (log + [r])[i].slot > now
      ensures (log + [r])[i] in waiting'.Values || (log + [r])[i] in left
    {
      if i == |log| {
        assert waiting'[c] == r;
      } else if log[i] in waiting.Values {
        var k :| k in waiting && waiting[k] == log[i];
        assert waiting'[k] == log[i];
      }
    }
    forall i | 0 <= i < |grants| ensures Passed(log + [r], grants[i]) { assert Passed(log, grants[i]); }
  }

  lemma BooksWithout(log: seq<Reservation>, waiting: map<CallerId, Reservation>, left: set<Reservation>,
                     grants: seq<Grant>, now: int, c: CallerId)
    requires Books(log, waiting, left, grants, now) && c in waiting
    ensures Books(log, waiting - {c}, left + {waiting[c]}, grants, now)
    ensures waiting[c].slot <= now ==> Books(log, waiting - {c}, left, grants, now)
  {
    var waiting' := waiting - {c};
    forall i | 0 <= i < |log| && log[i].slot > now
      ensures log[i] in waiting'.Values || log[i] in left || log[i] == waiting[c]
    {
      if log[i] in waiting.Values {
        var k :| k in waiting && waiting[k] == log[i];
        if k != c { assert k in waiting' && waiting'[k] == log[i]; }
      }
    }
  }

  lemma BooksPassed(log: seq<Reservation>, waiting: map<CallerId, Reservation>, left: set<Reservation>,
                    grants: seq<Grant>, now: int, c: CallerId, barrier: int, turns: nat, raises: nat)
    requires Books(log, waiting, left, grants, now) && c in waiting && barrier <= waiting[c].slot <= now
    requires turns <= 1 + raises
    ensures Books(log, waiting - {c}, left, grants + [Grant(waiting[c], now, barrier, turns, raises)], now)
  {
    BooksWithout(log, waiting, left, grants, now, c);
    var more := grants + [Grant(waiting[c], now, barrier, turns, raises)];
    forall i | 0 <= i < |more| ensures Passed(log, more[i]) {
      if i < |grants| { assert Passed(log, grants[i]); } else { assert waiting[c] in log; }
    }
  }

  /** The callers and the penalties in progress. Each method is one critical section, or the passing of time. */
  class Traffic {
    const limiter: SplitRateLimiter
    var now: int
    var waiting: map<CallerId, Reservation>
    var penalties: map<nat, Penalty>
    ghost var left: set<Reservation>       // reservations whose caller gave up
    ghost var grants: seq<Grant>
    ghost var calls: map<CallerId, Call>

    ghost predicate Valid()
      reads this, limiter, limiter.read, limiter.write, limiter.total
    {
      && limiter.Valid(now) && Books(limiter.log, waiting, left, grants, now)
      && (forall p | p in penalties :: penalties[p].stage < 3)
      && Justified(waiting, calls, SeenBy(Read), SeenBy(Write))
    }

    /** The barriers a caller of `lane` looks at. */
    ghost function SeenBy(lane: Lane): Sight
      reads limiter, limiter.read, limiter.write, limiter.total
    {
      Sight(limiter.Raises(lane), Visible(lane))
    }

    constructor (read: nat, write: nat, total: nat, maxCooldown: nat)
      requires read > 0 && write > 0 && total > 0
      ensures Valid() && now == 0 && limiter.log == [] && grants == [] && left == {}
      ensures fresh(limiter) && fresh(limiter.read) && fresh(limiter.write) && fresh(limiter.total)
    {
      limiter := new SplitRateLimiter(read, write, total, maxCooldown);
      now, waiting, penalties, left, grants, calls := 0, map[], map[], {}, [], map[];
    }

    /** How many callers wait for a slot in the future, and how many such slots were given up. */
    ghost function Queue(): nat
      reads this
    {
      |Waiting(waiting, now)| + |Unused(left, now)|
    }

    lemma Queued()
      requires Valid()
      ensures Ahead(limiter.total.slots, now) <= Queue()
      ensures left == {} ==> Queue() == |Waiting(waiting, now)|
    {
      AheadIsQueue(limiter.log, limiter.total.interval, waiting, left, grants, now);
    }

    /** The slot of every caller lies at most one interval of the slowest gate per caller in the queue past the clock
      * or the latest barrier.
      */
    lemma Bounded()
      requires Valid()
      ensures forall c | c in waiting :: waiting[c].slot <= limiter.Horizon(now) + Span(Queue(), limiter.Slowest())
    {
      Queued();
      hide RateLimiter.Valid;
      WaitersBounded(limiter.log, limiter.total.interval, limiter.Slowest(), limiter.Horizon(now), now, waiting, Queue());
    }

    /** No barrier lies further ahead than the longest pause. */
    lemma BarriersBounded()
      requires Valid()
      ensures forall k | 0 <= k < 3 :: limiter.Gate(k).blockedUntil <= now + limiter.Gate(k).maxCooldown
    {
    }

    /** A caller queues again at most once per raise of a barrier it looks at, while its call lasts. */
    lemma TurnsBounded()
      requires Valid()
      ensures forall c | c in waiting ::
                c in calls && calls[c].turns <= 1 + limiter.Raises(waiting[c].lane) - calls[c].start
    {
    }

    method Tick(ticks: nat)
      requires Valid()
      modifies this`now
      ensures Valid() && now == old(now) + ticks
    {
      hide SplitRateLimiter.Valid, RateLimiter.Valid, Books;
      limiter.Later(now, now + ticks);
      BooksLater(limiter.log, waiting, left, grants, now, now + ticks);
      now := now + ticks;
    }

    /** A caller arrives, or queues again because its slot was overtaken. Its slot is the first one that is left for
      * its lane, and lies at most one interval per caller in the queue, and one more, past the clock or the barriers.
      */
    method Enqueue(c: CallerId, lane: Lane) returns (slot: int)
      requires Valid()
      requires c in waiting ==> waiting[c].lane == lane && waiting[c].slot <= now && waiting[c].slot < Visible(lane)
      modifies this`waiting, this`calls, limiter, limiter.read, limiter.write, limiter.total
      ensures Valid() && limiter.log == old(limiter.log) + [Reservation(lane, slot)]
      ensures waiting == old(waiting)[c := Reservation(lane, slot)]
      ensures slot == DueFor(old(limiter.log), lane) && limiter.Open(lane, now) == old(limiter.Open(lane, now))
      ensures SeenBy(lane) == old(SeenBy(lane)) && calls == Queues(old(calls), c, SeenBy(lane))
      ensures now <= slot <= limiter.Horizon(now) + Span(old(Queue()) + 1, limiter.Slowest())
    {
      hide SplitRateLimiter.Valid, RateLimiter.Valid, Books, Span, Ahead, Waiting, Unused, Justified, Due;
      ghost var log, ahead := limiter.log, Ahead(limiter.total.slots, now);
      Queued();
      SpanMonotone(ahead + 1, Queue() + 1, limiter.Slowest());
      slot := limiter.Reserve(lane, now);
      BooksQueued(log, waiting, left, grants, now, c, Reservation(lane, slot));
      JustifiedQueued(waiting, calls, SeenBy(Read), SeenBy(Write), c, Reservation(lane, slot));
      waiting, calls := waiting[c := Reservation(lane, slot)], Queues(calls, c, SeenBy(lane));
    }

    /** The first slot that the log, the clock and the barriers leave for a caller of `lane`. */
    function DueFor(log: seq<Reservation>, lane: Lane): int
      reads this, limiter, limiter.read, limiter.write, limiter.total
    {
      Due(log, lane, limiter.LaneOf(lane).interval, limiter.total.interval, limiter.Open(lane, now))
    }

    /** A caller wakes at its slot. It passes, unless a barrier it can see lies behind the slot: then it queues again,
      * and one of its barriers was raised since it queued last.
      */
    method Wake(c: CallerId) returns (granted: bool)
      requires Valid() && c in waiting && waiting[c].slot <= now
      modifies this`waiting, this`grants, this`calls, limiter, limiter.read, limiter.write, limiter.total
      ensures Valid()
      ensures granted <==> old(Visible(waiting[c].lane) <= waiting[c].slot)
      ensures granted ==> exists turns, raises ::
                grants == old(grants) + [Grant(old(waiting[c]), now, old(Visible(waiting[c].lane)), turns, raises)]
                && turns == old(calls[c].turns) && raises == old(limiter.Raises(waiting[c].lane) - calls[c].start)
      ensures !granted ==> grants == old(grants) && c in waiting && now <= waiting[c].slot
                           && waiting[c].slot == DueFor(old(limiter.log), waiting[c].lane)
      ensures !granted ==> calls[c].turns == old(calls[c].turns) + 1 && calls[c].start == old(calls[c].start)
                           && old(calls[c].seen) < calls[c].seen
    {
      hide SplitRateLimiter.Valid, RateLimiter.Valid, Books, Span, Ahead;
      var r := waiting[c];
      granted := limiter.Stands(r.lane, r.slot);
      if granted {
        ghost var turns, raises := calls[c].turns, limiter.Raises(r.lane) - calls[c].start;
        BooksPassed(limiter.log, waiting, left, grants, now, c, Visible(r.lane), turns, raises);
        grants := grants + [Grant(r, now, Visible(r.lane), turns, raises)];
        waiting, calls := waiting - {c}, calls - {c};
      } else {
        var _ := Enqueue(c, r.lane);
      }
    }

    /** The later of the two barriers a caller of `lane` looks at. */
    function Visible(lane: Lane): int
      reads limiter, limiter.read, limiter.write, limiter.total
    {
      Max(limiter.LaneOf(lane).blockedUntil, limiter.total.blockedUntil)
    }

    /** A checkpoint ends the wait of a caller; its slot stays unused. */
    method GiveUp(c: CallerId)
      requires Valid() && c in waiting
      modifies this`waiting, this`left, this`calls
      ensures Valid() && waiting == old(waiting) - {c} && left == old(left) + {old(waiting)[c]}
    {
      hide SplitRateLimiter.Valid, RateLimiter.Valid, Books;
      BooksWithout(limiter.log, waiting, left, grants, now, c);
      left := left + {waiting[c]};
      waiting, calls := waiting - {c}, calls - {c};
    }

    /** The next of the three steps of a penalty. */
    method PenaltyStep(p: nat, delay: int)
      requires Valid()
      modifies this`penalties, limiter.read, limiter.write, limiter.total
      ensures Valid()
      ensures var penalty := if p in old(penalties) then old(penalties)[p] else Penalty(delay, 0);
              penalties == if penalty.stage == 2 then old(penalties) - {p}
                           else old(penalties)[p := penalty.(stage := penalty.stage + 1)]
      ensures forall k | 0 <= k < 3 ::
                old(limiter.Gate(k).blockedUntil) <= limiter.Gate(k).blockedUntil
                <= Max(old(limiter.Gate(k).blockedUntil), now + limiter.Gate(k).maxCooldown)
    {
      hide SplitRateLimiter.Valid, RateLimiter.Valid, Books, Justified;
      var penalty := if p in penalties then penalties[p] else Penalty(delay, 0);
      ghost var read, write := SeenBy(Read), SeenBy(Write);
      var _ := limiter.PenalizeGate(penalty.stage, now, penalty.delay);
      JustifiedLater(waiting, calls, read, write, SeenBy(Read), SeenBy(Write));
      penalties := if penalty.stage == 2 then penalties - {p}
                   else penalties[p := penalty.(stage := penalty.stage + 1)];
    }

    /** Any interleaving of the steps. */
    method Run(rounds: nat, aborts: bool)
      requires Valid()
      modifies this, limiter, limiter.read, limiter.write, limiter.total
      ensures Valid() && (!aborts && old(left) == {} ==> left == {})
    {
      hide SplitRateLimiter.Valid, RateLimiter.Valid, Books, Span, Ahead;
      for i := 0 to rounds
        invariant Valid() && (!aborts && old(left) == {} ==> left == {})
      {
        var kind: int, c: CallerId, lane: Lane, delay: int, ticks: nat := *, *, *, *, *;
        match kind {
        case 0 => Tick(ticks);
        case 1 => if c !in waiting { var _ := Enqueue(c, lane); }
        case 2 => if c in waiting && waiting[c].slot <= now { var _ := Wake(c); }
        case 3 => if c in waiting && aborts { GiveUp(c); }
        case _ => PenaltyStep(c, delay);
        }
      }
    }
  }

  /** In every interleaving the slots of a lane are its interval apart, all slots are the total interval apart,
    * no window holds more of them than it has room for, nobody passes a barrier it could see, and a caller queues
    * at most once more than its barriers were raised during its call. Unless checkpoints
    * abort callers, a slot lies at most one interval of the slowest gate per caller that still waits past the clock
    * or the latest barrier, which itself is never further ahead than the longest pause.
    */
  method WholeRun(read: nat, write: nat, total: nat, maxCooldown: nat, rounds: nat, aborts: bool, lane: Lane, start: int,
                  width: nat)
    returns (t: Traffic)
    requires read > 0 && write > 0 && total > 0
    ensures Spaced(SlotsOf(t.limiter.log, lane), t.limiter.LaneOf(lane).interval)
    ensures Spaced(AllSlots(t.limiter.log), t.limiter.total.interval)
    ensures t.limiter.LaneOf(lane).interval > 0 && t.limiter.total.interval > 0
    ensures |InWindow(SlotsOf(t.limiter.log, lane), start, width)| <= Ceil(width, t.limiter.LaneOf(lane).interval)
    ensures |InWindow(AllSlots(t.limiter.log), start, width)| <= Ceil(width, t.limiter.total.interval)
    ensures forall i | 0 <= i < |t.grants| :: t.grants[i].barrier <= t.grants[i].reservation.slot <= t.grants[i].time
    ensures forall i | 0 <= i < |t.grants| :: t.grants[i].turns <= 1 + t.grants[i].raises
    ensures forall c | c in t.waiting ::
              c in t.calls && t.calls[c].turns <= 1 + t.limiter.Raises(t.waiting[c].lane) - t.calls[c].start
    ensures forall c | c in t.waiting ::
              t.waiting[c].slot <= t.limiter.Horizon(t.now) + Span(t.Queue(), t.limiter.Slowest())
    ensures !aborts ==> t.Queue() == |Waiting(t.waiting, t.now)|
    ensures forall k | 0 <= k < 3 :: t.limiter.Gate(k).blockedUntil <= t.now + t.limiter.Gate(k).maxCooldown
  {
    t := new Traffic(read, write, total, maxCooldown);
    t.Run(rounds, aborts);
    t.Bounded();
    t.BarriersBounded();
    t.TurnsBounded();
    t.Queued();
    WindowBound(SlotsOf(t.limiter.log, lane), t.limiter.LaneOf(lane).interval, start, width);
    WindowBound(AllSlots(t.limiter.log), t.limiter.total.interval, start, width);
  }
}
