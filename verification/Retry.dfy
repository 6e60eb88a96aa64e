/** The retry switch of a job, and the requests of the source that are replayed under it. */
module Retry {
  import opened Rows

  // ---------------------------------------------------------------- the switch

  /** How often the switch was turned off. */
  function Disables(history: seq<bool>): nat {
    if history == [] then 0
    else Disables(history[..|history| - 1]) + if history[|history| - 1] then 0 else 1
  }

  lemma {:induction false} DisablesGrow(history: seq<bool>, start: nat)
    requires start <= |history|
    ensures Disables(history[..start]) <= Disables(history)
    ensures Disables(history[..start]) == Disables(history) <==> forall i | start <= i < |history| :: history[i]
    decreases |history|
  {
    if start < |history| {
      var before := history[..|history| - 1];
      DisablesGrow(before, start);
      assert before[..start] == history[..start];
      if forall i | start <= i < |history| :: history[i] { assert forall i | start <= i < |before| :: before[i]; }
      if forall i | start <= i < |before| :: before[i] {
        assert forall i | start <= i < |history| - 1 :: history[i] == before[i];
      }
    } else {
      assert history[..start] == history;
    }
  }

  /** The position of the switch after the first `at` turns. */
  predicate On(initial: bool, history: seq<bool>, at: nat)
    requires at <= |history|
  {
    if at == 0 then initial else history[at - 1]
  }

  /** Between the turns `start` and `at` the switch was not turned off, and it is on. */
  predicate Undisturbed(initial: bool, history: seq<bool>, start: nat, at: nat)
    requires start <= at <= |history|
  {
    On(initial, history, at) && forall i | start <= i < at :: history[i]
  }

  /** The stop is one look nearer. */
  function Later(stop: Option<nat>): Option<nat> {
    if stop.Some? && stop.value > 0 then Some(stop.value - 1) else None
  }

  class RetryPolicy {
    const initial: bool
    var enabled: bool
    var cancellations: nat
    ghost var history: seq<bool>      // every turn of the switch

    ghost predicate Valid()
      reads this
    {
      cancellations == Disables(history) && (enabled <==> On(initial, history, |history|))
    }

    constructor (enabled: bool)
      ensures Valid() && initial == enabled && history == []
    {
      initial, this.enabled, cancellations, history := enabled, enabled, 0, [];
    }

    method SetEnabled(on: bool)
      requires Valid()
      modifies this
      ensures Valid() && history == old(history) + [on] && enabled == on
      ensures cancellations == old(cancellations) + if on then 0 else 1
    {
      enabled := on;
      if !on { cancellations := cancellations + 1; }
      history := history + [on];
      assert history[..|history| - 1] == old(history);
    }

    /** Comparing generations tells exactly whether the switch is on and was not turned off since `start`. */
    lemma GenerationTells(start: nat)
      requires Valid() && start <= |history|
      ensures enabled && Disables(history[..start]) == cancellations
              <==> Undisturbed(initial, history, start, |history|)
    {
      DisablesGrow(history, start);
    }

    /** Up to `budget` turns by other threads. */
    method Others(budget: nat) returns (left: nat)
      requires Valid()
      modifies this
      ensures Valid() && left <= budget && |old(history)| <= |history| && history[..|old(history)|] == old(history)
    {
      left := budget;
      var on: bool, more: bool := *, *;
      while left > 0 && more
        invariant Valid() && left <= budget
        invariant |old(history)| <= |history| && history[..|old(history)|] == old(history)
        decreases left
      {
        SetEnabled(on);
        on, more, left := *, *, left - 1;
      }
    }

    /** `wait`: true only when the whole delay passed without the switch being turned off meanwhile. The caller is told to
      * stop at the look that `stop` counts down to, if it is at all.
      */
    method Wait(delay: int, generation: nat, budget: nat, stop: Option<nat>, ghost start: nat)
      returns (s: Status, passed: bool, left: nat, due: Option<nat>, ghost waited: int)
      requires Valid() && start <= |history| && generation == Disables(history[..start])
      modifies this
      ensures Valid() && left <= budget && |old(history)| <= |history| && history[..|old(history)|] == old(history)
      ensures s.Pass? && passed ==> waited >= delay && Undisturbed(initial, history, start, |history|)
      ensures s.Pass? && !passed ==> !Undisturbed(initial, history, start, |history|)
      ensures (s.Raise? ==> s.exn.StopSeen? && stop.Some?) && (due.Some? ==> stop.Some?)
    {
      var remaining := delay;
      passed, left, due, waited := false, budget, stop, 0;
      while true
        invariant Valid() && left <= budget && waited == delay - remaining && (due.Some? ==> stop.Some?)
        invariant |old(history)| <= |history| && history[..|old(history)|] == old(history)
        decreases remaining, left
      {
        if due == Some(0) { s := Raise(StopSeen); return; }
        due := Later(due);
        assert history[..start] == old(history)[..start];
        GenerationTells(start);
        if !enabled || cancellations != generation { s := Pass; return; }
        if remaining <= 0 { s, passed := Pass, true; return; }
        // a sleep ends when time has passed, or early when the switch is turned
        var ticks: nat := *;
        if ticks > 0 || left == 0 {
          var step := if ticks > 0 then ticks else 1;
          remaining, waited := remaining - step, waited + step;
        } else {
          var on: bool := *;
          SetEnabled(on);
          left := left - 1;
        }
      }
    }
  }

  // ---------------------------------------------------------------- a request and its replays

  predicate RetryStatus(status: int) {
    status in {429, 500, 502, 503, 504}
  }

  /** A request left the process, when the switch had been turned `at` times. */
  datatype Sent = Sent(at: nat, result: Result)

  datatype Result = Response(status: int) | NoResponse

  /** The answer asks for another attempt. */
  predicate Again(result: Result) {
    result.NoResponse? || RetryStatus(result.status)
  }

  class Source {
    const policy: RetryPolicy
    ghost var sent: seq<Sent>

    constructor (policy: RetryPolicy)
      ensures this.policy == policy && sent == []
    {
      this.policy, sent := policy, [];
    }

    /** The requests sent from `first` on belong to one call; every one after the first found the switch on and
      * never turned off since the call began, at turn `start`.
      */
    ghost predicate Replays(first: nat, start: nat)
      reads this, policy
    {
      && first <= |sent| && start <= |policy.history|
      && forall i | first < i < |sent| ::
           start <= sent[i].at <= |policy.history| && Undisturbed(policy.initial, policy.history, start, sent[i].at)
    }

    /** Whether an answer is followed by another attempt, as far as the switch allows one now. */
    predicate MayRepeat(result: Result, get: bool, attempt: nat, maxAttempts: nat, generation: nat)
      reads policy
    {
      Again(result) && get && attempt != maxAttempts && policy.enabled && policy.cancellations == generation
    }

    /** `request_checkpoint`, and the request right behind it. A replay that the switch forbids is not sent. Whether
      * the caller was told to stop and what comes back are given.
      */
    method SendUnlessCancelled(attempt: nat, generation: nat, stop: bool, answer: Result, ghost first: nat, ghost start: nat)
      returns (s: Status, cancelled: bool, result: Result)
      requires policy.Valid() && start <= |policy.history| && generation == Disables(policy.history[..start])
      requires attempt >= 1 && |sent| == first + attempt - 1 && Replays(first, start)
      modifies this`sent
      ensures Replays(first, start)
      ensures s.Raise? <==> stop
      ensures s.Raise? ==> s.exn.StopSeen? && sent == old(sent)
      ensures s.Pass? && !cancelled ==> result == answer
      ensures s.Pass? ==> sent == old(sent) + if cancelled then [] else [Sent(|policy.history|, result)]
      ensures s.Pass? ==>
                (cancelled <==> attempt > 1 && !Undisturbed(policy.initial, policy.history, start, |policy.history|))
    {
      cancelled, result := false, NoResponse;
      if stop { s := Raise(StopSeen); return; }
      s := Pass;
      policy.GenerationTells(start);
      if attempt > 1 && !(policy.enabled && policy.cancellations == generation) { cancelled := true; return; }
      result := answer;
      sent := sent + [Sent(|policy.history|, result)];
    }

    /** `_request`. Anything but a GET is sent at most once, a GET at most `maxAttempts` times, and no replay
      * follows once the switch was turned off during the call, even if it was turned on again. A request is repeated
      * only when it was not answered or answered with one of five statuses, and then it is, unless the attempts are
      * used up or the switch was turned off. Only a caller that is told to stop, at the look that `stop` counts down to,
      * ends the call without an answer.
      */
    method Request(get: bool, maxAttempts: nat, budget: nat, stop: Option<nat>) returns (s: Status, result: Result)
      requires policy.Valid() && maxAttempts >= 1
      modifies this, policy
      ensures policy.Valid() && |policy.history| >= |old(policy.history)|
      ensures Replays(|old(sent)|, |old(policy.history)|)
      ensures |sent| <= |old(sent)| + if get then maxAttempts else 1
      ensures s.Raise? ==> s.exn.StopSeen? && stop.Some?
      ensures s.Pass? ==> |sent| > |old(sent)| && result == sent[|sent| - 1].result
      ensures forall i | |old(sent)| <= i < |sent| - 1 ::
                sent[i].result.NoResponse? || sent[i].result.status in {429, 500, 502, 503, 504}
      ensures s.Pass? && get && (result.NoResponse? || result.status in {429, 500, 502, 503, 504})
              && |sent| < |old(sent)| + maxAttempts ==>
                !Undisturbed(policy.initial, policy.history, |old(policy.history)|, |policy.history|)
    {
      s, result := Attempts(get, maxAttempts, budget, stop);
    }

    /** The loop over the attempts. */
    method Attempts(get: bool, maxAttempts: nat, budget: nat, stop: Option<nat>) returns (s: Status, result: Result)
      requires policy.Valid() && maxAttempts >= 1
      modifies this, policy
      ensures policy.Valid() && |policy.history| >= |old(policy.history)|
      ensures Replays(|old(sent)|, |old(policy.history)|)
      ensures |sent| <= |old(sent)| + if get then maxAttempts else 1
      ensures s.Raise? ==> s.exn.StopSeen? && stop.Some?
      ensures s.Pass? ==> |sent| > |old(sent)| && result == sent[|sent| - 1].result
      ensures forall i | |old(sent)| <= i < |sent| - 1 :: Again(sent[i].result)
      ensures s.Pass? && get && Again(result)
              && |sent| < |old(sent)| + maxAttempts ==>
                !Undisturbed(policy.initial, policy.history, |old(policy.history)|, |policy.history|)
    {
      hide Undisturbed, Again;
      ghost var first, start := |sent|, |policy.history|;
      var generation, left := policy.cancellations, budget;
      assert policy.history[..start] == policy.history;
      var attempt, due := 1, stop;
      result := NoResponse;
      while attempt <= maxAttempts
        invariant policy.Valid() && start <= |policy.history| && policy.history[..start] == old(policy.history)
        invariant generation == Disables(policy.history[..start])
        invariant 1 <= attempt <= maxAttempts + 1 && |sent| == first + attempt - 1 && (get || attempt == 1)
        invariant Replays(first, start) && |sent| >= |old(sent)| && first == |old(sent)| && (due.Some? ==> stop.Some?)
        invariant forall i | first <= i < |sent| :: Again(sent[i].result)
        invariant attempt > 1 ==> result == sent[|sent| - 1].result && Again(result)
        decreases maxAttempts - attempt
      {
        left := Interfere(left, first, start);
        var cancelled: bool, answer: Result, lost: bool, status: int := *, *, *, *;
        s, cancelled, answer :=
          SendUnlessCancelled(attempt, generation, due == Some(0), if lost then NoResponse else Response(status), first, start);
        if s.Raise? || cancelled { return; }
        result := answer;
        left := Interfere(left, first, start);
        due := Later(due);
        if due == Some(0) { s := Raise(StopSeen); return; }
        due := Later(due);
        var delay: int := *;
        policy.GenerationTells(start);
        if !MayRepeat(result, get, attempt, maxAttempts, generation) { return; }
        var passed: bool;
        s, passed, left, due := Pause(delay, generation, left, due, first, start);
        if s.Raise? || !passed { return; }
        attempt := attempt + 1;
      }
      s := Pass;
    }

    method Interfere(budget: nat, ghost first: nat, ghost start: nat) returns (left: nat)
      requires policy.Valid() && Replays(first, start)
      modifies policy
      ensures policy.Valid() && left <= budget && Replays(first, start)
      ensures |policy.history| >= |old(policy.history)| && policy.history[..|old(policy.history)|] == old(policy.history)
      ensures start <= |old(policy.history)| && policy.history[..start] == old(policy.history)[..start]
    {
      left := policy.Others(budget);
      KeptBefore(old(policy.history), policy.history, first, start);
    }

    method Pause(delay: int, generation: nat, budget: nat, stop: Option<nat>, ghost first: nat, ghost start: nat)
      returns (s: Status, passed: bool, left: nat, due: Option<nat>)
      requires policy.Valid() && Replays(first, start) && generation == Disables(policy.history[..start])
      modifies policy
      ensures policy.Valid() && left <= budget && Replays(first, start)
      ensures |policy.history| >= |old(policy.history)| && policy.history[..|old(policy.history)|] == old(policy.history)
      ensures start <= |old(policy.history)| && policy.history[..start] == old(policy.history)[..start]
      ensures (s.Raise? ==> s.exn.StopSeen? && stop.Some?) && (due.Some? ==> stop.Some?)
      ensures s.Pass? && !passed ==> !Undisturbed(policy.initial, policy.history, start, |policy.history|)
    {
      ghost var waited: int;
      s, passed, left, due, waited := policy.Wait(delay, generation, budget, stop, start);
      KeptBefore(old(policy.history), policy.history, first, start);
    }

    /** Later turns of the switch do not change what was true of an earlier request. */
    lemma KeptBefore(before: seq<bool>, after: seq<bool>, first: nat, start: nat)
      requires |before| <= |after| && after[..|before|] == before && start <= |before|
      ensures after[..start] == before[..start]
      ensures forall at: nat | start <= at <= |before| ::
                Undisturbed(policy.initial, before, start, at) ==> Undisturbed(policy.initial, after, start, at)
    {
      forall i | 0 <= i < |before| ensures after[i] == before[i] { assert after[..|before|][i] == before[i]; }
    }
  }

  /** A call that begins while the switch is off is not shut out: once the switch is turned on its request is
    * repeated.
    */
  method BegunWhileOff() returns (s: Source)
    ensures s.policy.Valid() && !On(s.policy.initial, s.policy.history, 0) && s.policy.history == [true]
    ensures s.sent == [Sent(0, NoResponse), Sent(1, Response(200))] && s.Replays(0, 0)
  {
    var policy := new RetryPolicy(false);
    s := new Source(policy);
    var generation := policy.cancellations;
    assert policy.history[..0] == [];
    var end, cancelled, result := s.SendUnlessCancelled(1, generation, false, NoResponse, 0, 0);
    policy.SetEnabled(true);
    policy.GenerationTells(0);
    assert s.MayRepeat(result, true, 1, 2, generation);
    assert Undisturbed(false, policy.history, 0, 1);
    end, cancelled, result := s.SendUnlessCancelled(2, generation, false, Response(200), 0, 0);
  }
}
