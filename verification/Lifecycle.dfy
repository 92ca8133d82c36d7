/** The run lifecycle: queued, preparing, running, then succeeded or failed. */
module Lifecycles {
  import opened Prelude
  import opened Domain
  import opened Timestamps

  datatype Transition = Transition(next: Status, failureReason: Option<string>)

  function Next(status: Status): Transition { Transition(status, None) }

  function Fail(reason: string): Transition { Transition(Failed, Some(reason)) }

  datatype Outcome = Accepted | InvalidTransition | FailureReasonRequired

  predicate CanTransitionTo(status: Status, next: Status) {
    match status
    case Queued => next == Preparing
    case Preparing => next == Running || next == Failed
    case Running => next == Succeeded || next == Failed
    case _ => false
  }

  predicate IsTerminal(status: Status) { status == Succeeded || status == Failed }

  function Judge(l: LifecycleState, t: Transition): Outcome {
    if !CanTransitionTo(l.status, t.next) then InvalidTransition
    else if t.next == Failed && (t.failureReason.None? || t.failureReason.value == "") then FailureReasonRequired
    else Accepted
  }

  /** The state after one request: unchanged unless it is accepted. */
  function After(l: LifecycleState, t: Transition, at: Instant): LifecycleState {
    if Judge(l, t) != Accepted then l
    else
      LifecycleState(
        t.next, if t.next == Failed then t.failureReason else None, l.createdAt,
        if t.next == Running && l.startedAt.None? then Some(at) else l.startedAt,
        if IsTerminal(t.next) then Some(at) else l.finishedAt)
  }

  class Lifecycle {
    var status: Status
    var failureReason: Option<string>
    const createdAt: Instant
    var startedAt: Option<Instant>
    var finishedAt: Option<Instant>

    function State(): LifecycleState
      reads this
    {
      LifecycleState(status, failureReason, createdAt, startedAt, finishedAt)
    }

    constructor (createdAt: Instant)
      ensures State() == NewLifecycle(createdAt)
    {
      this.createdAt := createdAt;
      status, failureReason, startedAt, finishedAt := Queued, None, None, None;
    }

    method Transition(transition: Transition, at: Instant) returns (outcome: Outcome)
      modifies this
      ensures outcome == Judge(old(State()), transition)
      ensures State() == After(old(State()), transition, at)
    {
      var next := transition.next;
      if !CanTransitionTo(status, next) {
        return InvalidTransition;
      }
      if next == Failed {
        if transition.failureReason.None? || transition.failureReason.value == "" {
          return FailureReasonRequired;
        }
        failureReason := transition.failureReason;
      } else {
        failureReason := None;
      }
      status := next;
      if next == Running {
        if startedAt.None? {
          startedAt := Some(at);
        }
      } else if IsTerminal(next) {
        finishedAt := Some(at);
      }
      outcome := Accepted;
    }
  }

  datatype Call = Call(transition: Transition, at: Instant)

  /** The state a new lifecycle is in after the first `n` of any sequence of requests. */
  function StateAt(createdAt: Instant, calls: seq<Call>, n: nat): LifecycleState
    requires n <= |calls|
  {
    if n == 0 then NewLifecycle(createdAt)
    else After(StateAt(createdAt, calls, n - 1), calls[n - 1].transition, calls[n - 1].at)
  }

  /** Whether the `i`-th request was accepted. */
  predicate AcceptedAt(createdAt: Instant, calls: seq<Call>, i: nat)
    requires i < |calls|
  {
    Judge(StateAt(createdAt, calls, i), calls[i].transition) == Accepted
  }

  function AcceptedCount(createdAt: Instant, calls: seq<Call>, n: nat): nat
    requires n <= |calls|
  {
    if n == 0 then 0
    else AcceptedCount(createdAt, calls, n - 1) + if AcceptedAt(createdAt, calls, n - 1) then 1 else 0
  }

  function Rank(status: Status): nat {
    if status == Queued then 0 else if status == Preparing then 1 else if status == Running then 2 else 3
  }

  /** What every reachable lifecycle state satisfies, rejected requests included. */
  predicate WellFormed(l: LifecycleState) {
    && l.status in {Queued, Preparing, Running, Succeeded, Failed}
    && (l.failureReason.Some? <==> l.status == Failed)
    && (l.failureReason.Some? ==> l.failureReason.value != "")
    && (l.finishedAt.Some? <==> IsTerminal(l.status))
    && (l.status in {Running, Succeeded} ==> l.startedAt.Some?)
    && (l.startedAt.Some? ==> l.status in {Running, Succeeded, Failed})
  }

  lemma {:induction false} EveryStateIsWellFormed(createdAt: Instant, calls: seq<Call>, n: nat)
    requires n <= |calls|
    ensures WellFormed(StateAt(createdAt, calls, n)) && StateAt(createdAt, calls, n).createdAt == createdAt
    ensures
      var l := StateAt(createdAt, calls, n);
      AcceptedCount(createdAt, calls, n) == if l.status == Failed && l.startedAt.None? then 2 else Rank(l.status)
  {
    if n > 0 {
      EveryStateIsWellFormed(createdAt, calls, n - 1);
    }
  }

  predicate EntersRunning(createdAt: Instant, calls: seq<Call>, i: nat) {
    i < |calls| && AcceptedAt(createdAt, calls, i) && calls[i].transition.next == Running
  }

  predicate Finishes(createdAt: Instant, calls: seq<Call>, i: nat) {
    i < |calls| && AcceptedAt(createdAt, calls, i) && IsTerminal(calls[i].transition.next)
  }

  /** What one request does to the times. */
  lemma OneRequest(l: LifecycleState, t: Transition, at: Instant)
    requires WellFormed(l)
    ensures
      var next := After(l, t, at);
      && (Judge(l, t) != Accepted ==> next == l)
      && (Judge(l, t) == Accepted && t.next == Running ==>
            l.startedAt.None? && next.startedAt == Some(at) && next.finishedAt == l.finishedAt)
      && (Judge(l, t) == Accepted && IsTerminal(t.next) ==>
            l.finishedAt.None? && next.finishedAt == Some(at) && next.startedAt == l.startedAt)
      && (Judge(l, t) == Accepted && t.next != Running && !IsTerminal(t.next) ==>
            next.startedAt == l.startedAt && next.finishedAt == l.finishedAt)
  {
  }

  /** An accepted request into running fixes the start time for good. */
  lemma {:induction false} StartTimeIsFixed(createdAt: Instant, calls: seq<Call>, i: nat, n: nat)
    requires i < n <= |calls| && EntersRunning(createdAt, calls, i)
    ensures StateAt(createdAt, calls, n).startedAt == Some(calls[i].at)
  {
    var l, call := StateAt(createdAt, calls, n - 1), calls[n - 1];
    EveryStateIsWellFormed(createdAt, calls, n - 1);
    OneRequest(l, call.transition, call.at);
    if i < n - 1 {
      StartTimeIsFixed(createdAt, calls, i, n - 1);
    }
  }

  /** No other request sets it. */
  lemma {:induction false} StartTimeHasItsRequest(createdAt: Instant, calls: seq<Call>, n: nat)
    requires n <= |calls| && StateAt(createdAt, calls, n).startedAt.Some?
    ensures exists i: nat :: i < n && EntersRunning(createdAt, calls, i)
  {
    if !EntersRunning(createdAt, calls, n - 1) {
      var l, call := StateAt(createdAt, calls, n - 1), calls[n - 1];
      EveryStateIsWellFormed(createdAt, calls, n - 1);
      OneRequest(l, call.transition, call.at);
      StartTimeHasItsRequest(createdAt, calls, n - 1);
    }
  }

  /** An accepted request into a terminal status fixes the finish time for good. */
  lemma {:induction false} FinishTimeIsFixed(createdAt: Instant, calls: seq<Call>, i: nat, n: nat)
    requires i < n <= |calls| && Finishes(createdAt, calls, i)
    ensures StateAt(createdAt, calls, n).finishedAt == Some(calls[i].at)
  {
    var l, call := StateAt(createdAt, calls, n - 1), calls[n - 1];
    EveryStateIsWellFormed(createdAt, calls, n - 1);
    OneRequest(l, call.transition, call.at);
    if i < n - 1 {
      FinishTimeIsFixed(createdAt, calls, i, n - 1);
    }
  }

  /** No other request sets it. */
  lemma {:induction false} FinishTimeHasItsRequest(createdAt: Instant, calls: seq<Call>, n: nat)
    requires n <= |calls| && StateAt(createdAt, calls, n).finishedAt.Some?
    ensures exists i: nat :: i < n && Finishes(createdAt, calls, i)
  {
    if !Finishes(createdAt, calls, n - 1) {
      var l, call := StateAt(createdAt, calls, n - 1), calls[n - 1];
      EveryStateIsWellFormed(createdAt, calls, n - 1);
      OneRequest(l, call.transition, call.at);
      FinishTimeHasItsRequest(createdAt, calls, n - 1);
    }
  }

  /** A clock that never goes back: no request is stamped before the creation or an earlier request. */
  predicate MonotoneClock(createdAt: Instant, calls: seq<Call>) {
    (forall i :: 0 <= i < |calls| ==> !Before(calls[i].at, createdAt))
    && (forall i, j :: 0 <= i < j < |calls| ==> !Before(calls[j].at, calls[i].at))
  }

  predicate NotBefore(later: Option<Instant>, earlier: Option<Instant>) {
    later.Some? && earlier.Some? ==> !Before(later.value, earlier.value)
  }

  /** A request made after the start is not dated before it. */
  lemma StartIsBefore(createdAt: Instant, calls: seq<Call>, n: nat)
    requires n < |calls| && MonotoneClock(createdAt, calls) && StateAt(createdAt, calls, n).startedAt.Some?
    ensures NotBefore(Some(calls[n].at), StateAt(createdAt, calls, n).startedAt)
  {
    hide Before;
    StartTimeHasItsRequest(createdAt, calls, n);
    var i: nat :| i < n && EntersRunning(createdAt, calls, i);
    StartTimeIsFixed(createdAt, calls, i, n);
    assert !Before(calls[n].at, calls[i].at);
  }

  /** With such a clock, created <= started <= finished in every reachable state. */
  lemma {:induction false} TimesAreOrdered(createdAt: Instant, calls: seq<Call>, n: nat)
    requires n <= |calls| && MonotoneClock(createdAt, calls)
    ensures NotBefore(StateAt(createdAt, calls, n).startedAt, Some(createdAt))
    ensures NotBefore(StateAt(createdAt, calls, n).finishedAt, Some(createdAt))
    ensures NotBefore(StateAt(createdAt, calls, n).finishedAt, StateAt(createdAt, calls, n).startedAt)
  {
    if n > 0 {
      var l := StateAt(createdAt, calls, n - 1);
      TimesAreOrdered(createdAt, calls, n - 1);
      EveryStateIsWellFormed(createdAt, calls, n - 1);
      OneRequest(l, calls[n - 1].transition, calls[n - 1].at);
      if l.startedAt.Some? {
        StartIsBefore(createdAt, calls, n - 1);
      }
      hide Before;
    }
  }

  /** A terminal state is final: whatever is requested afterwards, nothing changes. */
  lemma {:induction false} TerminalStatesAreFinal(createdAt: Instant, calls: seq<Call>, m: nat, n: nat)
    requires m <= n <= |calls| && IsTerminal(StateAt(createdAt, calls, m).status)
    ensures StateAt(createdAt, calls, n) == StateAt(createdAt, calls, m)
  {
    if m < n {
      TerminalStatesAreFinal(createdAt, calls, m, n - 1);
    }
  }

  /** Over any run of requests at most three are accepted, and a rejected one leaves the whole state alone. */
  lemma WholeRunLaws(createdAt: Instant, calls: seq<Call>)
    ensures AcceptedCount(createdAt, calls, |calls|) <= 3
    ensures forall i: nat :: i < |calls| ==>
              (AcceptedAt(createdAt, calls, i) <==> StateAt(createdAt, calls, i + 1) != StateAt(createdAt, calls, i))
  {
    EveryStateIsWellFormed(createdAt, calls, |calls|);
    forall i: nat | i < |calls|
      ensures AcceptedAt(createdAt, calls, i) <==> StateAt(createdAt, calls, i + 1) != StateAt(createdAt, calls, i)
    {
      assert StateAt(createdAt, calls, i + 1)
          == After(StateAt(createdAt, calls, i), calls[i].transition, calls[i].at);
    }
  }

  /** `Fail` is accepted exactly while preparing or running, and only with a reason. */
  lemma FailIsAcceptedIff(l: LifecycleState, reason: string)
    ensures Judge(l, Fail(reason)) == Accepted <==> (l.status == Preparing || l.status == Running) && reason != ""
    ensures (l.status == Preparing || l.status == Running) && reason == "" ==> Judge(l, Fail(reason)) == FailureReasonRequired
    ensures Judge(l, Next(Failed)) != Accepted
  {
  }

  /** Three accepted requests are possible, and end in success. */
  lemma ThreeRequestsSucceed(createdAt: Instant, a: Instant, b: Instant, c: Instant)
    ensures
      var calls := [Call(Next(Preparing), a), Call(Next(Running), b), Call(Next(Succeeded), c)];
      && AcceptedCount(createdAt, calls, 3) == 3
      && StateAt(createdAt, calls, 3) == LifecycleState(Succeeded, None, createdAt, Some(b), Some(c))
  {
    var calls := [Call(Next(Preparing), a), Call(Next(Running), b), Call(Next(Succeeded), c)];
    assert StateAt(createdAt, calls, 1) == LifecycleState(Preparing, None, createdAt, None, None);
    assert StateAt(createdAt, calls, 2) == LifecycleState(Running, None, createdAt, Some(b), None);
    assert AcceptedCount(createdAt, calls, 1) == 1 && AcceptedCount(createdAt, calls, 2) == 2;
  }

  /** The five permitted moves, and no others. */
  lemma MovesAre(status: Status, next: Status)
    ensures CanTransitionTo(status, next) <==>
            (status, next) in {(Queued, Preparing), (Preparing, Running), (Preparing, Failed), (Running, Succeeded), (Running, Failed)}
  {
  }

  /** A request is accepted exactly for a permitted move, to failed only with a reason; the verdict names what is wrong. */
  lemma VerdictsAre(l: LifecycleState, t: Transition)
    ensures Judge(l, t) == InvalidTransition <==>
            (l.status, t.next) !in {(Queued, Preparing), (Preparing, Running), (Preparing, Failed), (Running, Succeeded), (Running, Failed)}
    ensures Judge(l, t) == FailureReasonRequired <==>
            l.status in {Preparing, Running} && t.next == Failed && t.failureReason in {None, Some("")}
  {
  }

  /** A new run accepts nothing but going on to preparing. */
  lemma NewRunPrepares(createdAt: Instant, calls: seq<Call>)
    requires |calls| > 0
    ensures AcceptedAt(createdAt, calls, 0) <==> calls[0].transition.next == Preparing
  {
  }

  /** The request that failed the run, at `i`. */
  predicate FailsAt(createdAt: Instant, calls: seq<Call>, i: nat) {
    i < |calls| && AcceptedAt(createdAt, calls, i) && calls[i].transition.next == Failed
  }

  /** A failed run's reason is the one of the request that ended it, for good. */
  lemma {:induction false} FailureReasonIsTheRequests(createdAt: Instant, calls: seq<Call>, i: nat, n: nat)
    requires i < n <= |calls| && FailsAt(createdAt, calls, i)
    ensures StateAt(createdAt, calls, n).status == Failed
    ensures StateAt(createdAt, calls, n).failureReason == calls[i].transition.failureReason
  {
    if i < n - 1 {
      FailureReasonIsTheRequests(createdAt, calls, i, n - 1);
    }
  }

  /** No run is failed otherwise. */
  lemma {:induction false} FailedHasItsRequest(createdAt: Instant, calls: seq<Call>, n: nat)
    requires n <= |calls| && StateAt(createdAt, calls, n).status == Failed
    ensures exists i: nat :: i < n && FailsAt(createdAt, calls, i)
  {
    if !FailsAt(createdAt, calls, n - 1) {
      FailedHasItsRequest(createdAt, calls, n - 1);
    }
  }
}
