/** Laws of the LocalProcess runtime over whole runs. */
module LocalProcessRuns {
  import opened Prelude
  import opened LocalProcess
  import opened LocalProcessSafety

  /** `NewLocalProcess`: an empty map, and nobody has called anything. */
  predicate Starts(s: State) {
    s == State([], map[], None, map[], [])
  }

  ghost predicate IsRun(states: seq<State>, labels: seq<Label>) {
    && |states| == |labels| + 1 && Starts(states[0])
    && forall i :: 0 <= i < |labels| ==> StepsTo(states, labels, i)
  }

  ghost predicate StepsTo(states: seq<State>, labels: seq<Label>, i: nat)
    requires i < |labels| && |states| == |labels| + 1
  {
    Enabled(states[i], labels[i]) && states[i + 1] == Apply(states[i], labels[i])
  }

  lemma {:induction false} RunKeepsInv(states: seq<State>, labels: seq<Label>, n: nat)
    requires IsRun(states, labels) && n < |states|
    ensures Inv(states[n])
  {
    if n == 0 {
      assert Starts(states[0]);
    } else {
      hide Inv, Apply, Enabled, Starts;
      RunKeepsInv(states, labels, n - 1);
      assert StepsTo(states, labels, n - 1);
      StepKeepsInv(states[n - 1], labels[n - 1]);
    }
  }

  // Safety of the state.

  /** The mutex works: no two callers are between Lock and Unlock. */
  lemma MutualExclusion(states: seq<State>, labels: seq<Label>, n: nat, t: Tid, o: Tid)
    requires IsRun(states, labels) && n < |states|
    requires InSection(PcOf(states[n], t)) && InSection(PcOf(states[n], o))
    ensures t == o
  {
    RunKeepsInv(states, labels, n);
    assert MutexOk(states[n]);
    hide IsRun, Inv, InSection;
  }

  /** An identifier Create has returned stays tracked until its process was waited for and its channel closed. */
  lemma NoLiveProcessIsOrphaned(states: seq<State>, labels: seq<Label>, n: nat, id: Id)
    requires IsRun(states, labels) && n < |states| && CreatedBefore(states[n].history, |states[n].history|, id)
    ensures exists e: nat :: Tracks(states[n], id, e) && (id in states[n].processes || WaitedFor(states[n].entries[e]))
  {
    var s := states[n];
    RunKeepsInv(states, labels, n);
    assert HistoryOk(s);
    CreatedIsKnown(s, |s.history|, id);
    var e: nat :| Tracks(s, id, e);
    assert EntryOk(s.entries[e]) && (id in s.processes || s.entries[e].done);
    hide IsRun;
  }

  predicate WaitedFor(entry: Entry) { entry.done && entry.exit.Some? && entry.state == entry.exit }

  /** Only a Destroy whose channel is closed takes an entry out of the map. */
  lemma OnlyClosedEntriesLeave(s: State, l: Label, id: Id)
    requires Inv(s) && Enabled(s, l) && id in s.processes && id !in Apply(s, l).processes
    ensures l.Advance? && PcOf(s, l.t).DestroyDelete? && PcOf(s, l.t).id == id && s.entries[s.processes[id]].done
  {
    CallOf(s, l.t);
    assert EntriesOk(s) && MapOk(s) && Tracks(s, id, s.processes[id]);
    hide Inv, MutexOk, HistoryOk;
    assert PcOf(s, l.t).DestroyDelete? && PcOf(s, l.t).id == id;
    assert Tracks(s, id, PcOf(s, l.t).e);
  }

  /** A Destroy that answers ErrRuntime leaves the entry in the map, so it can be retried. */
  lemma RuntimeErrorDeletesNothing(s: State, l: Label, id: Id)
    requires Inv(s) && Enabled(s, l) && |Apply(s, l).history| == |s.history| + 1
    requires Apply(s, l).history[|s.history|].Returned?
    requires Apply(s, l).history[|s.history|].call == Destroying(id) && Apply(s, l).history[|s.history|].answer.RuntimeError?
    ensures id in s.processes && Apply(s, l).processes == s.processes
  {
    hide Inv;
    assert l.Advance? && PcOf(s, l.t).DestroySelect? && PcOf(s, l.t).id == id && !s.entries[PcOf(s, l.t).e].done;
    RefusedStep(s, l.t, l.killed);
  }

  // Laws of the history.

  lemma EventIsOk(states: seq<State>, labels: seq<Label>, n: nat, i: nat)
    requires IsRun(states, labels) && n < |states| && i < |states[n].history|
    ensures EventOk(states[n], i)
  {
    RunKeepsInv(states, labels, n);
    hide IsRun, EventOk;
  }

  /** Status never reads an unset ProcessState, and every operation answers in its own terms. */
  lemma AnswersFit(states: seq<State>, labels: seq<Label>, n: nat, i: nat)
    requires IsRun(states, labels) && n < |states| && i < |states[n].history| && states[n].history[i].Returned?
    ensures Fits(states[n].history[i].call, states[n].history[i].answer) && !states[n].history[i].answer.UnsetState?
  {
    EventIsOk(states, labels, n, i);
    hide IsRun;
  }

  /** The calls at `i` and `j` are about `id`, and the second was made after the first had returned. */
  predicate InSequence(h: seq<Event>, i: nat, j: nat, id: Id) {
    && i < j < |h| && h[i].Returned? && h[j].Returned? && i < h[j].since
    && !h[i].call.Creating? && !h[j].call.Creating? && h[i].call.id == h[j].call.id == id
  }

  /** Once gone, always gone: every later Destroy and Status answers NotFound. */
  lemma GoneForEver(states: seq<State>, labels: seq<Label>, n: nat, i: nat, j: nat, id: Id)
    requires IsRun(states, labels) && n < |states| && InSequence(states[n].history, i, j, id)
    requires ShowsGone(states[n].history, i, id)
    ensures states[n].history[j].answer.NotFound?
  {
    EventIsOk(states, labels, n, j);
    var h := states[n].history;
    assert GoneBefore(h, h[j].since, id);
    hide IsRun, GoneBefore;
  }

  /** Of any number of Destroys, once one has returned nil all made later answer NotFound. */
  lemma DestroyedOnce(states: seq<State>, labels: seq<Label>, n: nat, i: nat, j: nat, id: Id)
    requires IsRun(states, labels) && n < |states| && InSequence(states[n].history, i, j, id)
    requires states[n].history[i].answer.Destroyed?
    ensures states[n].history[j].answer.NotFound?
  {
    assert ShowsGone(states[n].history, i, id);
    GoneForEver(states, labels, n, i, j, id);
  }

  /** After the channel is closed no Destroy, whenever it was called, answers ErrRuntime. */
  lemma NoRuntimeErrorAfterClose(states: seq<State>, labels: seq<Label>, n: nat, i: nat, j: nat, id: Id)
    requires IsRun(states, labels) && n < |states| && i < j < |states[n].history|
    requires states[n].history[i].Closed? && states[n].history[i].id == id
    requires states[n].history[j].Returned? && states[n].history[j].call == Destroying(id)
    ensures states[n].history[j].answer.Destroyed? || states[n].history[j].answer.NotFound?
  {
    EventIsOk(states, labels, n, j);
    assert ClosedBefore(states[n].history, j, id);
    hide IsRun, ClosedBefore;
  }

  /**
   * Exactly when it answers ErrRuntime: a Destroy whose Kill failed does so if and only if the channel has not
   * been closed before it looks, and otherwise goes on to delete the entry.
   */
  lemma RuntimeErrorIff(states: seq<State>, labels: seq<Label>, n: nat, t: Tid, killed: bool)
    requires IsRun(states, labels) && n < |states| && PcOf(states[n], t).DestroySelect?
    ensures Enabled(states[n], Advance(t, killed))
    ensures
      var s, id, e := states[n], PcOf(states[n], t).id, PcOf(states[n], t).e;
      var u := Apply(s, Advance(t, killed));
      if ClosedBefore(s.history, |s.history|, id) then u.history == s.history && PcOf(u, t) == DestroyRelock(id, e)
      else PcOf(u, t).Idle? && u.history == s.history + [Returned(Destroying(id), SinceOf(s, t), RuntimeError)]
  {
    RunKeepsInv(states, labels, n);
    var s := states[n];
    CallOf(s, t);
    assert EntriesOk(s) && HistoryOk(s);
    hide IsRun, Inv, EntriesOk, HistoryOk;
    NotClosedYet(s, PcOf(s, t).id, PcOf(s, t).e);
    hide ClosedBefore;
  }

  /** The call has come past its Kill: it waits, deletes, or has returned nil since. */
  ghost predicate IsPastKill(s: State, t: Tid, id: Id, e: nat, since: nat, from: nat) {
    || ((PcOf(s, t) == DestroyWait(id, e) || PcOf(s, t) == DestroyRelock(id, e) || PcOf(s, t) == DestroyDelete(id, e)
         || PcOf(s, t) == DestroyUnlock(id, e)) && SinceOf(s, t) == since)
    || exists i :: from <= i < |s.history| && s.history[i] == Returned(Destroying(id), since, Destroyed)
  }

  lemma HistoryGrows(s: State, l: Label)
    requires Enabled(s, l)
    ensures s.history <= Apply(s, l).history
  {
    hide AfterLock;
  }

  lemma OthersLeavePc(s: State, l: Label, t: Tid)
    requires Enabled(s, l) && !PcOf(s, t).Idle? && !(l.Advance? && l.t == t)
    ensures PcOf(Apply(s, l), t) == PcOf(s, t) && SinceOf(Apply(s, l), t) == SinceOf(s, t)
  {
    hide AfterLock;
  }

  /** Past the Kill there is one way: waiting, taking the mutex, deleting, returning nil. */
  lemma WayFromKill(s: State, l: Label, t: Tid, id: Id, e: nat)
    requires Enabled(s, l)
    requires PcOf(s, t) in {DestroyWait(id, e), DestroyRelock(id, e), DestroyDelete(id, e), DestroyUnlock(id, e)}
    ensures
      var u := Apply(s, l);
      || (PcOf(u, t) in {DestroyWait(id, e), DestroyRelock(id, e), DestroyDelete(id, e), DestroyUnlock(id, e)}
          && SinceOf(u, t) == SinceOf(s, t))
      || u.history == s.history + [Returned(Destroying(id), SinceOf(s, t), Destroyed)]
  {
    if !(l.Advance? && l.t == t) {
      OthersLeavePc(s, l, t);
      hide Enabled, Apply;
    }
  }

  lemma PastKillStep(s: State, l: Label, t: Tid, id: Id, e: nat, since: nat, from: nat)
    requires Enabled(s, l) && from <= |s.history| && IsPastKill(s, t, id, e, since, from)
    ensures IsPastKill(Apply(s, l), t, id, e, since, from) && |Apply(s, l).history| >= |s.history|
  {
    HistoryGrows(s, l);
    if PcOf(s, t) in {DestroyWait(id, e), DestroyRelock(id, e), DestroyDelete(id, e), DestroyUnlock(id, e)} && SinceOf(s, t) == since {
      WayFromKill(s, l, t, id, e);
      hide Enabled, Apply;
      if Apply(s, l).history == s.history + [Returned(Destroying(id), since, Destroyed)] {
        assert Apply(s, l).history[|s.history|] == Returned(Destroying(id), since, Destroyed);
      }
    } else {
      hide Enabled, Apply;
      var i :| from <= i < |s.history| && s.history[i] == Returned(Destroying(id), since, Destroyed);
      assert Apply(s, l).history[i] == s.history[i];
    }
  }

  /** A Destroy whose Kill succeeded never answers ErrRuntime: whenever it returns, it returns nil. */
  lemma {:induction false} SuccessfulKillReturnsNil(states: seq<State>, labels: seq<Label>, n: nat, m: nat, t: Tid)
    requires IsRun(states, labels) && n < m < |states| && labels[n] == Advance(t, true) && PcOf(states[n], t).DestroyKill?
    ensures
      var pc := PcOf(states[n], t);
      |states[n].history| <= |states[m].history|
      && IsPastKill(states[m], t, pc.id, pc.e, SinceOf(states[n], t), |states[n].history|)
  {
    var pc := PcOf(states[n], t);
    assert StepsTo(states, labels, m - 1);
    if n < m - 1 {
      SuccessfulKillReturnsNil(states, labels, n, m - 1, t);
      hide IsRun, Enabled, Apply, IsPastKill;
      PastKillStep(states[m - 1], labels[m - 1], t, pc.id, pc.e, SinceOf(states[n], t), |states[n].history|);
    }
  }

  /** A run that ends in the state `s`. */
  ghost predicate Reaches(states: seq<State>, labels: seq<Label>, s: State) {
    IsRun(states, labels) && states[|labels|] == s
  }

  lemma OneMoreStep(states: seq<State>, labels: seq<Label>, s: State, l: Label) returns (more: seq<State>, moreLabels: seq<Label>)
    requires Reaches(states, labels, s) && Enabled(s, l)
    ensures Reaches(more, moreLabels, Apply(s, l))
  {
    hide Enabled, Apply, Starts;
    more, moreLabels := states + [Apply(s, l)], labels + [l];
    forall i | 0 <= i < |moreLabels|
      ensures StepsTo(more, moreLabels, i)
    {
      if i < |labels| {
        assert StepsTo(states, labels, i);
      }
    }
  }

  /** Process 7, created by caller 0 and tracked. */
  function Tracked(exit: Option<int>, reaper: Reaper, state: Option<int>, threads: map<Tid, Thread>): State {
    State([Entry(7, exit, false, reaper, state, false, 0, true)], map[7 := 0], None, threads,
          [Returned(Creating, 0, Created(7))])
  }

  lemma TrackedIsReached() returns (states: seq<State>, labels: seq<Label>)
    ensures Reaches(states, labels, Tracked(None, InWait, None, map[0 := Thread(Idle, 0)]))
  {
    var s0 := State([], map[], None, map[], []);
    states, labels := [s0], [];
    assert Reaches(states, labels, s0);
    hide Reaches;
    var s1 := Apply(s0, StartCreate(0, 7));
    states, labels := OneMoreStep(states, labels, s0, StartCreate(0, 7));
    var s2 := Apply(s1, Advance(0, false));
    states, labels := OneMoreStep(states, labels, s1, Advance(0, false));
    var s3 := Apply(s2, Advance(0, false));
    states, labels := OneMoreStep(states, labels, s2, Advance(0, false));
    states, labels := OneMoreStep(states, labels, s3, Advance(0, false));
    assert Apply(s3, Advance(0, false)) == Tracked(None, InWait, None, map[0 := Thread(Idle, 0)]);
  }

  /** Caller 1 has found process 7 and is about to kill it. */
  lemma KillIsReached() returns (states: seq<State>, labels: seq<Label>)
    ensures Reaches(states, labels, Tracked(None, InWait, None, map[0 := Thread(Idle, 0), 1 := Thread(DestroyKill(7, 0), 1)]))
  {
    states, labels := TrackedIsReached();
    hide Reaches;
    var s0 := Tracked(None, InWait, None, map[0 := Thread(Idle, 0)]);
    var s1 := Apply(s0, StartDestroy(1, 7));
    states, labels := OneMoreStep(states, labels, s0, StartDestroy(1, 7));
    var s2 := Apply(s1, Advance(1, false));
    states, labels := OneMoreStep(states, labels, s1, Advance(1, false));
    var s3 := Apply(s2, Advance(1, false));
    states, labels := OneMoreStep(states, labels, s2, Advance(1, false));
    states, labels := OneMoreStep(states, labels, s3, Advance(1, false));
    assert Apply(s3, Advance(1, false)) == Tracked(None, InWait, None, map[0 := Thread(Idle, 0), 1 := Thread(DestroyKill(7, 0), 1)]);
  }

  /**
   * The window is real: a run in which process 7 has exited and Wait has returned, the channel is still open,
   * and a Destroy whose Kill failed answers ErrRuntime.
   */
  lemma RuntimeErrorAfterExit() returns (states: seq<State>, labels: seq<Label>, s: State)
    ensures Reaches(states, labels, s)
    ensures s.history == [Returned(Creating, 0, Created(7)), Returned(Destroying(7), 1, RuntimeError)]
    ensures s.processes == map[7 := 0] && |s.entries| == 1 && s.entries[0].id == 7
    ensures s.entries[0].exit == s.entries[0].state == Some(3) && !s.entries[0].done
  {
    states, labels := KillIsReached();
    hide Reaches;
    var s0 := Tracked(None, InWait, None, map[0 := Thread(Idle, 0), 1 := Thread(DestroyKill(7, 0), 1)]);
    var s1 := Apply(s0, Exit(0, 3));
    states, labels := OneMoreStep(states, labels, s0, Exit(0, 3));
    var s2 := Apply(s1, WaitReturns(0));
    states, labels := OneMoreStep(states, labels, s1, WaitReturns(0));
    var s3 := Apply(s2, Advance(1, false));
    states, labels := OneMoreStep(states, labels, s2, Advance(1, false));
    s := Apply(s3, Advance(1, false));
    states, labels := OneMoreStep(states, labels, s3, Advance(1, false));
  }

  predicate NoEarlier(before: Answer, after: Answer) {
    match before
    case StillRunning => after.StillRunning? || after.HasExited? || after.NotFound?
    case HasExited(code) => after == HasExited(code) || after.NotFound?
    case _ => after.NotFound?
  }

  lemma OneExitCode(s: State, id: Id, p: nat, q: nat, c: int, d: int)
    requires EntriesOk(s) && HistoryOk(s) && ClosedWith(s.history, p, id, c) && ClosedWith(s.history, q, id, d)
    ensures c == d
  {
    var i :| 0 <= i < p && i < |s.history| && s.history[i] == Closed(id, c);
    var j :| 0 <= j < q && j < |s.history| && s.history[j] == Closed(id, d);
    assert EventOk(s, i) && EventOk(s, j);
    var e: nat :| ClosedEntry(s, id, c, e);
    var f: nat :| ClosedEntry(s, id, d, f);
    assert e == f;
  }

  /**
   * The status of an identifier Create has returned only moves forward over calls that follow one
   * another: running, then exited with one code, then not found, whatever else goes on.
   */
  lemma StatusIsMonotone(states: seq<State>, labels: seq<Label>, n: nat, i: nat, j: nat, id: Id)
    requires IsRun(states, labels) && n < |states| && InSequence(states[n].history, i, j, id)
    requires states[n].history[i].call.Asking? && states[n].history[j].call.Asking?
    requires CreatedBefore(states[n].history, states[n].history[i].since, id)
    ensures NoEarlier(states[n].history[i].answer, states[n].history[j].answer)
  {
    var s, h := states[n], states[n].history;
    EventIsOk(states, labels, n, i);
    EventIsOk(states, labels, n, j);
    if h[i].answer.NotFound? {
      assert ShowsGone(h, i, id);
      GoneForEver(states, labels, n, i, j, id);
    } else if h[i].answer.HasExited? {
      var code := h[i].answer.code;
      var k :| 0 <= k < i && k < |h| && h[k] == Closed(id, code);
      assert ClosedBefore(h, j, id);
      if h[j].answer.HasExited? {
        RunKeepsInv(states, labels, n);
        assert EntriesOk(s) && HistoryOk(s);
        hide IsRun, EntriesOk, HistoryOk, ClosedWith;
        OneExitCode(s, id, i, j, code, h[j].answer.code);
      }
    }
    hide IsRun, EventOk, GoneBefore, ClosedBefore, ClosedWith;
  }

  // Progress.

  /** How many system steps an entry is from a closed channel. */
  function Distance(entry: Entry): nat {
    if entry.reaper.Finished? then 0 else if entry.reaper.BeforeClose? then 1 else if entry.exit.Some? then 2 else 3
  }

  predicate IsSystemStep(l: Label) { l.Exit? || l.WaitReturns? || l.Close? }

  /** A system step that brings entry `e` closer to a closed channel. */
  predicate BringsCloser(s: State, l: Label, e: nat) {
    && IsSystemStep(l) && l.e == e && Enabled(s, l)
    && e < |s.entries| && Distance(Apply(s, l).entries[e]) == Distance(s.entries[e]) - 1
  }

  /** No step of anyone moves a closed channel further away. */
  lemma NoStepRaisesDistance(s: State, l: Label, e: nat)
    requires Inv(s) && Enabled(s, l) && e < |s.entries|
    ensures e < |Apply(s, l).entries| && Distance(Apply(s, l).entries[e]) <= Distance(s.entries[e])
  {
    assert EntryOk(s.entries[e]);
    hide Inv;
  }

  /**
   * A Destroy waiting after a successful Kill is never stuck: it holds no mutex, its process has been
   * killed, and either it can go on or a system step brings its channel closer to closing.
   */
  lemma WaitingDestroyIsNotStuck(s: State, t: Tid)
    requires Inv(s) && PcOf(s, t).DestroyWait?
    ensures s.mu != Some(t) && PcOf(s, t).e < |s.entries| && s.entries[PcOf(s, t).e].killed
    ensures
      var e := PcOf(s, t).e;
      if Distance(s.entries[e]) == 0 then Enabled(s, Advance(t, false)) else exists l: Label :: BringsCloser(s, l, e)
  {
    CallOf(s, t);
    var e := PcOf(s, t).e;
    assert EntryOk(s.entries[e]);
    assert s.mu != Some(t) by { assert InSection(PcOf(s, t)) <==> s.mu == Some(t); }
    hide Inv;
    if !s.entries[e].done {
      var l := if s.entries[e].reaper.BeforeClose? then Close(e)
               else if s.entries[e].exit.Some? then WaitReturns(e) else Exit(e, 0);
      assert BringsCloser(s, l, e);
    }
  }

  /** Whoever holds the mutex can move: nothing inside the critical section blocks. */
  lemma HolderCanMove(s: State, t: Tid)
    requires Inv(s) && s.mu == Some(t)
    ensures InSection(PcOf(s, t)) && Enabled(s, Advance(t, false))
  {
    assert InSection(PcOf(s, t)) <==> s.mu == Some(t);
    CallOf(s, t);
    hide Inv;
  }

  /**
   * No deadlock: while any call is under way, some caller can take its next step, or this very call waits
   * for a channel and the system can bring that channel closer to closing.
   */
  lemma NoDeadlock(states: seq<State>, labels: seq<Label>, n: nat, t: Tid)
    requires IsRun(states, labels) && n < |states| && !PcOf(states[n], t).Idle?
    ensures || (exists o: Tid :: Enabled(states[n], Advance(o, false)))
            || (PcOf(states[n], t).DestroyWait? && exists l: Label :: BringsCloser(states[n], l, PcOf(states[n], t).e))
  {
    var s := states[n];
    RunKeepsInv(states, labels, n);
    CallOf(s, t);
    hide IsRun, Inv;
    if s.mu.Some? {
      HolderCanMove(s, s.mu.value);
    } else if PcOf(s, t).DestroyWait? {
      WaitingDestroyIsNotStuck(s, t);
    } else {
      assert Enabled(s, Advance(t, false));
    }
  }
}
