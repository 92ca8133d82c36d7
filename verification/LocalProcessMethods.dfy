/** `Create`, `Destroy` and `Status` as code over shared fields: each of their statements is a step of the protocol. */
module LocalProcessMethods {
  import opened Prelude
  import opened LocalProcess
  import opened LocalProcessSafety

  predicate IsStepOf(l: Label, t: Tid) {
    !l.Exit? && !l.WaitReturns? && !l.Close? && l.t == t
  }

  /** Caller `t` is where it was, and no entry has changed its identifier. */
  predicate Waits(s: State, u: State, t: Tid) {
    && PcOf(s, t) == PcOf(u, t) && SinceOf(s, t) == SinceOf(u, t) && |s.history| <= |u.history| && SameIds(s, u)
  }

  predicate SameIds(s: State, u: State) {
    |s.entries| <= |u.entries| && forall e :: 0 <= e < |s.entries| ==> u.entries[e].id == s.entries[e].id
  }

  lemma OthersLeaveCaller(s: State, l: Label, t: Tid)
    requires Enabled(s, l) && !IsStepOf(l, t)
    ensures Waits(s, Apply(s, l), t)
  {
    hide AfterLock;
    if l.Advance? {
      MovedLeavesOthers(s, l.t, l.killed, t);
      hide Moved;
    }
  }

  lemma MovedLeavesOthers(s: State, o: Tid, killed: bool, t: Tid)
    requires CanAdvance(s, o) && o != t
    ensures Waits(s, Moved(s, o, killed), t)
  {
    hide AfterLock;
  }

  /** The mutex protects the map: while the caller holds it nobody else takes it or writes the map. */
  lemma OthersKeepOut(s: State, l: Label, t: Tid)
    requires Inv(s) && Enabled(s, l) && !IsStepOf(l, t) && s.mu == Some(t)
    ensures Apply(s, l).mu == Some(t) && Apply(s, l).processes == s.processes
  {
    if l.Advance? {
      assert InSection(PcOf(s, l.t)) <==> s.mu == Some(l.t);
    }
    hide Inv;
  }

  /** In the middle of a call, and nothing the caller does can go on now: the mutex is taken or the channel open. */
  predicate IsBlocked(s: State, t: Tid) {
    && !PcOf(s, t).Idle?
    && ((NeedsMutex(PcOf(s, t)) && s.mu.Some?)
        || (PcOf(s, t).DestroyWait? && PcOf(s, t).e < |s.entries| && !s.entries[PcOf(s, t).e].done))
  }

  /** A blocked caller is one that has no step. */
  lemma BlockedIffNoStep(s: State, t: Tid)
    requires Inv(s) && !PcOf(s, t).Idle?
    ensures IsBlocked(s, t) <==> !CanAdvance(s, t)
  {
    CallOf(s, t);
    hide Inv;
  }

  /** The last thing observed is that the call has returned with this answer. */
  predicate JustReturned(s: State, call: Call, answer: Answer, since: nat) {
    s.history != [] && s.history[|s.history| - 1] == Returned(call, since, answer)
  }

  /**
   * The shared state of a `LocalProcess`. `threads` and `history` are not fields of the original: they
   * note where each caller is and what has been observed, so that the code can be compared with the
   * protocol. Between any two statements of one caller the others take any number of steps.
   */
  class Runtime {
    var entries: seq<Entry>
    var processes: map<Id, nat>
    var mu: Option<Tid>
    var threads: map<Tid, Thread>
    var history: seq<Event>

    function View(): State
      reads this
    {
      State(entries, processes, mu, threads, history)
    }

    constructor ()
      ensures View() == State([], map[], None, map[], []) && Inv(View())
    {
      entries, processes, mu, threads, history := [], map[], None, map[], [];
    }

    /** Whatever the other callers, the reapers and the system do meanwhile. */
    method Others(t: Tid)
      requires Inv(View())
      modifies this
      ensures Inv(View()) && Waits(old(View()), View(), t)
      ensures old(mu) == Some(t) ==> mu == Some(t) && processes == old(processes)
    {
      hide Inv, Apply, Enabled;
      var n: int := *;
      while n > 0
        invariant Inv(View()) && Waits(old(View()), View(), t)
        invariant old(mu) == Some(t) ==> mu == Some(t) && processes == old(processes)
      {
        n := n - 1;
        var l: Label := *;
        if Enabled(View(), l) && !IsStepOf(l, t) {
          ghost var before := View();
          var after := Apply(View(), l);
          entries, processes, mu, threads, history := after.entries, after.processes, after.mu, after.threads, after.history;
          StepKeepsInv(before, l);
          OthersLeaveCaller(before, l, t);
          if before.mu == Some(t) {
            OthersKeepOut(before, l, t);
          }
        }
      }
    }

    /** The caller goes on to its next statement. */
    method Reach(t: Tid, pc: Pc)
      modifies `threads
      ensures View() == Goto(old(View()), t, pc)
    {
      threads := threads[t := Thread(pc, SinceOf(View(), t))];
    }

    method Report(t: Tid, call: Call, answer: Answer)
      modifies `threads, `history
      ensures View() == Return(old(View()), t, call, answer)
    {
      history := history + [Returned(call, SinceOf(View(), t), answer)];
      threads := threads[t := Thread(Idle, SinceOf(View(), t))];
    }

    /** `mu.Lock()`; when others keep the mutex the caller is still waiting. */
    method Lock(t: Tid) returns (got: bool)
      requires Inv(View()) && NeedsMutex(PcOf(View(), t))
      modifies this
      ensures Inv(View()) && |history| >= |old(history)| && SinceOf(View(), t) == SinceOf(old(View()), t)
      ensures PcOf(View(), t) == if got then AfterLock(PcOf(old(View()), t)) else PcOf(old(View()), t)
      ensures (if got then mu == Some(t) else mu.Some?) && SameIds(old(View()), View())
    {
      Others(t);
      if mu.Some? {
        return false;
      }
      ghost var before := View();
      CallOf(before, t);
      mu := Some(t);
      Reach(t, AfterLock(PcOf(View(), t)));
      StepKeepsInv(before, Advance(t, false));
      hide Inv;
      got := true;
    }

    /** `delete(lp.processes, id)` */
    method DeleteEntry(t: Tid, id: Id, e: nat)
      requires Inv(View()) && PcOf(View(), t) == DestroyDelete(id, e)
      modifies this
      ensures Inv(View()) && PcOf(View(), t) == DestroyUnlock(id, e)
      ensures SinceOf(View(), t) == SinceOf(old(View()), t) && history == old(history)
    {
      ghost var before := View();
      CallCanAdvance(before, t);
      hide Inv;
      processes := processes - {id};
      Reach(t, DestroyUnlock(id, e));
      StepKeepsInv(before, Advance(t, false));
    }

    /** `mu.Unlock()` right before a return. */
    method UnlockAndReturn(t: Tid, call: Call, answer: Answer)
      requires Inv(View()) && InSection(PcOf(View(), t))
      requires CanAdvance(View(), t) && SectionStep(View(), t) == Return(View(), t, call, answer).(mu := None)
      modifies this
      ensures Inv(View()) && PcOf(View(), t).Idle? && JustReturned(View(), call, answer, SinceOf(old(View()), t))
      ensures processes == old(processes) && |history| > |old(history)|
    {
      ghost var before := View();
      hide Inv;
      mu := None;
      Report(t, call, answer);
      StepKeepsInv(before, Advance(t, false));
    }

    /** `mu.Unlock()` on the way to the next statement. */
    method Unlock(t: Tid, pc: Pc)
      requires Inv(View()) && InSection(PcOf(View(), t)) && CanAdvance(View(), t)
      requires SectionStep(View(), t) == Release(View(), t, pc)
      modifies this
      ensures Inv(View()) && PcOf(View(), t) == pc && SinceOf(View(), t) == SinceOf(old(View()), t) && history == old(history)
    {
      ghost var before := View();
      hide Inv;
      mu := None;
      Reach(t, pc);
      StepKeepsInv(before, Advance(t, false));
    }

    /** `entry, ok := lp.processes[id]` */
    method Lookup(t: Tid) returns (found: Option<nat>)
      requires Inv(View()) && (PcOf(View(), t).DestroyLookup? || PcOf(View(), t).StatusLookup?) && mu == Some(t)
      modifies this
      ensures Inv(View()) && mu == Some(t) && processes == old(processes) && history == old(history)
      ensures SinceOf(View(), t) == SinceOf(old(View()), t)
      ensures
        var id := PcOf(old(View()), t).id;
        && found == (if id in processes then Some(processes[id]) else None)
        && PcOf(View(), t) == if PcOf(old(View()), t).StatusLookup? then StatusUnlock(id, found)
                              else if found.Some? then DestroyFound(id, found.value) else DestroyMissing(id)
    {
      ghost var before := View();
      CallCanAdvance(before, t);
      hide Inv;
      var pc := PcOf(View(), t);
      found := if pc.id in processes then Some(processes[pc.id]) else None;
      Reach(t, if pc.StatusLookup? then StatusUnlock(pc.id, found)
               else if found.Some? then DestroyFound(pc.id, found.value) else DestroyMissing(pc.id));
      StepKeepsInv(before, Advance(t, false));
    }

    /** The call is made. */
    method Call(t: Tid, pc: Pc)
      requires Inv(View()) && PcOf(View(), t).Idle? && (pc.DestroyLock? || pc.StatusLock?)
      modifies this
      ensures Inv(View()) && PcOf(View(), t) == pc && SinceOf(View(), t) == |history| == |old(history)|
    {
      ghost var before := View();
      hide Inv;
      threads := threads[t := Thread(pc, |history|)];
      StepKeepsInv(before, if pc.DestroyLock? then StartDestroy(t, pc.id) else StartStatus(t, pc.id));
    }

    /** `entry.cmd.Process.Kill()`; whether it fails is the system's choice, whatever the process does. */
    method Kill(t: Tid, id: Id, e: nat, fails: bool)
      requires Inv(View()) && PcOf(View(), t) == DestroyKill(id, e)
      modifies this
      ensures Inv(View()) && SinceOf(View(), t) == SinceOf(old(View()), t) && history == old(history)
      ensures PcOf(View(), t) == if fails then DestroySelect(id, e) else DestroyWait(id, e)
    {
      ghost var before := View();
      CallOf(before, t);
      assert CanAdvance(before, t);
      hide Inv, CallOk;
      if fails {
        Reach(t, DestroySelect(id, e));
      } else {
        entries := entries[e := entries[e].(killed := true)];
        Reach(t, DestroyWait(id, e));
      }
      StepKeepsInv(before, Advance(t, !fails));
    }

    /** A receive from `entry.done`: it goes through once the channel is closed. */
    method Receive(t: Tid, id: Id, e: nat) returns (received: bool)
      requires Inv(View()) && (PcOf(View(), t) == DestroyWait(id, e) || PcOf(View(), t) == DestroySelect(id, e))
      modifies this
      ensures Inv(View()) && SinceOf(View(), t) == SinceOf(old(View()), t) && history == old(history) && entries == old(entries)
      ensures e < |entries| && entries[e].id == id && (received <==> entries[e].done)
      ensures PcOf(View(), t) == if received then DestroyRelock(id, e) else PcOf(old(View()), t)
    {
      ghost var before := View();
      CallOf(before, t);
      assert e < |entries| && entries[e].id == id;
      hide Inv, CallOk;
      received := entries[e].done;
      if received {
        Reach(t, DestroyRelock(id, e));
        StepKeepsInv(before, Advance(t, false));
      }
    }

    /** A return outside the mutex. */
    method ReturnAnswer(t: Tid, call: Call, answer: Answer)
      requires Inv(View()) && CanAdvance(View(), t) && !InSection(PcOf(View(), t)) && !NeedsMutex(PcOf(View(), t))
      requires OutsideStep(View(), t, false) == Return(View(), t, call, answer)
      modifies this
      ensures Inv(View()) && PcOf(View(), t).Idle? && JustReturned(View(), call, answer, SinceOf(old(View()), t))
      ensures processes == old(processes) && entries == old(entries) && |history| > |old(history)|
    {
      ghost var before := View();
      hide Inv;
      Report(t, call, answer);
      StepKeepsInv(before, Advance(t, false));
    }

    /** Takes the entry out of the map, under the mutex, and returns nil. */
    method Delete(t: Tid, id: Id, e: nat) returns (answer: Option<Answer>)
      requires Inv(View()) && PcOf(View(), t) == DestroyRelock(id, e)
      modifies this
      ensures Inv(View()) && |history| >= |old(history)|
      ensures answer.Some? ==> answer.value.Destroyed? && JustReturned(View(), Destroying(id), Destroyed, SinceOf(old(View()), t))
      ensures answer.Some? ==> id !in processes && PcOf(View(), t).Idle?
      ensures answer.None? ==> IsBlocked(View(), t) && NeedsMutex(PcOf(View(), t))
    {
      hide Inv;
      var got := Lock(t);
      if !got {
        return None;
      }
      Others(t);
      DeleteEntry(t, id, e);
      Others(t);
      DeletedIsGone(View(), t);
      UnlockAndReturn(t, Destroying(id), Destroyed);
      answer := Some(Destroyed);
    }

    /** The opening of `Destroy` and `Status`: up to and including the look into the map. */
    method Find(t: Tid, pc: Pc) returns (got: bool, found: Option<nat>, ghost since: nat)
      requires Inv(View()) && PcOf(View(), t).Idle? && (pc.DestroyLock? || pc.StatusLock?)
      modifies this
      ensures Inv(View()) && |old(history)| <= since == SinceOf(View(), t)
      ensures !got ==> PcOf(View(), t) == pc && IsBlocked(View(), t)
      ensures got ==> CanAdvance(View(), t) && (found.None? ==> pc.id !in processes)
      ensures got ==> PcOf(View(), t) == if pc.StatusLock? then StatusUnlock(pc.id, found)
                                         else if found.Some? then DestroyFound(pc.id, found.value)
                                         else DestroyMissing(pc.id)
    {
      hide Inv, CanAdvance;
      Others(t);
      since := |history|;
      Call(t, pc);
      got := Lock(t);
      if !got {
        return got, None, since;
      }
      Others(t);
      found := Lookup(t);
      Others(t);
      CallCanAdvance(View(), t);
    }

    /** The rest of `Destroy`, once the entry is found: kill, wait, delete. `fails` tells whether Kill does. */
    method Terminate(t: Tid, id: Id, e: nat, fails: bool) returns (answer: Option<Answer>)
      requires Inv(View()) && PcOf(View(), t) == DestroyKill(id, e)
      modifies this
      ensures Inv(View()) && (answer.Some? <==> PcOf(View(), t).Idle?)
      ensures answer.None? ==> IsBlocked(View(), t) && (PcOf(View(), t).DestroyWait? ==> !fails)
      ensures answer.Some? ==> JustReturned(View(), Destroying(id), answer.value, SinceOf(old(View()), t))
      ensures answer.Some? ==> answer.value.Destroyed? || (answer.value.RuntimeError? && fails)
      ensures answer.Some? ==> (id in processes <==> answer.value.RuntimeError?)
      ensures answer == Some(RuntimeError) ==>
                processes[id] < |entries| && entries[processes[id]].id == id && !entries[processes[id]].done
    {
      hide Inv;
      Others(t);
      Kill(t, id, e, fails);
      Others(t);
      var received := Receive(t, id, e);
      if received {
        answer := Delete(t, id, e);
      } else if !fails {
        answer := None;
      } else {
        StillTracked(View(), t);
        ReturnAnswer(t, Destroying(id), RuntimeError);
        answer := Some(RuntimeError);
      }
    }

    /**
     * `Destroy`. Without an answer the call is blocked, on the mutex or, only after a successful Kill, on the
     * channel; an answer tells what is true at that moment, and ErrRuntime means that Kill failed.
     */
    method Destroy(t: Tid, id: Id, fails: bool) returns (answer: Option<Answer>, ghost since: nat)
      requires Inv(View()) && PcOf(View(), t).Idle?
      modifies this
      ensures Inv(View()) && (answer.Some? <==> PcOf(View(), t).Idle?)
      ensures answer.None? ==> IsBlocked(View(), t) && (PcOf(View(), t).DestroyWait? ==> !fails)
      ensures answer.Some? ==> |old(history)| <= since && JustReturned(View(), Destroying(id), answer.value, since)
      ensures answer.Some? ==> answer.value.Destroyed? || answer.value.NotFound? || (answer.value.RuntimeError? && fails)
      ensures answer.Some? ==> (id in processes <==> answer.value.RuntimeError?)
      ensures answer == Some(RuntimeError) ==>
                processes[id] < |entries| && entries[processes[id]].id == id && !entries[processes[id]].done
    {
      hide Inv, CanAdvance;
      var got, found;
      got, found, since := Find(t, DestroyLock(id));
      if !got {
        answer := None;
      } else if found.None? {
        UnlockAndReturn(t, Destroying(id), NotFound);
        answer := Some(NotFound);
      } else {
        Unlock(t, DestroyKill(id, found.value));
        answer := Terminate(t, id, found.value, fails);
      }
    }

    /** `Status`: the exit code it reports is the one the closed channel's process left. */
    method Status(t: Tid, id: Id) returns (answer: Option<Answer>, ghost since: nat)
      requires Inv(View()) && PcOf(View(), t).Idle?
      modifies this
      ensures Inv(View()) && (answer.Some? <==> PcOf(View(), t).Idle?)
      ensures answer.None? ==> IsBlocked(View(), t)
      ensures answer.Some? ==> |old(history)| <= since && JustReturned(View(), Asking(id), answer.value, since)
      ensures answer.Some? ==> answer.value.StillRunning? || answer.value.HasExited? || answer.value.NotFound?
      ensures answer == Some(StillRunning) ==> id in processes
      ensures answer == Some(NotFound) ==> id !in processes
      ensures answer.Some? && answer.value.HasExited? ==> exists e: nat :: ClosedEntry(View(), id, answer.value.code, e)
    {
      hide Inv, CanAdvance;
      var got, found;
      got, found, since := Find(t, StatusLock(id));
      if !got {
        answer := None;
      } else if found.None? {
        UnlockAndReturn(t, Asking(id), NotFound);
        answer := Some(NotFound);
      } else {
        Unlock(t, StatusSelect(id, found.value));
        Others(t);
        answer := Observe(t, id, found.value);
      }
    }

    /** The last `select` of `Status`. */
    method Observe(t: Tid, id: Id, e: nat) returns (answer: Option<Answer>)
      requires Inv(View()) && PcOf(View(), t) == StatusSelect(id, e)
      modifies this
      ensures Inv(View()) && PcOf(View(), t).Idle? && answer.Some?
      ensures JustReturned(View(), Asking(id), answer.value, SinceOf(old(View()), t))
      ensures answer.value.StillRunning? || answer.value.HasExited?
      ensures answer.value.StillRunning? ==> id in processes
      ensures answer.value.HasExited? ==> exists e: nat :: ClosedEntry(View(), id, answer.value.code, e)
    {
      StillTracked(View(), t);
      hide Inv;
      if entries[e].done {
        var code := entries[e].state.value;
        ReturnAnswer(t, Asking(id), HasExited(code));
        answer := Some(HasExited(code));
        assert ClosedEntry(View(), id, code, e);
      } else {
        ReturnAnswer(t, Asking(id), StillRunning);
        answer := Some(StillRunning);
      }
    }

    /** `lp.processes[id] = entry` */
    method StoreEntry(t: Tid, e: nat)
      requires Inv(View()) && PcOf(View(), t) == CreateStore(e) && e < |entries|
      modifies this
      ensures Inv(View()) && PcOf(View(), t) == CreateUnlock(e) && mu == old(mu) && SameIds(old(View()), View())
      ensures SinceOf(View(), t) == SinceOf(old(View()), t) && history == old(history) && entries[e].id in processes
    {
      ghost var before := View();
      CallCanAdvance(before, t);
      hide Inv;
      entries, processes := entries[e := entries[e].(stored := true)], processes[entries[e].id := e];
      Reach(t, CreateUnlock(e));
      StepKeepsInv(before, Advance(t, false));
    }

    /** The child is started: a new entry with its reaper. */
    method Start(t: Tid, id: Id) returns (e: nat)
      requires Inv(View()) && PcOf(View(), t).Idle? && forall f :: 0 <= f < |entries| ==> entries[f].id != id
      modifies this
      ensures Inv(View()) && PcOf(View(), t) == CreateLock(e) && e < |entries| && entries[e].id == id
      ensures SinceOf(View(), t) == |old(history)| && history == old(history)
    {
      ghost var before := View();
      hide Inv;
      e := |entries|;
      threads := threads[t := Thread(CreateLock(e), |history|)];
      entries := entries + [Entry(id, None, false, InWait, None, false, t, false)];
      StepKeepsInv(before, StartCreate(t, id));
    }

    /**
     * `Create`, with the new identifier and whether the command can be started as parameters: nothing
     * is tracked, or the child is in the map when the identifier is returned.
     */
    method Create(t: Tid, id: Id, starts: bool) returns (answer: Option<Answer>, ghost since: nat)
      requires Inv(View()) && PcOf(View(), t).Idle? && forall e :: 0 <= e < |entries| ==> entries[e].id != id
      modifies this
      ensures Inv(View()) && (answer.Some? <==> PcOf(View(), t).Idle?)
      ensures answer.None? ==> IsBlocked(View(), t)
      ensures answer.Some? ==> |old(history)| <= since && JustReturned(View(), Creating, answer.value, since)
      ensures answer.Some? ==> answer.value == if starts then Created(id) else CreateFailed
      ensures starts && answer.Some? ==> id in processes
      ensures !starts ==> answer.Some? && processes == old(processes) && entries == old(entries)
    {
      hide Inv, CanAdvance;
      since := |history|;
      if !starts {
        ghost var before := View();
        history := history + [Returned(Creating, |history|, CreateFailed)];
        StepKeepsInv(before, FailCreate(t));
        return Some(CreateFailed), since;
      }
      var e := Start(t, id);
      var got := Lock(t);
      if !got {
        return None, since;
      }
      Others(t);
      StoreEntry(t, e);
      Others(t);
      CallCanAdvance(View(), t);
      UnlockAndReturn(t, Creating, Created(id));
      answer := Some(Created(id));
    }
  }

  /** A caller that has found an entry whose channel is open can count on its being in the map. */
  lemma StillTracked(s: State, t: Tid)
    requires Inv(s) && (PcOf(s, t).DestroySelect? || PcOf(s, t).StatusSelect?)
    ensures CanAdvance(s, t) && PcOf(s, t).e < |s.entries| && s.entries[PcOf(s, t).e].id == PcOf(s, t).id
    ensures s.entries[PcOf(s, t).e].done ==> s.entries[PcOf(s, t).e].state.Some?
    ensures !s.entries[PcOf(s, t).e].done ==> PcOf(s, t).id in s.processes && s.processes[PcOf(s, t).id] == PcOf(s, t).e
  {
    CallOf(s, t);
    var id, e := PcOf(s, t).id, PcOf(s, t).e;
    assert EntryOk(s.entries[e]);
    if !s.entries[e].done {
      assert id in s.processes;
      assert Tracks(s, id, s.processes[id]);
    }
    hide MutexOk, CallsOk, HistoryOk;
  }

  lemma CallCanAdvance(s: State, t: Tid)
    requires Inv(s) && InSection(PcOf(s, t))
    ensures CanAdvance(s, t)
  {
    CallOf(s, t);
    hide Inv;
  }

  lemma DeletedIsGone(s: State, t: Tid)
    requires Inv(s) && PcOf(s, t).DestroyUnlock?
    ensures PcOf(s, t).id !in s.processes && CanAdvance(s, t)
  {
    CallOf(s, t);
    hide Inv;
  }
}
