/** The invariant of the LocalProcess runtime, over every interleaving of callers, reapers and the system. */
module LocalProcessSafety {
  import opened Prelude
  import opened LocalProcess

  predicate EntryOk(entry: Entry) {
    && (entry.state.Some? <==> !entry.reaper.InWait?)
    && (entry.state.Some? ==> entry.exit == entry.state)
    && (entry.done <==> entry.reaper.Finished?)
  }

  ghost predicate EntriesOk(s: State) {
    && (forall e :: 0 <= e < |s.entries| ==> EntryOk(s.entries[e]))
    && (forall e, f :: 0 <= e < f < |s.entries| ==> s.entries[e].id != s.entries[f].id)
  }

  /** Entries leave the map only once their channel is closed; an entry not stored yet has a caller about to store it. */
  ghost predicate MapOk(s: State) {
    && (forall id :: id in s.processes ==> Tracks(s, id, s.processes[id]))
    && (forall e :: 0 <= e < |s.entries| ==>
          if s.entries[e].stored then s.entries[e].id in s.processes || s.entries[e].done
          else AboutToStore(PcOf(s, s.entries[e].creator), e))
  }

  predicate Tracks(s: State, id: Id, e: nat) {
    e < |s.entries| && s.entries[e].id == id && s.entries[e].stored
  }

  predicate AboutToStore(pc: Pc, e: nat) { pc == CreateLock(e) || pc == CreateStore(e) }

  ghost predicate MutexOk(s: State) {
    forall t: Tid :: InSection(PcOf(s, t)) <==> s.mu == Some(t)
  }

  ghost predicate Known(s: State, id: Id) {
    exists e: nat :: Tracks(s, id, e)
  }

  /** Stored once and no longer in the map. */
  ghost predicate Gone(s: State, id: Id) {
    Known(s, id) && id !in s.processes
  }

  /** What caller `t` at `pc`, in a call made at `since`, may rely on. */
  ghost predicate CallOk(s: State, t: Tid, pc: Pc, since: nat) {
    && since <= |s.history|
    && (Refers(pc) ==> EntryOf(pc) < |s.entries|)
    && (pc.CreateLock? || pc.CreateStore? ==> s.entries[pc.e].creator == t && !s.entries[pc.e].stored)
    && (pc.CreateUnlock? ==> s.entries[pc.e].stored)
    && (HasFound(pc) ==> Tracks(s, pc.id, EntryOf(pc)) && !GoneBefore(s.history, since, pc.id))
    && (pc.DestroyRelock? || pc.DestroyDelete? || pc.DestroyUnlock? ==> s.entries[pc.e].done)
    && (pc.DestroyUnlock? ==> pc.id !in s.processes)
    && (pc.DestroyWait? ==> s.entries[pc.e].killed)
    && (HasMissed(pc) && CreatedBefore(s.history, since, pc.id) ==> Gone(s, pc.id))
  }

  ghost predicate CallsOk(s: State) {
    forall t :: t in s.threads ==> CallOk(s, t, s.threads[t].pc, s.threads[t].since)
  }

  predicate ClosedEntry(s: State, id: Id, code: int, e: nat) {
    e < |s.entries| && s.entries[e].id == id && s.entries[e].done && s.entries[e].state == Some(code)
  }

  /** Every event is justified by the events before it and true of the state. */
  ghost predicate EventOk(s: State, i: nat)
    requires i < |s.history|
  {
    && Justified(s.history, i)
    && (s.history[i].Closed? ==> exists e: nat :: ClosedEntry(s, s.history[i].id, s.history[i].code, e))
    && (s.history[i].Returned? && s.history[i].answer.Created? ==> Known(s, s.history[i].answer.id))
    && (s.history[i].Returned? && !s.history[i].call.Creating? && ShowsGone(s.history, i, s.history[i].call.id)
        ==> Gone(s, s.history[i].call.id))
  }

  ghost predicate HistoryOk(s: State) {
    && (forall i :: 0 <= i < |s.history| ==> EventOk(s, i))
    && (forall e :: 0 <= e < |s.entries| && s.entries[e].done ==> ClosedBefore(s.history, |s.history|, s.entries[e].id))
  }

  ghost predicate Inv(s: State) {
    EntriesOk(s) && MapOk(s) && MutexOk(s) && CallsOk(s) && HistoryOk(s)
  }

  // What any step leaves as it is.

  predicate EntryEvolves(a: Entry, b: Entry, t: Tid) {
    && a.id == b.id && a.creator == b.creator && (a.stored ==> b.stored) && (a.creator != t ==> a.stored == b.stored)
    && (a.done ==> b.done) && (a.state.Some? ==> b.state == a.state) && (a.killed ==> b.killed)
  }

  /** A step of caller `t` (or of the system, for any `t`): entries only move forward, what is gone stays gone. */
  ghost predicate Evolves(s: State, u: State, t: Tid) {
    && |s.entries| <= |u.entries| && (forall e :: 0 <= e < |s.entries| ==> EntryEvolves(s.entries[e], u.entries[e], t))
    && s.history <= u.history
    && (forall id :: id in u.processes && id !in s.processes ==> !Known(s, id))
  }

  lemma TracksEvolves(s: State, u: State, t: Tid, id: Id, e: nat)
    requires Evolves(s, u, t) && Tracks(s, id, e)
    ensures Tracks(u, id, e)
  {
  }

  lemma GoneEvolves(s: State, u: State, t: Tid, id: Id)
    requires Evolves(s, u, t)
    ensures Known(s, id) ==> Known(u, id)
    ensures Gone(s, id) ==> Gone(u, id)
  {
    if Known(s, id) {
      var e: nat :| Tracks(s, id, e);
      TracksEvolves(s, u, t, id, e);
    }
  }

  // A longer history shows the same about its earlier part.

  lemma CreatedBeforeOfPrefix(h: seq<Event>, k: seq<Event>, p: nat, id: Id)
    requires h <= k && p <= |h|
    ensures CreatedBefore(k, p, id) <==> CreatedBefore(h, p, id)
  {
  }

  lemma ShowsGoneOfPrefix(h: seq<Event>, k: seq<Event>, i: nat, id: Id)
    requires h <= k && i < |h| && (h[i].Returned? ==> h[i].since <= |h|)
    ensures ShowsGone(k, i, id) <==> ShowsGone(h, i, id)
  {
    if h[i].Returned? {
      CreatedBeforeOfPrefix(h, k, h[i].since, id);
    }
  }

  ghost predicate SinceOk(h: seq<Event>) {
    forall i :: 0 <= i < |h| && h[i].Returned? ==> h[i].since <= i
  }

  lemma GoneBeforeOfPrefix(h: seq<Event>, k: seq<Event>, p: nat, id: Id)
    requires h <= k && p <= |h| && SinceOk(h)
    ensures GoneBefore(k, p, id) <==> GoneBefore(h, p, id)
  {
    forall i | 0 <= i < |h|
      ensures ShowsGone(k, i, id) <==> ShowsGone(h, i, id)
    {
      ShowsGoneOfPrefix(h, k, i, id);
    }
    hide ShowsGone;
  }

  lemma JustifiedOfPrefix(h: seq<Event>, k: seq<Event>, j: nat)
    requires h <= k && j < |h| && SinceOk(h) && Justified(h, j)
    ensures Justified(k, j)
  {
    if h[j].Returned? && !h[j].call.Creating? {
      GoneBeforeOfPrefix(h, k, h[j].since, h[j].call.id);
      assert ClosedBefore(k, j, h[j].call.id) <==> ClosedBefore(h, j, h[j].call.id);
      if h[j].answer.HasExited? {
        assert ClosedWith(k, j, h[j].call.id, h[j].answer.code) <==> ClosedWith(h, j, h[j].call.id, h[j].answer.code);
      }
    }
    hide GoneBefore, ClosedBefore, ClosedWith;
  }

  lemma HistoryIsSinceOk(s: State)
    requires HistoryOk(s)
    ensures SinceOk(s.history)
  {
    forall i | 0 <= i < |s.history| && s.history[i].Returned?
      ensures s.history[i].since <= i
    {
      assert EventOk(s, i);
    }
  }

  /** What another caller relies on survives the step. */
  lemma CallStaysOk(s: State, u: State, t: Tid, o: Tid, pc: Pc, since: nat)
    requires Evolves(s, u, t) && HistoryOk(s) && o != t && CallOk(s, o, pc, since)
    ensures CallOk(u, o, pc, since)
  {
    HistoryIsSinceOk(s);
    hide HistoryOk;
    if HasFound(pc) {
      GoneBeforeOfPrefix(s.history, u.history, since, pc.id);
      hide GoneBefore;
    } else if HasMissed(pc) {
      CreatedBeforeOfPrefix(s.history, u.history, since, pc.id);
      GoneEvolves(s, u, t, pc.id);
      hide CreatedBefore, Gone;
    }
  }

  lemma EventStaysOk(s: State, u: State, t: Tid, i: nat)
    requires Evolves(s, u, t) && HistoryOk(s) && i < |s.history|
    ensures EventOk(u, i)
  {
    HistoryIsSinceOk(s);
    assert EventOk(s, i);
    JustifiedOfPrefix(s.history, u.history, i);
    var event := s.history[i];
    assert u.history[i] == event;
    hide HistoryOk, Justified;
    match event
    case Closed(id, code) =>
      var e: nat :| ClosedEntry(s, id, code, e);
      assert ClosedEntry(u, id, code, e);
    case Returned(call, since, answer) =>
      if answer.Created? {
        GoneEvolves(s, u, t, answer.id);
      }
      if !call.Creating? {
        ShowsGoneOfPrefix(s.history, u.history, i, call.id);
        GoneEvolves(s, u, t, call.id);
      }
      hide ShowsGone, Gone, Known, Evolves;
  }

  // One caller moves.

  ghost predicate OthersUnmoved(s: State, u: State, t: Tid) {
    forall o: Tid :: o != t ==> (o in u.threads <==> o in s.threads) && (o in s.threads ==> u.threads[o] == s.threads[o])
  }

  /** A history that grew by at most one event. */
  ghost predicate Grew(s: State, u: State) {
    |s.history| <= |u.history| <= |s.history| + 1 && (|u.history| > |s.history| ==> EventOk(u, |s.history|))
  }

  lemma HistoryStaysOk(s: State, u: State, t: Tid)
    requires HistoryOk(s) && Evolves(s, u, t) && Grew(s, u)
    requires forall e :: 0 <= e < |u.entries| && u.entries[e].done ==>
               (e < |s.entries| && s.entries[e].done) || ClosedBefore(u.history, |u.history|, u.entries[e].id)
    ensures HistoryOk(u)
  {
    forall i | 0 <= i < |u.history|
      ensures EventOk(u, i)
    {
      if i < |s.history| {
        EventStaysOk(s, u, t, i);
      }
    }
    forall e | 0 <= e < |u.entries| && u.entries[e].done
      ensures ClosedBefore(u.history, |u.history|, u.entries[e].id)
    {
      if e < |s.entries| && s.entries[e].done {
        var i :| 0 <= i < |s.history| && s.history[i].Closed? && s.history[i].id == s.entries[e].id;
        assert u.history[i] == s.history[i];
      }
    }
    hide EventOk;
  }

  lemma CallerStep(s: State, u: State, t: Tid)
    requires Inv(s) && Evolves(s, u, t) && OthersUnmoved(s, u, t) && EntriesOk(u) && MapOk(u) && MutexOk(u) && Grew(s, u)
    requires t in u.threads && CallOk(u, t, u.threads[t].pc, u.threads[t].since)
    requires forall e :: 0 <= e < |u.entries| && u.entries[e].done ==> e < |s.entries| && s.entries[e].done
    ensures Inv(u)
  {
    HistoryStaysOk(s, u, t);
    forall o | o in u.threads
      ensures CallOk(u, o, u.threads[o].pc, u.threads[o].since)
    {
      if o != t {
        hide MapOk, MutexOk, EntriesOk;
        CallStaysOk(s, u, t, o, s.threads[o].pc, s.threads[o].since);
      }
    }
    hide Evolves, CallOk, MapOk, MutexOk, EntriesOk, HistoryOk;
  }

  /** Taking, keeping or giving up the mutex. */
  lemma MutexStep(s: State, u: State, t: Tid)
    requires MutexOk(s) && OthersUnmoved(s, u, t)
    requires u.mu == s.mu || (s.mu in {None, Some(t)} && u.mu in {None, Some(t)})
    requires InSection(PcOf(u, t)) <==> u.mu == Some(t)
    ensures MutexOk(u)
  {
    forall o: Tid
      ensures InSection(PcOf(u, o)) <==> u.mu == Some(o)
    {
      assert InSection(PcOf(s, o)) <==> s.mu == Some(o);
    }
  }

  lemma CallOf(s: State, t: Tid)
    requires Inv(s) && !PcOf(s, t).Idle?
    ensures CallOk(s, t, PcOf(s, t), SinceOf(s, t))
  {
    hide CallOk, EntriesOk, MapOk, MutexOk, HistoryOk;
  }

  predicate SameWorld(s: State, u: State) {
    s.entries == u.entries && s.processes == u.processes && s.history == u.history
  }

  lemma KnownInSameWorld(s: State, u: State, id: Id)
    requires SameWorld(s, u)
    ensures Known(s, id) <==> Known(u, id)
  {
    if Known(s, id) {
      var e: nat :| Tracks(s, id, e);
      assert Tracks(u, id, e);
    }
    if Known(u, id) {
      var e: nat :| Tracks(u, id, e);
      assert Tracks(s, id, e);
    }
  }

  lemma CallOkInSameWorld(s: State, u: State, t: Tid, pc: Pc, since: nat)
    requires SameWorld(s, u) && CallOk(s, t, pc, since)
    ensures CallOk(u, t, pc, since)
  {
    if HasMissed(pc) {
      KnownInSameWorld(s, u, pc.id);
    }
    hide Known, GoneBefore, CreatedBefore;
  }

  lemma EventOkInSameWorld(s: State, u: State, i: nat)
    requires SameWorld(s, u) && i < |s.history| && EventOk(s, i)
    ensures EventOk(u, i)
  {
    match s.history[i]
    case Closed(id, code) =>
      var e: nat :| ClosedEntry(s, id, code, e);
      assert ClosedEntry(u, id, code, e);
    case Returned(call, since, answer) =>
      if answer.Created? {
        KnownInSameWorld(s, u, answer.id);
      }
      if !call.Creating? {
        KnownInSameWorld(s, u, call.id);
      }
      hide Known, ShowsGone, Justified;
  }

  /** A step that changes only where the caller is and perhaps the mutex. */
  lemma QuietStep(s: State, t: Tid, pc: Pc, since: nat, mu: Option<Tid>)
    requires Inv(s) && CallOk(s, t, pc, since)
    requires mu == s.mu || (s.mu in {None, Some(t)} && mu in {None, Some(t)})
    requires InSection(pc) <==> mu == Some(t)
    requires forall e :: AboutToStore(PcOf(s, t), e) ==> AboutToStore(pc, e)
    ensures Inv(s.(threads := s.threads[t := Thread(pc, since)], mu := mu))
  {
    var u := s.(threads := s.threads[t := Thread(pc, since)], mu := mu);
    assert MapOk(u) by { hide InSection, CallOk, Tracks; }
    CallOkInSameWorld(s, u, t, pc, since);
    hide MapOk, HistoryOk, CallOk, CallsOk;
    MutexStep(s, u, t);
    hide InSection, MutexOk;
    CallerStep(s, u, t);
  }

  lemma BeginStep(s: State, t: Tid, pc: Pc)
    requires Inv(s) && PcOf(s, t).Idle? && (pc.DestroyLock? || pc.StatusLock?)
    ensures Inv(Begin(s, t, pc))
  {
    assert s.mu != Some(t) by { assert InSection(PcOf(s, t)) <==> s.mu == Some(t); }
    hide Inv;
    QuietStep(s, t, pc, |s.history|, s.mu);
  }

  lemma AcquireStep(s: State, t: Tid)
    requires Inv(s) && NeedsMutex(PcOf(s, t)) && s.mu.None?
    ensures Inv(Acquire(s, t, AfterLock(PcOf(s, t))))
  {
    CallOf(s, t);
    hide Inv;
    QuietStep(s, t, AfterLock(PcOf(s, t)), SinceOf(s, t), Some(t));
  }

  /** A call returns: the answer becomes the last event. */
  lemma ReturnStep(s: State, t: Tid, call: Call, answer: Answer, mu: Option<Tid>)
    requires Inv(s) && mu != Some(t) && (mu == s.mu || (s.mu == Some(t) && mu.None?))
    requires SinceOf(s, t) <= |s.history| && forall e :: !AboutToStore(PcOf(s, t), e)
    requires EventOk(Return(s, t, call, answer), |s.history|)
    ensures Inv(Return(s, t, call, answer).(mu := mu))
  {
    var u := Return(s, t, call, answer).(mu := mu);
    assert MapOk(u) by { hide InSection, CallOk, Tracks; }
    EventOkInSameWorld(Return(s, t, call, answer), u, |s.history|);
    hide MapOk, HistoryOk, EventOk;
    MutexStep(s, u, t);
    hide InSection, MutexOk;
    CallerStep(s, u, t);
  }

  // Steps of the critical sections.

  lemma LookupStep(s: State, t: Tid)
    requires Inv(s) && (PcOf(s, t).DestroyLookup? || PcOf(s, t).StatusLookup?)
    ensures Inv(SectionStep(s, t))
  {
    CallOf(s, t);
    var pc, since := PcOf(s, t), SinceOf(s, t);
    assert s.mu == Some(t) by { assert InSection(pc); assert InSection(PcOf(s, t)) <==> s.mu == Some(t); }
    var id, found := pc.id, Find(s, pc.id);
    if found.Some? {
      assert Tracks(s, id, found.value);
      NotGoneYet(s, since, id);
    } else if CreatedBefore(s.history, since, id) {
      CreatedIsKnown(s, since, id);
    }
    var next := if pc.StatusLookup? then StatusUnlock(id, found)
                else match found case Some(e) => DestroyFound(id, e) case None => DestroyMissing(id);
    assert CallOk(s, t, next, since) by { hide Inv; }
    hide Inv, CallOk;
    QuietStep(s, t, next, since, s.mu);
  }

  lemma ShownGoneIsGone(s: State, p: nat, id: Id)
    requires HistoryOk(s) && GoneBefore(s.history, p, id)
    ensures Gone(s, id)
  {
    var i :| 0 <= i < p && i < |s.history| && ShowsGone(s.history, i, id);
    assert EventOk(s, i);
    hide Justified, Gone;
  }

  lemma NotGoneYet(s: State, since: nat, id: Id)
    requires HistoryOk(s) && id in s.processes
    ensures !GoneBefore(s.history, since, id)
  {
    if GoneBefore(s.history, since, id) {
      ShownGoneIsGone(s, since, id);
    }
  }

  lemma CreatedIsKnown(s: State, since: nat, id: Id)
    requires HistoryOk(s) && CreatedBefore(s.history, since, id)
    ensures Known(s, id)
  {
    var k :| 0 <= k < since && k < |s.history| && s.history[k].Returned? && s.history[k].answer == Created(id);
    assert EventOk(s, k);
    hide Justified, Known, ShowsGone;
  }

  lemma LeaveStep(s: State, t: Tid)
    requires Inv(s) && CanAdvance(s, t)
    requires PcOf(s, t).DestroyFound? || (PcOf(s, t).StatusUnlock? && PcOf(s, t).found.Some?)
    ensures Inv(SectionStep(s, t))
  {
    CallOf(s, t);
    var pc, since := PcOf(s, t), SinceOf(s, t);
    assert s.mu == Some(t) by { assert InSection(pc); assert InSection(PcOf(s, t)) <==> s.mu == Some(t); }
    var next := if pc.DestroyFound? then DestroyKill(pc.id, pc.e) else StatusSelect(pc.id, pc.found.value);
    assert CallOk(s, t, next, since) by { hide Inv; }
    hide Inv, CallOk;
    QuietStep(s, t, next, since, None);
  }

  /** Inside the critical section, on the way out with an answer. */
  lemma AnswerStep(s: State, t: Tid)
    requires Inv(s) && CanAdvance(s, t)
    requires PcOf(s, t).CreateUnlock? || PcOf(s, t).DestroyUnlock? || HasMissed(PcOf(s, t))
    ensures Inv(SectionStep(s, t))
  {
    CallOf(s, t);
    var pc, since := PcOf(s, t), SinceOf(s, t);
    assert s.mu == Some(t) by { assert InSection(pc); assert InSection(PcOf(s, t)) <==> s.mu == Some(t); }
    if pc.CreateUnlock? {
      CreatedAnswer(s, t);
    } else if pc.DestroyUnlock? {
      DestroyedAnswer(s, t);
    } else {
      MissedAnswer(s, t);
    }
    hide Inv, CallOk, EventOk;
    match pc
    case CreateUnlock(e) => ReturnStep(s, t, Creating, Created(s.entries[e].id), None);
    case DestroyUnlock(id, _) => ReturnStep(s, t, Destroying(id), Destroyed, None);
    case DestroyMissing(id) => ReturnStep(s, t, Destroying(id), NotFound, None);
    case StatusUnlock(id, _) => ReturnStep(s, t, Asking(id), NotFound, None);
  }

  lemma CreatedAnswer(s: State, t: Tid)
    requires PcOf(s, t).CreateUnlock? && CallOk(s, t, PcOf(s, t), SinceOf(s, t))
    ensures EventOk(Return(s, t, Creating, Created(s.entries[PcOf(s, t).e].id)), |s.history|)
  {
    var e := PcOf(s, t).e;
    var u := Return(s, t, Creating, Created(s.entries[e].id));
    assert Tracks(u, s.entries[e].id, e);
  }

  lemma DestroyedAnswer(s: State, t: Tid)
    requires PcOf(s, t).DestroyUnlock? && CallOk(s, t, PcOf(s, t), SinceOf(s, t)) && HistoryOk(s)
    ensures EventOk(Return(s, t, Destroying(PcOf(s, t).id), Destroyed), |s.history|)
  {
    var id, e := PcOf(s, t).id, PcOf(s, t).e;
    var u := Return(s, t, Destroying(id), Destroyed);
    assert Tracks(u, id, e);
    ClosedStaysBefore(s, u.history, id);
    HistoryIsSinceOk(s);
    GoneBeforeOfPrefix(s.history, u.history, SinceOf(s, t), id);
    hide GoneBefore, ClosedBefore, HistoryOk;
  }

  lemma ClosedStaysBefore(s: State, h: seq<Event>, id: Id)
    requires s.history <= h
    ensures ClosedBefore(h, |s.history|, id) <==> ClosedBefore(s.history, |s.history|, id)
    ensures forall code :: ClosedWith(h, |s.history|, id, code) <==> ClosedWith(s.history, |s.history|, id, code)
  {
  }

  lemma MissedAnswer(s: State, t: Tid)
    requires HasMissed(PcOf(s, t)) && CallOk(s, t, PcOf(s, t), SinceOf(s, t))
    ensures
      var call := if PcOf(s, t).DestroyMissing? then Destroying(PcOf(s, t).id) else Asking(PcOf(s, t).id);
      EventOk(Return(s, t, call, NotFound), |s.history|)
  {
    var id := PcOf(s, t).id;
    var u := Return(s, t, if PcOf(s, t).DestroyMissing? then Destroying(id) else Asking(id), NotFound);
    CreatedBeforeOfPrefix(s.history, u.history, SinceOf(s, t), id);
    if Gone(s, id) {
      var e: nat :| Tracks(s, id, e);
      assert Tracks(u, id, e);
    }
    hide CreatedBefore;
  }

  lemma StoreStep(s: State, t: Tid)
    requires Inv(s) && PcOf(s, t).CreateStore? && CanAdvance(s, t)
    ensures Inv(SectionStep(s, t))
  {
    CallOf(s, t);
    var e := PcOf(s, t).e;
    var u, id := SectionStep(s, t), s.entries[e].id;
    assert s.mu == Some(t) by { assert InSection(PcOf(s, t)) <==> s.mu == Some(t); }
    assert !Known(s, id) by { hide MapOk, MutexOk, CallsOk, HistoryOk; }
    assert Evolves(s, u, t);
    assert EntriesOk(u) by { hide MapOk, MutexOk, CallsOk, HistoryOk; }
    StoredMap(s, t);
    MutexStep(s, u, t);
    hide EntriesOk, MapOk, MutexOk, HistoryOk, Known;
    CallerStep(s, u, t);
  }

  lemma StoredMap(s: State, t: Tid)
    requires EntriesOk(s) && MapOk(s) && PcOf(s, t).CreateStore? && CanAdvance(s, t)
    requires CallOk(s, t, PcOf(s, t), SinceOf(s, t))
    ensures MapOk(SectionStep(s, t))
  {
    var e, u := PcOf(s, t).e, SectionStep(s, t);
    hide InSection, HasFound;
    forall id | id in u.processes
      ensures Tracks(u, id, u.processes[id])
    {
      assert id != s.entries[e].id ==> Tracks(s, id, s.processes[id]);
    }
    forall f | 0 <= f < |u.entries| && !u.entries[f].stored
      ensures AboutToStore(PcOf(u, u.entries[f].creator), f)
    {
      assert f != e && AboutToStore(PcOf(s, s.entries[f].creator), f);
    }
  }

  lemma DeleteStep(s: State, t: Tid)
    requires Inv(s) && PcOf(s, t).DestroyDelete? && CanAdvance(s, t)
    ensures Inv(SectionStep(s, t))
  {
    CallOf(s, t);
    var u, id, e := SectionStep(s, t), PcOf(s, t).id, PcOf(s, t).e;
    assert s.mu == Some(t) by { assert InSection(PcOf(s, t)) <==> s.mu == Some(t); }
    assert Evolves(s, u, t);
    DeletedMap(s, t);
    MutexStep(s, u, t);
    hide EntriesOk, MapOk, MutexOk, HistoryOk, Known;
    CallerStep(s, u, t);
  }

  lemma DeletedMap(s: State, t: Tid)
    requires EntriesOk(s) && MapOk(s) && PcOf(s, t).DestroyDelete? && CanAdvance(s, t)
    requires CallOk(s, t, PcOf(s, t), SinceOf(s, t))
    ensures MapOk(SectionStep(s, t))
  {
    var u, id, e := SectionStep(s, t), PcOf(s, t).id, PcOf(s, t).e;
    hide InSection, HasFound;
    forall other | other in u.processes
      ensures Tracks(u, other, u.processes[other])
    {
      assert Tracks(s, other, s.processes[other]);
    }
    assert Tracks(s, id, e);
    assert forall f :: 0 <= f < |s.entries| && s.entries[f].id == id ==> f == e;
  }

  // Steps outside the mutex.

  lemma SelectedStep(s: State, t: Tid, killed: bool)
    requires Inv(s) && CanAdvance(s, t)
    requires PcOf(s, t).DestroyWait? || (PcOf(s, t).DestroySelect? && s.entries[PcOf(s, t).e].done)
             || (PcOf(s, t).DestroyKill? && !killed)
    ensures Inv(OutsideStep(s, t, killed))
  {
    CallOf(s, t);
    var pc, since := PcOf(s, t), SinceOf(s, t);
    assert s.mu != Some(t) by { assert InSection(PcOf(s, t)) <==> s.mu == Some(t); }
    var next := if pc.DestroyKill? then DestroySelect(pc.id, pc.e) else DestroyRelock(pc.id, pc.e);
    assert CallOk(s, t, next, since) by { hide Inv; }
    hide Inv, CallOk;
    QuietStep(s, t, next, since, s.mu);
  }

  lemma KillStep(s: State, t: Tid)
    requires Inv(s) && CanAdvance(s, t) && PcOf(s, t).DestroyKill?
    ensures Inv(OutsideStep(s, t, true))
  {
    CallOf(s, t);
    var u, e := OutsideStep(s, t, true), PcOf(s, t).e;
    assert s.mu != Some(t) by { assert InSection(PcOf(s, t)) <==> s.mu == Some(t); }
    assert Evolves(s, u, t) && EntriesOk(u);
    assert MapOk(u) by { hide InSection, HasFound, EntriesOk, MutexOk, CallsOk, HistoryOk; }
    MutexStep(s, u, t);
    hide EntriesOk, MapOk, MutexOk, HistoryOk, Known, InSection;
    CallerStep(s, u, t);
  }

  lemma RefusedStep(s: State, t: Tid, killed: bool)
    requires Inv(s) && CanAdvance(s, t) && PcOf(s, t).DestroySelect? && !s.entries[PcOf(s, t).e].done
    ensures Inv(OutsideStep(s, t, killed))
    ensures PcOf(s, t).id in s.processes && OutsideStep(s, t, killed).processes == s.processes
  {
    CallOf(s, t);
    var id, e := PcOf(s, t).id, PcOf(s, t).e;
    var u := Return(s, t, Destroying(id), RuntimeError);
    assert s.mu != Some(t) by { assert InSection(PcOf(s, t)) <==> s.mu == Some(t); }
    NotClosedYet(s, id, e);
    ClosedStaysBefore(s, u.history, id);
    HistoryIsSinceOk(s);
    GoneBeforeOfPrefix(s.history, u.history, SinceOf(s, t), id);
    assert EventOk(u, |s.history|) by { hide GoneBefore, ClosedBefore, Inv; }
    assert id in s.processes;
    hide Inv, CallOk, EventOk, GoneBefore, ClosedBefore;
    ReturnStep(s, t, Destroying(id), RuntimeError, s.mu);
  }

  lemma NotClosedYet(s: State, id: Id, e: nat)
    requires HistoryOk(s) && EntriesOk(s) && Tracks(s, id, e)
    ensures ClosedBefore(s.history, |s.history|, id) <==> s.entries[e].done
  {
    if ClosedBefore(s.history, |s.history|, id) {
      var i :| 0 <= i < |s.history| && s.history[i].Closed? && s.history[i].id == id;
      assert EventOk(s, i);
      var f: nat :| ClosedEntry(s, id, s.history[i].code, f);
      assert f == e;
    }
  }

  /** A closed entry's exit code is the one its closing showed; in particular `ProcessState` is set. */
  lemma ClosedWithState(s: State, id: Id, e: nat)
    requires HistoryOk(s) && EntriesOk(s) && Tracks(s, id, e) && s.entries[e].done
    ensures s.entries[e].state.Some? && ClosedWith(s.history, |s.history|, id, s.entries[e].state.value)
  {
    var i :| 0 <= i < |s.history| && s.history[i].Closed? && s.history[i].id == id;
    assert EventOk(s, i);
    var f: nat :| ClosedEntry(s, id, s.history[i].code, f);
    assert f == e;
    assert s.history[i] == Closed(id, s.entries[e].state.value);
  }

  lemma ObservedStep(s: State, t: Tid, killed: bool)
    requires Inv(s) && CanAdvance(s, t) && PcOf(s, t).StatusSelect?
    ensures Inv(OutsideStep(s, t, killed))
  {
    CallOf(s, t);
    var id, e := PcOf(s, t).id, PcOf(s, t).e;
    if s.entries[e].done {
      ClosedWithState(s, id, e);
    }
    var answer := if s.entries[e].done then HasExited(s.entries[e].state.value) else StillRunning;
    var u := Return(s, t, Asking(id), answer);
    assert s.mu != Some(t) by { assert InSection(PcOf(s, t)) <==> s.mu == Some(t); }
    NotClosedYet(s, id, e);
    ClosedStaysBefore(s, u.history, id);
    HistoryIsSinceOk(s);
    GoneBeforeOfPrefix(s.history, u.history, SinceOf(s, t), id);
    assert EventOk(u, |s.history|) by { hide GoneBefore, ClosedBefore, ClosedWith, Inv; }
    hide Inv, CallOk, EventOk, GoneBefore, ClosedBefore, ClosedWith;
    ReturnStep(s, t, Asking(id), answer, s.mu);
  }

  // Steps of the reapers and the system.

  ghost predicate EntriesMoved(s: State, u: State) {
    |u.entries| == |s.entries| && forall e :: 0 <= e < |s.entries| ==>
      EntryEvolves(s.entries[e], u.entries[e], 0) && u.entries[e].stored == s.entries[e].stored
  }

  lemma SystemStep(s: State, u: State)
    requires Inv(s) && EntriesMoved(s, u) && EntriesOk(u) && Grew(s, u) && s.history <= u.history
    requires u.processes == s.processes && u.threads == s.threads && u.mu == s.mu
    requires forall e :: 0 <= e < |u.entries| && u.entries[e].done ==>
               s.entries[e].done || ClosedBefore(u.history, |u.history|, u.entries[e].id)
    ensures Inv(u)
  {
    assert MapOk(u) by { hide MutexOk, CallsOk, HistoryOk, EntriesOk, Grew, ClosedBefore; }
    assert MutexOk(u) by {
      hide CallsOk, HistoryOk, EntriesOk, MapOk, Grew, EntriesMoved;
      forall t: Tid
        ensures InSection(PcOf(u, t)) <==> u.mu == Some(t)
      {
        assert InSection(PcOf(s, t)) <==> s.mu == Some(t);
      }
    }
    hide MapOk, MutexOk, EntriesOk;
    HistoryStaysOk(s, u, 0);
    hide HistoryOk, Grew, ClosedBefore;
    forall o | o in u.threads
      ensures CallOk(u, o, u.threads[o].pc, u.threads[o].since)
    {
      CallStaysOk(s, u, o + 1, o, s.threads[o].pc, s.threads[o].since);
    }
    hide CallOk;
  }

  lemma ExitStep(s: State, e: nat, code: int)
    requires Inv(s) && Enabled(s, Exit(e, code))
    ensures Inv(Apply(s, Exit(e, code)))
  {
    var u := Apply(s, Exit(e, code));
    assert EntriesMoved(s, u) && EntriesOk(u);
    hide Inv, EntriesOk, EntriesMoved;
    SystemStep(s, u);
  }

  lemma WaitReturnsStep(s: State, e: nat)
    requires Inv(s) && Enabled(s, WaitReturns(e))
    ensures Inv(Apply(s, WaitReturns(e)))
  {
    var u := Apply(s, WaitReturns(e));
    assert EntriesMoved(s, u) && EntriesOk(u);
    hide Inv, EntriesOk, EntriesMoved;
    SystemStep(s, u);
  }

  lemma CloseStep(s: State, e: nat)
    requires Inv(s) && Enabled(s, Close(e))
    ensures Inv(Apply(s, Close(e)))
  {
    var u, id := Apply(s, Close(e)), s.entries[e].id;
    assert EntriesMoved(s, u) && EntriesOk(u);
    assert ClosedEntry(u, id, s.entries[e].state.value, e);
    assert u.history[|s.history|].Closed? && u.history[|s.history|].id == id;
    assert EventOk(u, |s.history|);
    assert forall f :: 0 <= f < |u.entries| && u.entries[f].done ==> s.entries[f].done || f == e;
    hide Inv, EntriesOk, EntriesMoved, EventOk;
    SystemStep(s, u);
  }

  lemma FailCreateStep(s: State, t: Tid)
    requires Inv(s) && Enabled(s, FailCreate(t))
    ensures Inv(Apply(s, FailCreate(t)))
  {
    var u := Apply(s, FailCreate(t));
    assert EntriesMoved(s, u) && EntriesOk(u) && EventOk(u, |s.history|);
    hide Inv, EntriesOk, EntriesMoved, EventOk;
    SystemStep(s, u);
  }

  lemma CreateStep(s: State, t: Tid, id: Id)
    requires Inv(s) && Enabled(s, StartCreate(t, id))
    ensures Inv(Apply(s, StartCreate(t, id)))
  {
    var u := Apply(s, StartCreate(t, id));
    assert s.mu != Some(t) by { assert InSection(PcOf(s, t)) <==> s.mu == Some(t); }
    assert EntriesOk(u) && Evolves(s, u, t) by { hide MapOk, MutexOk, CallsOk, HistoryOk; }
    assert MapOk(u) by { StartedMap(s, t, id); }
    MutexStep(s, u, t);
    assert CallOk(u, t, CreateLock(|s.entries|), |s.history|);
    hide EntriesOk, MapOk, MutexOk, HistoryOk, CallsOk;
    CallerStep(s, u, t);
  }

  lemma StartedMap(s: State, t: Tid, id: Id)
    requires MapOk(s) && Enabled(s, StartCreate(t, id))
    ensures MapOk(Apply(s, StartCreate(t, id)))
  {
    var u := Apply(s, StartCreate(t, id));
    forall other | other in u.processes
      ensures Tracks(u, other, u.processes[other])
    {
      assert Tracks(s, other, s.processes[other]);
    }
    forall f | 0 <= f < |u.entries| && !u.entries[f].stored
      ensures AboutToStore(PcOf(u, u.entries[f].creator), f)
    {
      assert f < |s.entries| ==> AboutToStore(PcOf(s, s.entries[f].creator), f);
    }
  }

  // Every step.

  lemma SectionKeepsInv(s: State, t: Tid)
    requires Inv(s) && CanAdvance(s, t) && InSection(PcOf(s, t))
    ensures Inv(SectionStep(s, t))
  {
    hide Inv, SectionStep;
    match PcOf(s, t)
    case CreateStore(_) => StoreStep(s, t);
    case CreateUnlock(_) => AnswerStep(s, t);
    case DestroyLookup(_) => LookupStep(s, t);
    case DestroyMissing(_) => AnswerStep(s, t);
    case DestroyFound(_, _) => LeaveStep(s, t);
    case DestroyDelete(_, _) => DeleteStep(s, t);
    case DestroyUnlock(_, _) => AnswerStep(s, t);
    case StatusLookup(_) => LookupStep(s, t);
    case StatusUnlock(_, found) =>
      if found.Some? {
        LeaveStep(s, t);
      } else {
        AnswerStep(s, t);
      }
  }

  lemma OutsideKeepsInv(s: State, t: Tid, killed: bool)
    requires Inv(s) && CanAdvance(s, t) && !InSection(PcOf(s, t)) && !NeedsMutex(PcOf(s, t))
    ensures Inv(OutsideStep(s, t, killed))
  {
    hide Inv, OutsideStep;
    match PcOf(s, t)
    case DestroyKill(_, _) =>
      if killed {
        KillStep(s, t);
      } else {
        SelectedStep(s, t, killed);
      }
    case DestroySelect(_, e) =>
      if s.entries[e].done {
        SelectedStep(s, t, killed);
      } else {
        RefusedStep(s, t, killed);
      }
    case DestroyWait(_, _) => SelectedStep(s, t, killed);
    case StatusSelect(_, _) => ObservedStep(s, t, killed);
  }

  /** Every step of every caller, reaper and process keeps the invariant. */
  lemma StepKeepsInv(s: State, l: Label)
    requires Inv(s) && Enabled(s, l)
    ensures Inv(Apply(s, l))
  {
    hide Inv, SectionStep, OutsideStep;
    match l
    case StartCreate(t, id) => CreateStep(s, t, id);
    case FailCreate(t) => FailCreateStep(s, t);
    case StartDestroy(t, id) => BeginStep(s, t, DestroyLock(id));
    case StartStatus(t, id) => BeginStep(s, t, StatusLock(id));
    case Advance(t, killed) =>
      if NeedsMutex(PcOf(s, t)) {
        AcquireStep(s, t);
      } else if InSection(PcOf(s, t)) {
        SectionKeepsInv(s, t);
      } else {
        OutsideKeepsInv(s, t, killed);
      }
    case Exit(e, code) => ExitStep(s, e, code);
    case WaitReturns(e) => WaitReturnsStep(s, e);
    case Close(e) => CloseStep(s, e);
  }
}
