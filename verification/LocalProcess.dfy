/**
 * The LocalProcess runtime as atomic steps of any number of callers, one reaper per process, and the
 * operating system. A caller's step is one access to shared state: taking or releasing the mutex,
 * one use of the map, one Kill, or one look at a `done` channel.
 */
module LocalProcess {
  import opened Prelude

  /** Kernel identifiers; only their equality matters. */
  type Id = nat

  type Tid = nat

  datatype Reaper = InWait | BeforeClose | Finished

  /**
   * A started child and its `processEntry`. `exit` is what the operating system knows, `state` is
   * `cmd.ProcessState`, `done` tells whether the channel is closed. `creator` is the caller that
   * started it, `stored` whether that caller has put it into the map yet.
   */
  datatype Entry = Entry(
    id: Id, exit: Option<int>, killed: bool, reaper: Reaper, state: Option<int>, done: bool, creator: Tid, stored: bool)

  datatype Pc =
    | Idle
    | CreateLock(e: nat) | CreateStore(e: nat) | CreateUnlock(e: nat)
    | DestroyLock(id: Id) | DestroyLookup(id: Id) | DestroyMissing(id: Id)
    | DestroyFound(id: Id, e: nat) | DestroyKill(id: Id, e: nat) | DestroySelect(id: Id, e: nat) | DestroyWait(id: Id, e: nat)
    | DestroyRelock(id: Id, e: nat) | DestroyDelete(id: Id, e: nat) | DestroyUnlock(id: Id, e: nat)
    | StatusLock(id: Id) | StatusLookup(id: Id) | StatusUnlock(id: Id, found: Option<nat>) | StatusSelect(id: Id, e: nat)

  /** `since` is the length of the history when the call was made. */
  datatype Thread = Thread(pc: Pc, since: nat)

  datatype Call = Creating | Destroying(id: Id) | Asking(id: Id)

  datatype Answer =
    | Created(id: Id) | CreateFailed | Destroyed | NotFound | RuntimeError | StillRunning | HasExited(code: int)
    | UnsetState

  /** What an observer sees: channels closed by reapers and calls that returned. */
  datatype Event = Closed(id: Id, code: int) | Returned(call: Call, since: nat, answer: Answer)

  datatype State = State(
    entries: seq<Entry>, processes: map<Id, nat>, mu: Option<Tid>, threads: map<Tid, Thread>, history: seq<Event>)

  datatype Label =
    | StartCreate(t: Tid, id: Id)
    | FailCreate(t: Tid)
    | StartDestroy(t: Tid, id: Id)
    | StartStatus(t: Tid, id: Id)
    | Advance(t: Tid, killed: bool)
    | Exit(e: nat, code: int)
    | WaitReturns(e: nat)
    | Close(e: nat)

  function PcOf(s: State, t: Tid): Pc {
    if t in s.threads then s.threads[t].pc else Idle
  }

  function SinceOf(s: State, t: Tid): nat {
    if t in s.threads then s.threads[t].since else 0
  }

  predicate NeedsMutex(pc: Pc) { pc.CreateLock? || pc.DestroyLock? || pc.DestroyRelock? || pc.StatusLock? }

  /** Between Lock and Unlock. */
  predicate InSection(pc: Pc) {
    pc.CreateStore? || pc.CreateUnlock? || pc.DestroyLookup? || pc.DestroyMissing? || pc.DestroyFound?
    || pc.DestroyDelete? || pc.DestroyUnlock? || pc.StatusLookup? || pc.StatusUnlock?
  }

  /** The entry a program counter refers to. */
  predicate Refers(pc: Pc) {
    pc.CreateLock? || pc.CreateStore? || pc.CreateUnlock? || HasFound(pc)
  }

  /** A Destroy or Status that has found its entry in the map. */
  predicate HasFound(pc: Pc) {
    pc.DestroyFound? || pc.DestroyKill? || pc.DestroySelect? || pc.DestroyWait? || pc.DestroyRelock?
    || pc.DestroyDelete? || pc.DestroyUnlock? || (pc.StatusUnlock? && pc.found.Some?) || pc.StatusSelect?
  }

  function EntryOf(pc: Pc): nat
    requires Refers(pc)
  {
    if pc.StatusUnlock? then pc.found.value else pc.e
  }

  /** A Destroy or Status that found nothing and has not returned yet. */
  predicate HasMissed(pc: Pc) {
    pc.DestroyMissing? || (pc.StatusUnlock? && pc.found.None?)
  }

  predicate Enabled(s: State, l: Label) {
    match l
    case StartCreate(t, id) => PcOf(s, t).Idle? && forall e :: 0 <= e < |s.entries| ==> s.entries[e].id != id
    case FailCreate(t) => PcOf(s, t).Idle?
    case StartDestroy(t, _) => PcOf(s, t).Idle?
    case StartStatus(t, _) => PcOf(s, t).Idle?
    case Advance(t, _) => CanAdvance(s, t)
    case Exit(e, _) => e < |s.entries| && s.entries[e].exit.None?
    case WaitReturns(e) => e < |s.entries| && s.entries[e].exit.Some? && s.entries[e].reaper.InWait?
    case Close(e) => e < |s.entries| && s.entries[e].reaper.BeforeClose?
  }

  predicate CanAdvance(s: State, t: Tid) {
    var pc := PcOf(s, t);
    && !pc.Idle? && (NeedsMutex(pc) ==> s.mu.None?) && (Refers(pc) ==> EntryOf(pc) < |s.entries|)
    && (pc.DestroyWait? ==> s.entries[pc.e].done)
  }

  // The effects.

  function Goto(s: State, t: Tid, pc: Pc): State {
    s.(threads := s.threads[t := Thread(pc, SinceOf(s, t))])
  }

  function Log(s: State, event: Event): State {
    s.(history := s.history + [event])
  }

  function Return(s: State, t: Tid, call: Call, answer: Answer): State {
    Log(Goto(s, t, Idle), Returned(call, SinceOf(s, t), answer))
  }

  function Acquire(s: State, t: Tid, pc: Pc): State { Goto(s, t, pc).(mu := Some(t)) }

  function Release(s: State, t: Tid, pc: Pc): State { Goto(s, t, pc).(mu := None) }

  function SetEntry(s: State, e: nat, entry: Entry): State
    requires e < |s.entries|
  {
    s.(entries := s.entries[e := entry])
  }

  function AfterLock(pc: Pc): Pc
    requires NeedsMutex(pc)
  {
    match pc
    case CreateLock(e) => CreateStore(e)
    case DestroyLock(id) => DestroyLookup(id)
    case DestroyRelock(id, e) => DestroyDelete(id, e)
    case StatusLock(id) => StatusLookup(id)
  }

  function Find(s: State, id: Id): Option<nat> {
    if id in s.processes then Some(s.processes[id]) else None
  }

  /** A step inside the critical section. */
  function SectionStep(s: State, t: Tid): State
    requires InSection(PcOf(s, t)) && CanAdvance(s, t)
  {
    match PcOf(s, t)
    case CreateStore(e) =>
      var entry := s.entries[e];
      Goto(SetEntry(s, e, entry.(stored := true)), t, CreateUnlock(e)).(processes := s.processes[entry.id := e])
    case CreateUnlock(e) => Return(s, t, Creating, Created(s.entries[e].id)).(mu := None)
    case DestroyLookup(id) =>
      Goto(s, t, match Find(s, id) case Some(e) => DestroyFound(id, e) case None => DestroyMissing(id))
    case DestroyMissing(id) => Return(s, t, Destroying(id), NotFound).(mu := None)
    case DestroyFound(id, e) => Release(s, t, DestroyKill(id, e))
    case DestroyDelete(id, e) => Goto(s, t, DestroyUnlock(id, e)).(processes := s.processes - {id})
    case DestroyUnlock(id, _) => Return(s, t, Destroying(id), Destroyed).(mu := None)
    case StatusLookup(id) => Goto(s, t, StatusUnlock(id, Find(s, id)))
    case StatusUnlock(id, found) =>
      if found.Some? then Release(s, t, StatusSelect(id, found.value)) else Return(s, t, Asking(id), NotFound).(mu := None)
  }

  /** A step that neither needs nor holds the mutex. `killed` tells whether Kill succeeds. */
  function OutsideStep(s: State, t: Tid, killed: bool): State
    requires CanAdvance(s, t) && !InSection(PcOf(s, t)) && !NeedsMutex(PcOf(s, t))
  {
    match PcOf(s, t)
    case DestroyKill(id, e) =>
      if killed then Goto(SetEntry(s, e, s.entries[e].(killed := true)), t, DestroyWait(id, e))
      else Goto(s, t, DestroySelect(id, e))
    case DestroySelect(id, e) =>
      if s.entries[e].done then Goto(s, t, DestroyRelock(id, e)) else Return(s, t, Destroying(id), RuntimeError)
    case DestroyWait(id, e) => Goto(s, t, DestroyRelock(id, e))
    case StatusSelect(id, e) =>
      Return(s, t, Asking(id),
             if !s.entries[e].done then StillRunning
             else match s.entries[e].state case Some(code) => HasExited(code) case None => UnsetState)
  }

  function Moved(s: State, t: Tid, killed: bool): State
    requires CanAdvance(s, t)
  {
    var pc := PcOf(s, t);
    if NeedsMutex(pc) then Acquire(s, t, AfterLock(pc))
    else if InSection(pc) then SectionStep(s, t)
    else OutsideStep(s, t, killed)
  }

  function Begin(s: State, t: Tid, pc: Pc): State {
    s.(threads := s.threads[t := Thread(pc, |s.history|)])
  }

  function Apply(s: State, l: Label): State
    requires Enabled(s, l)
  {
    match l
    case StartCreate(t, id) =>
      Begin(s, t, CreateLock(|s.entries|)).(entries := s.entries + [Entry(id, None, false, InWait, None, false, t, false)])
    case FailCreate(t) => Log(s, Returned(Creating, |s.history|, CreateFailed))
    case StartDestroy(t, id) => Begin(s, t, DestroyLock(id))
    case StartStatus(t, id) => Begin(s, t, StatusLock(id))
    case Advance(t, killed) => Moved(s, t, killed)
    case Exit(e, code) => SetEntry(s, e, s.entries[e].(exit := Some(code)))
    case WaitReturns(e) => SetEntry(s, e, s.entries[e].(reaper := BeforeClose, state := s.entries[e].exit))
    case Close(e) =>
      var entry := s.entries[e];
      Log(SetEntry(s, e, entry.(reaper := Finished, done := true)),
          Closed(entry.id, if entry.state.Some? then entry.state.value else 0))
  }

  // What the history shows.

  ghost predicate CreatedBefore(h: seq<Event>, p: nat, id: Id) {
    exists k :: 0 <= k < p && k < |h| && h[k].Returned? && h[k].answer == Created(id)
  }

  /** A successful Destroy, or a call made after Create returned that found nothing. */
  ghost predicate ShowsGone(h: seq<Event>, i: nat, id: Id)
    requires i < |h|
  {
    h[i].Returned? && !h[i].call.Creating? && h[i].call.id == id
    && (h[i].answer.Destroyed? || (h[i].answer.NotFound? && CreatedBefore(h, h[i].since, id)))
  }

  ghost predicate GoneBefore(h: seq<Event>, p: nat, id: Id) {
    exists i :: 0 <= i < p && i < |h| && ShowsGone(h, i, id)
  }

  ghost predicate ClosedBefore(h: seq<Event>, p: nat, id: Id) {
    exists i :: 0 <= i < p && i < |h| && h[i].Closed? && h[i].id == id
  }

  ghost predicate ClosedWith(h: seq<Event>, p: nat, id: Id, code: int) {
    exists i :: 0 <= i < p && i < |h| && h[i] == Closed(id, code)
  }

  predicate FoundSomething(answer: Answer) {
    answer.Destroyed? || answer.RuntimeError? || answer.StillRunning? || answer.HasExited?
  }

  /** The answers each operation can give. */
  predicate Fits(call: Call, answer: Answer) {
    match call
    case Creating => answer.Created? || answer.CreateFailed?
    case Destroying(_) => answer.Destroyed? || answer.NotFound? || answer.RuntimeError?
    case Asking(_) => answer.StillRunning? || answer.HasExited? || answer.NotFound?
  }

  /** The answer at position `j` is right for the history before it. */
  ghost predicate Justified(h: seq<Event>, j: nat)
    requires j < |h|
  {
    h[j].Returned? ==>
      && h[j].since <= j
      && Fits(h[j].call, h[j].answer)
      && (!h[j].call.Creating? ==>
            && (h[j].answer.StillRunning? || h[j].answer.RuntimeError? ==> !ClosedBefore(h, j, h[j].call.id))
            && (h[j].answer.HasExited? ==> ClosedWith(h, j, h[j].call.id, h[j].answer.code))
            && (h[j].answer.Destroyed? ==> ClosedBefore(h, j, h[j].call.id))
            && (FoundSomething(h[j].answer) ==> !GoneBefore(h, h[j].since, h[j].call.id)))
  }
}
