/**
 * Engine and dispatcher with any number of threads, interleaved between lock operations, requests and
 * single field writes. Both locks are Go RWMutexes: a waiting writer keeps new readers out.
 */
module LockProtocol {
  import opened Wrappers

  type Tid = nat
  type Ref = nat   // a pointer to a task or to a run

  datatype Task = Task(id: string, runId: string, workflowId: string, status: string)
  datatype Run = Run(status: string, conclusion: string)

  datatype Which = EngineLock | DispatcherLock
  datatype Mode = Shared | Exclusive
  datatype Lock = Lock(readers: set<Tid>, writer: Option<Tid>, pending: Option<Tid>)

  /** Where a thread is. "Wait" points ask for a lock, "In" points are inside a section; each In point runs to the unlock. */
  datatype Pc =
    | Finished
    // Execute: request, file the run, publish the task
    | Posting
    | FileWait(id: string)
    | FileIn(id: string)
    | PublishWait(task: Ref)
    | PublishIn(task: Ref)
    // PollStatus, and GetRunStatus on its own (no task)
    | PollWait(id: string)
    | PollIn(id: string)
    | LookWait(polled: Option<Ref>, runId: string)
    | LookIn(polled: Option<Ref>, runId: string)
    | Missed(polled: Option<Ref>)
    | Asking(polled: Option<Ref>, run: Ref)
    | WriteStatus(polled: Option<Ref>, run: Ref, status: string, conclusion: string)
    | WriteConclusion(polled: Option<Ref>, run: Ref, status: string, conclusion: string)
    | Mapping(polled: Option<Ref>, run: Ref, status: string, conclusion: string)
    | Telling(polled: Option<Ref>, run: Ref)
    // Cancel, and CancelRun on its own (not nested)
    | CancelWait(id: string)
    | CancelIn(id: string)
    | Withdrawing(runId: string, nested: bool)
    | MarkWait(runId: string, nested: bool)
    | MarkIn(runId: string, nested: bool)
    | CancelLeave
    // handleBlocking, one task per step
    | BlockWait
    | BlockIn
    // sections that leave the two maps alone: status, history, run listing
    | EngineReadWait
    | EngineReadIn
    | EngineWriteWait
    | EngineWriteIn
    | DispatcherReadWait
    | DispatcherReadIn

  /** The lock a thread is asking for. */
  function Needs(pc: Pc): Option<(Which, Mode)> {
    match pc
    case FileWait(_) => Some((DispatcherLock, Exclusive))
    case PublishWait(_) => Some((EngineLock, Exclusive))
    case PollWait(_) => Some((EngineLock, Shared))
    case LookWait(_, _) => Some((DispatcherLock, Shared))
    case CancelWait(_) => Some((EngineLock, Exclusive))
    case MarkWait(_, _) => Some((DispatcherLock, Exclusive))
    case BlockWait => Some((EngineLock, Exclusive))
    case EngineReadWait => Some((EngineLock, Shared))
    case EngineWriteWait => Some((EngineLock, Exclusive))
    case DispatcherReadWait => Some((DispatcherLock, Shared))
    case _ => None
  }

  /** The mode in which a thread holds a lock. */
  function Holds(pc: Pc, which: Which): Option<Mode> {
    match which
    case EngineLock =>
      if pc.PublishIn? || pc.CancelIn? || pc.CancelLeave? || pc.BlockIn? || pc.EngineWriteIn? then Some(Exclusive)
      else if (pc.Withdrawing? || pc.MarkWait? || pc.MarkIn?) && pc.nested then Some(Exclusive)
      else if pc.PollIn? || pc.EngineReadIn? then Some(Shared)
      else None
    case DispatcherLock =>
      if pc.FileIn? || pc.MarkIn? then Some(Exclusive)
      else if pc.LookIn? || pc.DispatcherReadIn? then Some(Shared)
      else None
  }

  /** The point reached once the lock asked for is obtained. */
  function Entered(pc: Pc): Pc
    requires Needs(pc).Some?
  {
    match pc
    case FileWait(id) => FileIn(id)
    case PublishWait(task) => PublishIn(task)
    case PollWait(id) => PollIn(id)
    case LookWait(polled, runId) => LookIn(polled, runId)
    case CancelWait(id) => CancelIn(id)
    case MarkWait(runId, nested) => MarkIn(runId, nested)
    case BlockWait => BlockIn
    case EngineReadWait => EngineReadIn
    case EngineWriteWait => EngineWriteIn
    case DispatcherReadWait => DispatcherReadIn
  }

  /** Where an operation begins. */
  predicate Beginning(pc: Pc) {
    || pc.Posting? || pc.PollWait? || (pc.LookWait? && pc.polled.None?)
    || pc.CancelWait? || (pc.Withdrawing? && !pc.nested) || pc.BlockWait?
    || pc.EngineReadWait? || pc.EngineWriteWait? || pc.DispatcherReadWait?
  }

  datatype State = State(
    active: map<string, Ref>, tasks: seq<Task>, runs: map<string, Ref>, cells: seq<Run>,
    engine: Lock, dispatcher: Lock, pcs: map<Tid, Pc>,
    published: set<Ref>,   // history: every task ever put into active
    asks: bool)            // configuration: whether there is a token and a status request can be built

  const FREE := Lock({}, None, None)

  function Start(asks: bool): State {
    State(map[], [], map[], [], FREE, FREE, map[], {}, asks)
  }

  function Of(s: State, which: Which): Lock {
    match which
    case EngineLock => s.engine
    case DispatcherLock => s.dispatcher
  }

  function With(s: State, which: Which, l: Lock): State {
    match which
    case EngineLock => s.(engine := l)
    case DispatcherLock => s.(dispatcher := l)
  }

  function At(s: State, t: Tid): Pc {
    if t in s.pcs then s.pcs[t] else Finished
  }

  // ---------- steps ----------

  function Released(l: Lock, t: Tid, before: Option<Mode>, after: Option<Mode>): Lock {
    if before == after then l
    else l.(readers := l.readers - {t}, writer := if l.writer == Some(t) then None else l.writer)
  }

  /** Move thread t on to `pc`, unlocking what it no longer holds there. */
  function Goto(s: State, t: Tid, pc: Pc): State {
    s.(pcs := s.pcs[t := pc],
       engine := Released(s.engine, t, Holds(At(s, t), EngineLock), Holds(pc, EngineLock)),
       dispatcher := Released(s.dispatcher, t, Holds(At(s, t), DispatcherLock), Holds(pc, DispatcherLock)))
  }

  /** What the environment decides: request outcomes, and which task a range over the map yields. */
  datatype Choice = Choice(ok: bool, id: string, status: string, conclusion: string)

  function Tell(s: State, polled: Option<Ref>, status: string): State {
    if polled.Some? && polled.value < |s.tasks|
    then s.(tasks := s.tasks[polled.value := s.tasks[polled.value].(status := status)])
    else s
  }

  function Set(s: State, run: Ref, cell: Run): State {
    if run < |s.cells| then s.(cells := s.cells[run := cell]) else s
  }

  function Cell(s: State, run: Ref): Run {
    if run < |s.cells| then s.cells[run] else Run("", "")
  }

  /** What a point that asks for no lock writes. References are always in bounds; see References below. */
  function Written(s: State, pc: Pc, c: Choice): (r: State)
    ensures r.engine == s.engine && r.dispatcher == s.dispatcher && r.pcs == s.pcs
  {
    match pc
    case FileIn(id) =>  // file the run; the task is built right after the unlock
      s.(runs := s.runs[id := |s.cells|], cells := s.cells + [Run("queued", "")],
         tasks := s.tasks + [Task(id, id, id, "dispatched")])
    case PublishIn(task) =>
      if task < |s.tasks| then s.(active := s.active[s.tasks[task].id := task], published := s.published + {task}) else s
    case Missed(polled) => Tell(s, polled, "not_found")
    case WriteStatus(_, run, status, _) => Set(s, run, Cell(s, run).(status := status))
    case WriteConclusion(_, run, _, conclusion) => Set(s, run, Cell(s, run).(conclusion := conclusion))
    case Mapping(_, run, status, conclusion) =>
      if status == "completed"
      then Set(s, run, Cell(s, run).(status := if conclusion == "success" then "completed" else "failed")) else s
    case Telling(polled, run) => Tell(s, polled, Cell(s, run).status)
    case CancelIn(id) => if id in s.active then Tell(s, Some(s.active[id]), "cancelled") else s
    case MarkIn(runId, _) =>
      if runId in s.runs then Set(s, s.runs[runId], Cell(s, s.runs[runId]).(status := "cancelled")) else s
    case BlockIn =>
      if c.id in s.active then Tell(s, Some(s.active[c.id]), "cancelled").(active := s.active - {c.id}) else s
    case _ => s
  }

  /** Where it goes next, unlocking on the way what is not held there. */
  function After(s: State, pc: Pc, c: Choice): Pc {
    match pc
    case Posting => if c.ok then FileWait(c.id) else Finished
    case FileIn(id) => PublishWait(|s.tasks|)
    case PollIn(id) =>
      if id in s.active && s.active[id] < |s.tasks| then LookWait(Some(s.active[id]), s.tasks[s.active[id]].runId)
      else Finished
    case LookIn(polled, runId) => if runId in s.runs then Asking(polled, s.runs[runId]) else Missed(polled)
    case Asking(polled, run) => if c.ok && s.asks then WriteStatus(polled, run, c.status, c.conclusion) else Telling(polled, run)
    case WriteStatus(polled, run, status, conclusion) => WriteConclusion(polled, run, status, conclusion)
    case WriteConclusion(polled, run, status, conclusion) => Mapping(polled, run, status, conclusion)
    case Mapping(polled, run, _, _) => Telling(polled, run)
    case CancelIn(id) =>
      if id !in s.active || s.active[id] >= |s.tasks| then Finished
      else if s.tasks[s.active[id]].runId != "" then Withdrawing(s.tasks[s.active[id]].runId, true)
      else CancelLeave
    case Withdrawing(runId, nested) =>
      if c.ok then MarkWait(runId, nested) else if nested then CancelLeave else Finished
    case MarkIn(_, nested) => if nested then CancelLeave else Finished
    case BlockIn => if c.id in s.active then BlockIn else Finished
    case _ => Finished
  }

  function Act(s: State, t: Tid, c: Choice): State {
    Goto(Written(s, At(s, t), c), t, After(s, At(s, t), c))
  }

  /** A range over a non-empty map yields one of its keys. */
  predicate Sensible(s: State, t: Tid, c: Choice) {
    At(s, t).BlockIn? && s.active != map[] ==> c.id in s.active
  }

  predicate Enabled(s: State, t: Tid, c: Choice) {
    var pc := At(s, t);
    if pc.Finished? then false
    else
      match Needs(pc)
      case None => Sensible(s, t, c)
      case Some((which, mode)) =>
        var l := Of(s, which);
        || (l.writer.None? && l.pending.None?)
        || (mode.Exclusive? && l.pending == Some(t) && l.readers == {})
  }

  /** One step of thread t: take or announce the lock it asks for, or act. */
  function Step(s: State, t: Tid, c: Choice): State
    requires Enabled(s, t, c)
  {
    match Needs(At(s, t))
    case None => Act(s, t, c)
    case Some((which, mode)) =>
      var l := Of(s, which);
      if mode.Shared? then
        With(s, which, l.(readers := l.readers + {t})).(pcs := s.pcs[t := Entered(s.pcs[t])])
      else if l.pending == Some(t) then
        With(s, which, l.(writer := Some(t), pending := None)).(pcs := s.pcs[t := Entered(s.pcs[t])])
      else
        With(s, which, l.(pending := Some(t)))
  }

  /** Any thread that is idle, or new, may begin any operation. */
  ghost predicate Next(s: State, s': State) {
    || (exists t: Tid, pc | At(s, t).Finished? && Beginning(pc) :: s' == s.(pcs := s.pcs[t := pc]))
    || (exists t: Tid, c | Enabled(s, t, c) :: s' == Step(s, t, c))
  }

  ghost predicate NextAt(states: seq<State>, i: nat)
    requires i + 1 < |states|
  {
    Next(states[i], states[i + 1])
  }

  ghost predicate Chain(states: seq<State>) {
    |states| > 0 && forall i: nat | i + 1 < |states| :: NextAt(states, i)
  }

  ghost predicate Path(states: seq<State>) {
    Chain(states) && states[0] == Start(states[0].asks)
  }

  lemma {:induction false} ChainStep(states: seq<State>, i: nat, j: nat)
    requires Chain(states) && j == i + 1 < |states|
    ensures Next(states[i], states[j])
  {
    assert NextAt(states, i);
  }

  // ---------- locks ----------

  /** The lock order: whoever asks for the engine lock holds nothing, and nobody asks for a lock while holding the dispatcher lock. */
  lemma LockOrder(pc: Pc)
    requires Needs(pc).Some?
    ensures Holds(pc, DispatcherLock).None?
    ensures Needs(pc).value.0 == EngineLock ==> Holds(pc, EngineLock).None?
  {
  }

  ghost predicate LockAgrees(s: State, which: Which) {
    var l := Of(s, which);
    && (forall t: Tid :: t in l.readers <==> Holds(At(s, t), which) == Some(Shared))
    && (forall t: Tid :: l.writer == Some(t) <==> Holds(At(s, t), which) == Some(Exclusive))
    && (l.writer.Some? ==> l.readers == {} && l.pending.None?)
    && (l.pending.Some? ==> Needs(At(s, l.pending.value)) == Some((which, Exclusive)))
  }

  ghost predicate LocksAgree(s: State) {
    LockAgrees(s, EngineLock) && LockAgrees(s, DispatcherLock)
  }

  lemma {:induction false} GotoKeepsLock(s: State, t: Tid, pc: Pc, which: Which)
    requires LockAgrees(s, which) && Needs(At(s, t)).None?
    requires Holds(pc, which) == Holds(At(s, t), which) || Holds(pc, which).None?
    ensures LockAgrees(Goto(s, t, pc), which)
  {
    var s' := Goto(s, t, pc);
    assert At(s', t) == pc;
    assert forall u: Tid | u != t :: At(s', u) == At(s, u);
  }

  lemma EnteredHolds(pc: Pc, which: Which)
    requires Needs(pc).Some?
    ensures Needs(Entered(pc)).None?
    ensures Holds(Entered(pc), which)
         == if Needs(pc).value.0 == which then Some(Needs(pc).value.1) else Holds(pc, which)
  {
  }

  lemma {:induction false} StepKeepsOtherLock(s: State, t: Tid, c: Choice, which: Which)
    requires LockAgrees(s, which) && Enabled(s, t, c)
    requires Needs(At(s, t)).Some? && Needs(At(s, t)).value.0 != which
    ensures LockAgrees(Step(s, t, c), which)
  {
    EnteredHolds(At(s, t), which);
    var s' := Step(s, t, c);
    assert Of(s', which) == Of(s, which);
    assert forall u: Tid | u != t :: At(s', u) == At(s, u);
  }

  lemma {:induction false} StepKeepsItsLock(s: State, t: Tid, c: Choice, which: Which)
    requires LockAgrees(s, which) && Enabled(s, t, c)
    requires Needs(At(s, t)).Some? && Needs(At(s, t)).value.0 == which
    ensures LockAgrees(Step(s, t, c), which)
  {
    EnteredHolds(At(s, t), which);
    LockOrder(At(s, t));
    var s' := Step(s, t, c);
    assert forall u: Tid | u != t :: At(s', u) == At(s, u);
  }

  lemma {:induction false} AcquireKeepsLocks(s: State, t: Tid, c: Choice)
    requires LocksAgree(s) && Enabled(s, t, c) && Needs(At(s, t)).Some?
    ensures LocksAgree(Step(s, t, c))
  {
    if Needs(At(s, t)).value.0 == EngineLock {
      StepKeepsItsLock(s, t, c, EngineLock);
      StepKeepsOtherLock(s, t, c, DispatcherLock);
    } else {
      StepKeepsItsLock(s, t, c, DispatcherLock);
      StepKeepsOtherLock(s, t, c, EngineLock);
    }
  }

  /** A point that acts keeps or gives up each lock it holds, and never gains one. */
  lemma AfterGainsNoLock(s: State, pc: Pc, c: Choice, which: Which)
    requires Needs(pc).None?
    ensures Holds(After(s, pc, c), which) == Holds(pc, which) || Holds(After(s, pc, c), which).None?
  {
  }

  lemma {:induction false} StepKeepsLocks(s: State, t: Tid, c: Choice)
    requires LocksAgree(s) && Enabled(s, t, c)
    ensures LocksAgree(Step(s, t, c))
  {
    var pc := At(s, t);
    if Needs(pc).Some? {
      AcquireKeepsLocks(s, t, c);
    } else {
      var w := Written(s, pc, c);
      forall which
        ensures LockAgrees(Goto(w, t, After(s, pc, c)), which)
      {
        AfterGainsNoLock(s, pc, c, which);
        WriteKeepsLock(s, w, which);
        GotoKeepsLock(w, t, After(s, pc, c), which);
      }
    }
  }

  lemma WriteKeepsLock(s: State, w: State, which: Which)
    requires LockAgrees(s, which)
    requires w.engine == s.engine && w.dispatcher == s.dispatcher && w.pcs == s.pcs
    ensures LockAgrees(w, which)
  {
    assert forall u: Tid :: At(w, u) == At(s, u);
  }

  lemma {:induction false} BeginKeepsLock(s: State, t: Tid, pc: Pc, which: Which)
    requires LockAgrees(s, which) && At(s, t).Finished? && Beginning(pc)
    ensures LockAgrees(s.(pcs := s.pcs[t := pc]), which)
  {
    var s' := s.(pcs := s.pcs[t := pc]);
    assert forall u: Tid | u != t :: At(s', u) == At(s, u);
  }

  lemma {:induction false} NextKeepsLocks(s: State, s': State)
    requires LocksAgree(s) && Next(s, s')
    ensures LocksAgree(s')
  {
    if t: Tid, pc :| At(s, t).Finished? && Beginning(pc) && s' == s.(pcs := s.pcs[t := pc]) {
      BeginKeepsLock(s, t, pc, EngineLock);
      BeginKeepsLock(s, t, pc, DispatcherLock);
    } else {
      var t: Tid, c :| Enabled(s, t, c) && s' == Step(s, t, c);
      StepKeepsLocks(s, t, c);
    }
  }

  lemma {:induction false} StartLocks(asks: bool)
    ensures LocksAgree(Start(asks))
  {
  }

  lemma {:induction false} PathKeepsLocks(states: seq<State>, i: nat, j: nat)
    requires Chain(states) && j == i + 1 < |states| && LocksAgree(states[i])
    ensures LocksAgree(states[j])
  {
    ChainStep(states, i, j);
    NextKeepsLocks(states[i], states[j]);
  }

  /** In every reachable state each lock is held exactly as the threads' positions say, by one writer or by readers. */
  lemma {:induction false} LocksAlwaysAgree(states: seq<State>, i: nat)
    requires Path(states) && i < |states|
    ensures LocksAgree(states[i])
  {
    if i == 0 {
      StartLocks(states[0].asks);
    } else {
      LocksAlwaysAgree(states, i - 1);
      PathKeepsLocks(states, i - 1, i);
    }
  }

  /** Readers wait for a writer, also for one that is only waiting; a writer waits for readers. */
  lemma {:induction false} WhoWaits(s: State, t: Tid, c: Choice, which: Which, mode: Mode)
    requires LocksAgree(s) && Needs(At(s, t)) == Some((which, mode)) && Enabled(s, t, c)
    ensures Of(s, which).writer.None?
    ensures mode == Shared ==> Of(s, which).pending.None? && t in Of(Step(s, t, c), which).readers
    ensures Of(Step(s, t, c), which).writer == Some(t) ==> Of(s, which).readers == {} && Of(s, which).pending == Some(t)
    ensures Of(s, which).pending in {None, Some(t)}
  {
    assert LockAgrees(s, which);
  }

  // ---------- no deadlock ----------

  ghost predicate CanStep(s: State, t: Tid) {
    exists c :: Enabled(s, t, c)
  }

  lemma ActorCanStep(s: State, t: Tid)
    requires !At(s, t).Finished? && Needs(At(s, t)).None?
    ensures CanStep(s, t)
  {
    var c := Choice(true, "", "", "");
    if s.active != map[] {
      var id :| id in s.active;
      c := c.(id := id);
    }
    assert Enabled(s, t, c);
  }

  lemma WaiterCanStep(s: State, t: Tid)
    requires Needs(At(s, t)).Some?
    requires var l := Of(s, Needs(At(s, t)).value.0);
             (l.writer.None? && l.pending.None?) || (Needs(At(s, t)).value.1.Exclusive? && l.pending == Some(t) && l.readers == {})
    ensures CanStep(s, t)
  {
    assert Enabled(s, t, Choice(true, "", "", ""));
  }

  /** Some thread gets on if the dispatcher lock is held or announced. */
  lemma DispatcherLockMoves(s: State) returns (t: Tid)
    requires LocksAgree(s) && s.dispatcher != FREE
    ensures CanStep(s, t)
  {
    var l := s.dispatcher;
    if l.writer.Some? {
      t := l.writer.value;
      ActorCanStep(s, t);
    } else if l.readers != {} {
      t :| t in l.readers;
      ActorCanStep(s, t);
    } else {
      t := l.pending.value;
      WaiterCanStep(s, t);
    }
  }

  /** With the dispatcher lock free, some thread gets on if the engine lock is held or announced. */
  lemma EngineLockMoves(s: State) returns (t: Tid)
    requires LocksAgree(s) && s.dispatcher == FREE && s.engine != FREE
    ensures CanStep(s, t)
  {
    var l := s.engine;
    if l.writer.Some? || l.readers != {} {
      if l.writer.Some? {
        t := l.writer.value;
      } else {
        t :| t in l.readers;
      }
      if Needs(At(s, t)).Some? {
        LockOrder(At(s, t));
        WaiterCanStep(s, t);
      } else {
        ActorCanStep(s, t);
      }
    } else {
      t := l.pending.value;
      WaiterCanStep(s, t);
    }
  }

  /** No deadlock: in every reachable state with an unfinished thread, some unfinished thread has an enabled step. */
  lemma NoDeadlock(states: seq<State>, i: nat, unfinished: Tid) returns (t: Tid)
    requires Path(states) && i < |states| && !At(states[i], unfinished).Finished?
    ensures CanStep(states[i], t) && !At(states[i], t).Finished?
  {
    LocksAlwaysAgree(states, i);
    var s := states[i];
    if s.dispatcher != FREE {
      t := DispatcherLockMoves(s);
    } else if s.engine != FREE {
      t := EngineLockMoves(s);
    } else {
      t := unfinished;
      if Needs(At(s, t)).Some? {
        WaiterCanStep(s, t);
      } else {
        ActorCanStep(s, t);
      }
    }
  }

  // ---------- the two maps ----------

  /** The task a thread is about to put into active. */
  function Publishing(pc: Pc): Option<Ref> {
    if pc.PublishWait? || pc.PublishIn? then Some(pc.task) else None
  }

  /** What the two maps, the tasks and the runs promise each other. */
  ghost predicate Tables(s: State) {
    && (forall i | 0 <= i < |s.tasks| ::
          s.tasks[i].runId == s.tasks[i].id && s.tasks[i].workflowId == s.tasks[i].id && s.tasks[i].id in s.runs)
    && (forall k | k in s.active :: s.active[k] in s.published && s.active[k] < |s.tasks| && s.tasks[s.active[k]].id == k)
    && (forall k | k in s.runs :: s.runs[k] < |s.cells|)
    && (forall r | r in s.published :: r < |s.tasks|)
  }

  /** What a thread carries from one section to the next is still good; a poll of a task never misses its run. */
  predicate References(s: State, pc: Pc) {
    match pc
    case PublishWait(task) => task < |s.tasks| && task !in s.published
    case PublishIn(task) => task < |s.tasks| && task !in s.published
    case LookWait(polled, runId) => Pointed(s, polled) && (polled.Some? ==> s.tasks[polled.value].runId == runId)
    case LookIn(polled, runId) => Pointed(s, polled) && (polled.Some? ==> s.tasks[polled.value].runId == runId)
    case Missed(polled) => polled.None?
    case Asking(polled, run) => Pointed(s, polled) && run < |s.cells|
    case WriteStatus(polled, run, _, _) => Pointed(s, polled) && run < |s.cells|
    case WriteConclusion(polled, run, _, _) => Pointed(s, polled) && run < |s.cells|
    case Mapping(polled, run, _, _) => Pointed(s, polled) && run < |s.cells|
    case Telling(polled, run) => Pointed(s, polled) && run < |s.cells|
    case _ => true
  }

  predicate Pointed(s: State, polled: Option<Ref>) {
    polled.Some? ==> polled.value < |s.tasks|
  }

  ghost predicate Agreed(s: State) {
    && Tables(s)
    && (forall t: Tid :: References(s, At(s, t)))
    && (forall t: Tid, u: Tid | t != u && Publishing(At(s, t)).Some? :: Publishing(At(s, t)) != Publishing(At(s, u)))
  }

  /** Tables only grow, and a task keeps its identity: only its status is ever rewritten. */
  ghost predicate Grown(s: State, w: State) {
    && |s.tasks| <= |w.tasks| && |s.cells| <= |w.cells| && s.runs.Keys <= w.runs.Keys
    && forall i | 0 <= i < |s.tasks| :: w.tasks[i] == s.tasks[i].(status := w.tasks[i].status)
  }

  lemma {:induction false} TellKeepsTables(s: State, polled: Option<Ref>, status: string)
    requires Tables(s)
    ensures var w := Tell(s, polled, status); Tables(w) && Grown(s, w)
  {
  }

  lemma {:induction false} FilingKeepsTables(s: State, id: string, c: Choice)
    requires Tables(s)
    ensures var w := Written(s, FileIn(id), c); Tables(w) && Grown(s, w)
  {
  }

  lemma {:induction false} PublishingKeepsTables(s: State, task: Ref, c: Choice)
    requires Tables(s) && task < |s.tasks|
    ensures var w := Written(s, PublishIn(task), c); Tables(w) && Grown(s, w)
  {
  }

  lemma {:induction false} BlockingKeepsTables(s: State, c: Choice)
    requires Tables(s)
    ensures var w := Written(s, BlockIn, c); Tables(w) && Grown(s, w)
  {
    if c.id in s.active {
      TellKeepsTables(s, Some(s.active[c.id]), "cancelled");
    }
  }

  lemma {:induction false} CancellingKeepsTables(s: State, id: string, c: Choice)
    requires Tables(s)
    ensures var w := Written(s, CancelIn(id), c); Tables(w) && Grown(s, w)
  {
    if id in s.active {
      TellKeepsTables(s, Some(s.active[id]), "cancelled");
    }
  }

  /** A point that only writes a cell, or nothing. */
  lemma {:induction false} CellWriteKeepsTables(s: State, pc: Pc, c: Choice)
    requires Tables(s) && (pc.WriteStatus? || pc.WriteConclusion? || pc.Mapping? || pc.MarkIn?)
    ensures var w := Written(s, pc, c); Tables(w) && Grown(s, w)
  {
  }

  lemma {:induction false} WrittenKeepsTables(s: State, pc: Pc, c: Choice)
    requires Tables(s) && References(s, pc)
    ensures Tables(Written(s, pc, c)) && Grown(s, Written(s, pc, c))
  {
    match pc
    case FileIn(id) => FilingKeepsTables(s, id, c);
    case PublishIn(task) => PublishingKeepsTables(s, task, c);
    case BlockIn => BlockingKeepsTables(s, c);
    case Missed(polled) => TellKeepsTables(s, polled, "not_found");
    case Telling(polled, run) => TellKeepsTables(s, polled, Cell(s, run).status);
    case CancelIn(id) => CancellingKeepsTables(s, id, c);
    case WriteStatus(_, _, _, _) => CellWriteKeepsTables(s, pc, c);
    case WriteConclusion(_, _, _, _) => CellWriteKeepsTables(s, pc, c);
    case Mapping(_, _, _, _) => CellWriteKeepsTables(s, pc, c);
    case MarkIn(_, _) => CellWriteKeepsTables(s, pc, c);
    case _ => assert Written(s, pc, c) == s;
  }

  lemma {:induction false} AfterRefers(s: State, pc: Pc, c: Choice)
    requires Tables(s) && References(s, pc)
    ensures References(Written(s, pc, c), After(s, pc, c))
    ensures Publishing(After(s, pc, c)) == if pc.FileIn? then Some(|s.tasks|) else None
  {
  }

  lemma {:induction false} OthersRefer(s: State, w: State, pc: Pc)
    requires References(s, pc) && Grown(s, w)
    requires forall r | r in w.published && r !in s.published :: Publishing(pc) != Some(r)
    ensures References(w, pc)
  {
  }

  lemma {:induction false} OwnReferences(s: State, t: Tid, c: Choice)
    requires Agreed(s)
    ensures References(Act(s, t, c), At(Act(s, t, c), t))
  {
    var pc, w := At(s, t), Written(s, At(s, t), c);
    assert References(s, pc);
    WrittenKeepsTables(s, pc, c);
    AfterRefers(s, pc, c);
    assert References(w, After(s, pc, c));
  }

  /** A step publishes at most the task its own thread carries. */
  lemma {:induction false} PublishesOwn(s: State, pc: Pc, c: Choice, r: Ref)
    requires r in Written(s, pc, c).published && r !in s.published
    ensures Publishing(pc) == Some(r)
  {
  }

  lemma {:induction false} OtherReferences(s: State, t: Tid, c: Choice, u: Tid)
    requires Agreed(s) && u != t
    ensures References(Act(s, t, c), At(s, u)) && At(Act(s, t, c), u) == At(s, u)
  {
    var w := Written(s, At(s, t), c);
    assert References(s, At(s, t)) && References(s, At(s, u));
    WrittenKeepsTables(s, At(s, t), c);
    forall r | r in w.published && r !in s.published
      ensures Publishing(At(s, u)) != Some(r)
    {
      PublishesOwn(s, At(s, t), c, r);
    }
    OthersRefer(s, w, At(s, u));
    assert References(w, At(s, u));
  }

  lemma {:induction false} ActKeepsReferences(s: State, t: Tid, c: Choice, u: Tid)
    requires Agreed(s)
    ensures References(Act(s, t, c), At(Act(s, t, c), u))
    ensures u != t ==> At(Act(s, t, c), u) == At(s, u)
  {
    if u == t {
      OwnReferences(s, t, c);
    } else {
      OtherReferences(s, t, c, u);
    }
  }

  lemma {:induction false} ActKeepsAgreed(s: State, t: Tid, c: Choice)
    requires Agreed(s)
    ensures Agreed(Act(s, t, c))
  {
    var pc, s' := At(s, t), Act(s, t, c);
    assert References(s, pc);
    WrittenKeepsTables(s, pc, c);
    AfterRefers(s, pc, c);
    forall u: Tid
      ensures References(s', At(s', u))
      ensures u != t ==> At(s', u) == At(s, u)
      ensures Publishing(At(s, u)).Some? ==> Publishing(At(s, u)).value < |s.tasks|
    {
      ActKeepsReferences(s, t, c, u);
      assert References(s, At(s, u));
    }
  }

  /** A step that only moves t, between points that carry the same things, keeps the agreement. */
  lemma {:induction false} MoveKeepsAgreed(s: State, s': State, t: Tid)
    requires Agreed(s)
    requires s'.(engine := s.engine, dispatcher := s.dispatcher, pcs := s.pcs) == s
    requires forall u: Tid | u != t :: At(s', u) == At(s, u)
    requires References(s', At(s', t)) && Publishing(At(s', t)) in {Publishing(At(s, t)), None}
    ensures Agreed(s')
  {
    forall u: Tid
      ensures References(s', At(s', u))
    {
      if u != t {
        assert References(s, At(s, u));
      }
    }
  }

  lemma {:induction false} BeginKeepsAgreed(s: State, t: Tid, pc: Pc)
    requires Agreed(s) && At(s, t).Finished? && Beginning(pc)
    ensures Agreed(s.(pcs := s.pcs[t := pc]))
  {
    MoveKeepsAgreed(s, s.(pcs := s.pcs[t := pc]), t);
  }

  /** Taking or announcing a lock writes no table and moves nobody else. */
  lemma {:induction false} AcquireWritesNothing(s: State, t: Tid, c: Choice)
    requires Enabled(s, t, c) && Needs(At(s, t)).Some?
    ensures var s' := Step(s, t, c);
            && s'.(engine := s.engine, dispatcher := s.dispatcher, pcs := s.pcs) == s
            && (forall u: Tid | u != t :: At(s', u) == At(s, u))
            && At(s', t) in {At(s, t), Entered(At(s, t))}
  {
  }

  lemma {:induction false} AcquireKeepsAgreed(s: State, t: Tid, c: Choice)
    requires Agreed(s) && Enabled(s, t, c) && Needs(At(s, t)).Some?
    ensures Agreed(Step(s, t, c))
  {
    AcquireWritesNothing(s, t, c);
    assert References(s, At(s, t));
    MoveKeepsAgreed(s, Step(s, t, c), t);
  }

  lemma {:induction false} NextKeepsAgreed(s: State, s': State)
    requires Agreed(s) && Next(s, s')
    ensures Agreed(s')
  {
    if t: Tid, pc :| At(s, t).Finished? && Beginning(pc) && s' == s.(pcs := s.pcs[t := pc]) {
      BeginKeepsAgreed(s, t, pc);
    } else {
      var t: Tid, c :| Enabled(s, t, c) && s' == Step(s, t, c);
      if Needs(At(s, t)).None? {
        ActKeepsAgreed(s, t, c);
      } else {
        AcquireKeepsAgreed(s, t, c);
      }
    }
  }

  lemma {:induction false} StartAgreed(asks: bool)
    ensures Agreed(Start(asks))
  {
  }

  lemma {:induction false} PathKeepsAgreed(states: seq<State>, i: nat, j: nat)
    requires Chain(states) && j == i + 1 < |states| && Agreed(states[i])
    ensures Agreed(states[j])
  {
    ChainStep(states, i, j);
    NextKeepsAgreed(states[i], states[j]);
  }

  lemma {:induction false} AlwaysAgreed(states: seq<State>, i: nat)
    requires Path(states) && i < |states|
    ensures Agreed(states[i])
  {
    if i == 0 {
      StartAgreed(states[0].asks);
    } else {
      AlwaysAgreed(states, i - 1);
      PathKeepsAgreed(states, i - 1, i);
    }
  }

  /** Under any interleaving of any number of threads: active is keyed by its tasks' three ids, all known to the dispatcher. */
  lemma MapsAgree(states: seq<State>, i: nat, k: string)
    requires Path(states) && i < |states| && k in states[i].active
    ensures var s := states[i];
            && s.active[k] < |s.tasks| && k in s.runs
            && var task := s.tasks[s.active[k]]; task.id == k && task.runId == k && task.workflowId == k
  {
    AlwaysAgreed(states, i);
  }

  /** A poll of a task never takes the missing-run branch, however stale the task; only a bare run lookup may. */
  lemma PollNeverMisses(states: seq<State>, i: nat, t: Tid)
    requires Path(states) && i < |states| && At(states[i], t).Missed?
    ensures At(states[i], t).polled.None?
  {
    AlwaysAgreed(states, i);
    assert References(states[i], At(states[i], t));
  }

  // ---------- a task that left active never returns ----------

  ghost predicate Gone(s: State, task: Ref) {
    task in s.published && forall k | k in s.active :: s.active[k] != task
  }

  lemma WrittenKeepsGone(s: State, pc: Pc, c: Choice, task: Ref)
    requires References(s, pc) && Gone(s, task)
    ensures Gone(Written(s, pc, c), task)
  {
  }

  lemma StepKeepsGone(s: State, t: Tid, c: Choice, task: Ref)
    requires References(s, At(s, t)) && Enabled(s, t, c) && Gone(s, task)
    ensures Gone(Step(s, t, c), task)
  {
    if Needs(At(s, t)).None? {
      WrittenKeepsGone(s, At(s, t), c, task);
    } else {
      AcquireWritesNothing(s, t, c);
    }
  }

  lemma NextKeepsGone(s: State, s': State, task: Ref)
    requires Agreed(s) && Next(s, s') && Gone(s, task)
    ensures Gone(s', task)
  {
    if t: Tid, c :| Enabled(s, t, c) && s' == Step(s, t, c) {
      assert References(s, At(s, t));
      StepKeepsGone(s, t, c, task);
    }
  }

  lemma {:induction false} PathKeepsGone(states: seq<State>, i: nat, j: nat, task: Ref)
    requires Path(states) && j == i + 1 < |states| && Gone(states[i], task)
    ensures Gone(states[j], task)
  {
    AlwaysAgreed(states, i);
    ChainStep(states, i, j);
    NextKeepsGone(states[i], states[j], task);
  }

  lemma {:induction false} StaysGone(states: seq<State>, i: nat, j: nat, task: Ref)
    requires Path(states) && i <= j < |states| && Gone(states[i], task)
    ensures Gone(states[j], task)
  {
    if i < j {
      StaysGone(states, i, j - 1, task);
      PathKeepsGone(states, j - 1, j, task);
    }
  }

  ghost predicate Active(s: State, task: Ref) {
    exists k | k in s.active :: s.active[k] == task
  }

  lemma StepKeepsPublished(s: State, t: Tid, c: Choice, task: Ref)
    requires Enabled(s, t, c) && task in s.published
    ensures task in Step(s, t, c).published
  {
    if Needs(At(s, t)).Some? {
      AcquireWritesNothing(s, t, c);
    }
  }

  lemma NextKeepsPublished(s: State, s': State, task: Ref)
    requires Next(s, s') && task in s.published
    ensures task in s'.published
  {
    if t: Tid, c :| Enabled(s, t, c) && s' == Step(s, t, c) {
      StepKeepsPublished(s, t, c, task);
    }
  }

  lemma {:induction false} PathKeepsPublished(states: seq<State>, i: nat, j: nat, task: Ref)
    requires Chain(states) && j == i + 1 < |states| && task in states[i].published
    ensures task in states[j].published
  {
    ChainStep(states, i, j);
    NextKeepsPublished(states[i], states[j], task);
  }

  lemma {:induction false} StaysPublished(states: seq<State>, i: nat, j: nat, task: Ref)
    requires Chain(states) && i <= j < |states| && task in states[i].published
    ensures task in states[j].published
  {
    if i < j {
      StaysPublished(states, i, j - 1, task);
      PathKeepsPublished(states, j - 1, j, task);
    }
  }

  /**
   * A task that was active and is no more, blocked away or replaced, stays out of active for good,
   * whatever stale polls and cancels still hold a pointer to it.
   */
  lemma NeverBack(states: seq<State>, i: nat, j: nat, k: nat, task: Ref)
    requires Path(states) && i <= j <= k < |states|
    requires Active(states[i], task) && !Active(states[j], task)
    ensures !Active(states[k], task)
  {
    assert task in states[i].published by {
      AlwaysAgreed(states, i);
    }
    StaysPublished(states, i, j, task);
    StaysGone(states, j, k, task);
  }

  /** A point that writes one of the maps holds that map's lock exclusively. */
  lemma WritersHoldTheLock(s: State, pc: Pc, c: Choice)
    ensures Written(s, pc, c).active != s.active ==> Holds(pc, EngineLock) == Some(Exclusive)
    ensures Written(s, pc, c).runs != s.runs ==> Holds(pc, DispatcherLock) == Some(Exclusive)
  {
  }

  lemma ExclusiveMeansAlone(s: State, which: Which, t: Tid, other: Tid)
    requires LockAgrees(s, which) && Holds(At(s, t), which) == Some(Exclusive) && other != t
    ensures Holds(At(s, other), which).None?
  {
    assert Of(s, which).writer == Some(t);
    assert other !in Of(s, which).readers;
  }

  /** While one thread changes active or runs, no other thread is inside a section of that map. */
  lemma WritesAreExclusive(states: seq<State>, i: nat, t: Tid, c: Choice, other: Tid)
    requires Path(states) && i < |states| && Enabled(states[i], t, c) && other != t
    ensures var s := states[i];
            && (Step(s, t, c).active != s.active ==> Holds(At(s, other), EngineLock).None?)
            && (Step(s, t, c).runs != s.runs ==> Holds(At(s, other), DispatcherLock).None?)
  {
    var s := states[i];
    LocksAlwaysAgree(states, i);
    if Needs(At(s, t)).Some? {
      AcquireWritesNothing(s, t, c);
    } else {
      WritersHoldTheLock(s, At(s, t), c);
      if Step(s, t, c).active != s.active {
        ExclusiveMeansAlone(s, EngineLock, t, other);
      }
      if Step(s, t, c).runs != s.runs {
        ExclusiveMeansAlone(s, DispatcherLock, t, other);
      }
    }
  }

  // ---------- what happens to active ----------

  /** The step from s to w publishes a task under k. */
  ghost predicate Enters(s: State, w: State, k: string) {
    exists t: Tid, c: Choice ::
      && At(s, t).PublishIn? && At(s, t).task < |s.tasks| && s.tasks[At(s, t).task].id == k && w == Act(s, t, c)
  }

  /** The step from s to w is one turn of a blocking section that removes k. */
  ghost predicate Leaves(s: State, w: State, k: string) {
    k in s.active && exists t: Tid, c: Choice :: At(s, t).BlockIn? && c.id == k && w == Act(s, t, c)
  }

  lemma {:induction false} WrittenActive(s: State, pc: Pc, c: Choice, k: string)
    ensures k in Written(s, pc, c).active <==>
              || (pc.PublishIn? && pc.task < |s.tasks| && s.tasks[pc.task].id == k)
              || (k in s.active && !(pc.BlockIn? && c.id == k))
  {
  }

  lemma {:induction false} ActActive(s: State, t: Tid, c: Choice, k: string)
    ensures k in Act(s, t, c).active <==>
              Enters(s, Act(s, t, c), k) || (k in s.active && !Leaves(s, Act(s, t, c), k))
  {
    var w := Act(s, t, c);
    WrittenActive(s, At(s, t), c, k);
    if u: Tid, d: Choice :| At(s, u).PublishIn? && At(s, u).task < |s.tasks| && s.tasks[At(s, u).task].id == k && w == Act(s, u, d) {
      WrittenActive(s, At(s, u), d, k);
    }
    if u: Tid, d: Choice :| At(s, u).BlockIn? && d.id == k && w == Act(s, u, d) {
      WrittenActive(s, At(s, u), d, k);
    }
  }

  lemma {:induction false} SameActive(s: State, w: State, k: string)
    requires w.active == s.active
    ensures k in w.active <==> Enters(s, w, k) || (k in s.active && !Leaves(s, w, k))
  {
    if u: Tid, d: Choice :| At(s, u).PublishIn? && At(s, u).task < |s.tasks| && s.tasks[At(s, u).task].id == k && w == Act(s, u, d) {
      WrittenActive(s, At(s, u), d, k);
    }
    if u: Tid, d: Choice :| At(s, u).BlockIn? && d.id == k && w == Act(s, u, d) {
      WrittenActive(s, At(s, u), d, k);
    }
  }

  lemma {:induction false} ActiveStep(s: State, w: State, k: string)
    requires Next(s, w)
    ensures k in w.active <==> Enters(s, w, k) || (k in s.active && !Leaves(s, w, k))
  {
    if t: Tid, c :| Enabled(s, t, c) && w == Step(s, t, c) {
      if Needs(At(s, t)).Some? {
        AcquireWritesNothing(s, t, c);
        SameActive(s, w, k);
      } else {
        ActActive(s, t, c, k);
      }
    } else {
      SameActive(s, w, k);
    }
  }

  /** Entered at some step before i, and not left since. */
  ghost predicate Since(enters: nat -> bool, leaves: nat -> bool, i: nat) {
    exists j: nat | j < i :: enters(j) && forall m: nat | j < m < i :: !leaves(m)
  }

  lemma {:induction false} SinceStep(enters: nat -> bool, leaves: nat -> bool, i: nat)
    ensures Since(enters, leaves, i + 1) <==> enters(i) || (Since(enters, leaves, i) && !leaves(i))
  {
    if Since(enters, leaves, i) && !leaves(i) {
      var j: nat :| j < i && enters(j) && forall m: nat | j < m < i :: !leaves(m);
      assert forall m: nat | j < m < i + 1 :: !leaves(m);
    }
  }

  /** The key k comes and goes at the steps named by `enters` and `leaves`. */
  ghost predicate TracksAt(states: seq<State>, k: string, enters: nat -> bool, leaves: nat -> bool, m: nat)
    requires m + 1 < |states|
  {
    k in states[m + 1].active <==> enters(m) || (k in states[m].active && !leaves(m))
  }

  ghost predicate Tracks(states: seq<State>, k: string, enters: nat -> bool, leaves: nat -> bool) {
    forall m: nat | m + 1 < |states| :: TracksAt(states, k, enters, leaves, m)
  }

  lemma {:induction false} TracksSince(states: seq<State>, k: string, enters: nat -> bool, leaves: nat -> bool, i: nat)
    requires i < |states| && k !in states[0].active && Tracks(states, k, enters, leaves)
    ensures k in states[i].active <==> Since(enters, leaves, i)
  {
    if i > 0 {
      TracksSince(states, k, enters, leaves, i - 1);
      assert TracksAt(states, k, enters, leaves, i - 1);
      SinceStep(enters, leaves, i - 1);
    }
  }

  ghost function Entering(states: seq<State>, k: string): nat -> bool {
    (m: nat) => m + 1 < |states| && Enters(states[m], states[m + 1], k)
  }

  ghost function Leaving(states: seq<State>, k: string): nat -> bool {
    (m: nat) => m + 1 < |states| && Leaves(states[m], states[m + 1], k)
  }

  lemma {:induction false} PathTracks(states: seq<State>, k: string, m: nat)
    requires Path(states) && m + 1 < |states|
    ensures TracksAt(states, k, Entering(states, k), Leaving(states, k), m)
  {
    ChainStep(states, m, m + 1);
    ActiveStep(states[m], states[m + 1], k);
  }

  lemma {:induction false} PathTracksAll(states: seq<State>, k: string)
    requires Path(states)
    ensures Tracks(states, k, Entering(states, k), Leaving(states, k))
  {
    forall m: nat | m + 1 < |states|
      ensures TracksAt(states, k, Entering(states, k), Leaving(states, k), m)
    {
      PathTracks(states, k, m);
    }
  }

  /** Under any interleaving the keys of active are exactly the ids published and not blocked away since. */
  lemma {:induction false} KeysExactly(states: seq<State>, i: nat, k: string)
    requires Path(states) && i < |states|
    ensures k in states[i].active <==> Since(Entering(states, k), Leaving(states, k), i)
  {
    PathTracksAll(states, k);
    TracksSince(states, k, Entering(states, k), Leaving(states, k), i);
  }

  /** While thread t is in its blocking section, nobody else touches active or moves t. */
  lemma {:induction false} OthersLeaveActive(s: State, u: Tid, c: Choice, t: Tid)
    requires LocksAgree(s) && Enabled(s, u, c) && At(s, t).BlockIn? && u != t
    ensures Step(s, u, c).active == s.active && At(Step(s, u, c), t) == At(s, t)
  {
    ExclusiveMeansAlone(s, EngineLock, t, u);
    if Needs(At(s, u)).Some? {
      AcquireWritesNothing(s, u, c);
    } else {
      WritersHoldTheLock(s, At(s, u), c);
    }
  }

  /** A turn of t itself removes one key, or finds none left and ends the section. */
  lemma {:induction false} BlockingTurn(s: State, t: Tid, c: Choice)
    requires Enabled(s, t, c) && At(s, t).BlockIn?
    ensures var w := Act(s, t, c);
            if c.id in s.active then w.active == s.active - {c.id} && At(w, t).BlockIn?
            else s.active == map[] && w.active == map[]
  {
  }

  lemma {:induction false} OneFewer(active: map<string, Ref>, id: string)
    requires id in active
    ensures var rest := active - {id};
            rest != active && rest.Keys < active.Keys && |rest| + 1 == |active|
  {
    assert (active - {id}).Keys == active.Keys - {id};
    assert |active - {id}| == |(active - {id}).Keys| && |active| == |active.Keys|;
  }

  /** What one step may do while t is in its blocking section. */
  ghost predicate Blocked(s: State, w: State, t: Tid) {
    && (w.active == s.active || (w.active.Keys < s.active.Keys && |w.active| + 1 == |s.active|))
    && (!At(w, t).BlockIn? ==> s.active == map[] && w.active == map[])
  }

  lemma {:induction false} OthersBlocked(s: State, u: Tid, c: Choice, t: Tid)
    requires LocksAgree(s) && Enabled(s, u, c) && At(s, t).BlockIn? && u != t
    ensures Blocked(s, Step(s, u, c), t)
  {
    OthersLeaveActive(s, u, c, t);
  }

  lemma {:induction false} TurnBlocked(s: State, t: Tid, c: Choice)
    requires Enabled(s, t, c) && At(s, t).BlockIn?
    ensures Blocked(s, Act(s, t, c), t)
  {
    BlockingTurn(s, t, c);
    if c.id in s.active {
      OneFewer(s.active, c.id);
    }
  }

  lemma {:induction false} BlockingStepBy(s: State, u: Tid, c: Choice, t: Tid)
    requires LocksAgree(s) && Enabled(s, u, c) && At(s, t).BlockIn?
    ensures Blocked(s, Step(s, u, c), t)
  {
    if u != t {
      OthersBlocked(s, u, c, t);
    } else {
      TurnBlocked(s, t, c);
    }
  }

  lemma {:induction false} BlockingStep(s: State, w: State, t: Tid)
    requires LocksAgree(s) && Next(s, w) && At(s, t).BlockIn?
    ensures Blocked(s, w, t)
  {
    if u: Tid, c :| Enabled(s, u, c) && w == Step(s, u, c) {
      BlockingStepBy(s, u, c, t);
    }
  }

  lemma {:induction false} PathBlocked(states: seq<State>, i: nat, j: nat, t: Tid)
    requires Path(states) && j == i + 1 < |states| && At(states[i], t).BlockIn?
    ensures Blocked(states[i], states[j], t)
  {
    LocksAlwaysAgree(states, i);
    ChainStep(states, i, j);
    BlockingStep(states[i], states[j], t);
  }

  /** How many steps between i and j changed active. */
  function Changes(states: seq<State>, i: nat, j: nat): nat
    requires i <= j < |states|
  {
    if i == j then 0
    else Changes(states, i, j - 1) + if states[j].active == states[j - 1].active then 0 else 1
  }

  ghost predicate BlockedAt(states: seq<State>, m: nat, t: Tid)
    requires m + 1 < |states|
  {
    Blocked(states[m], states[m + 1], t)
  }

  lemma {:induction false} ChangesCount(states: seq<State>, i: nat, j: nat, t: Tid)
    requires i <= j < |states| && forall m: nat | i <= m < j :: BlockedAt(states, m, t)
    ensures Changes(states, i, j) + |states[j].active| == |states[i].active|
  {
    if i < j {
      ChangesCount(states, i, j - 1, t);
      assert BlockedAt(states, j - 1, t);
    }
  }

  /**
   * A blocking section that thread t is in from state i to state j, and no longer after that, removes exactly the
   * tasks active at i, one per change of active, whatever the other threads do meanwhile.
   */
  lemma {:induction false} BlockingRemovesExactly(states: seq<State>, i: nat, j: nat, t: Tid)
    requires Path(states) && i <= j && j + 1 < |states|
    requires forall m: nat | i <= m <= j :: At(states[m], t).BlockIn?
    requires !At(states[j + 1], t).BlockIn?
    ensures states[j + 1].active == map[] && Changes(states, i, j + 1) == |states[i].active|
  {
    forall m: nat | i <= m < j + 1
      ensures BlockedAt(states, m, t)
    {
      PathBlocked(states, m, m + 1, t);
    }
    assert BlockedAt(states, j, t);
    ChangesCount(states, i, j + 1, t);
  }

  // ---------- when no status request can be built ----------

  predicate InWrites(pc: Pc) {
    pc.WriteStatus? || pc.WriteConclusion? || pc.Mapping?
  }

  predicate Idle(cell: Run) {
    cell.status in ["queued", "cancelled"] && cell.conclusion == ""
  }

  /** Nobody writes the fields of a run, and every run is queued or cancelled without a conclusion. */
  ghost predicate Silent(s: State) {
    && !s.asks
    && (forall t: Tid :: !InWrites(At(s, t)))
    && forall i | 0 <= i < |s.cells| :: Idle(s.cells[i])
  }

  lemma {:induction false} AfterSilent(s: State, pc: Pc, c: Choice)
    requires !s.asks && !InWrites(pc)
    ensures !InWrites(After(s, pc, c))
  {
  }

  lemma {:induction false} CellsSilent(s: State, pc: Pc, c: Choice)
    requires !InWrites(pc) && forall i | 0 <= i < |s.cells| :: Idle(s.cells[i])
    ensures var w := Written(s, pc, c); w.asks == s.asks && forall i | 0 <= i < |w.cells| :: Idle(w.cells[i])
  {
  }

  lemma {:induction false} WrittenSilent(s: State, pc: Pc, c: Choice)
    requires Silent(s) && !InWrites(pc)
    ensures Silent(Written(s, pc, c)) && !InWrites(After(s, pc, c))
  {
    AfterSilent(s, pc, c);
    CellsSilent(s, pc, c);
    assert forall t: Tid :: At(Written(s, pc, c), t) == At(s, t);
  }

  lemma {:induction false} MoveSilent(s: State, w: State, t: Tid)
    requires Silent(s) && w.asks == s.asks && w.cells == s.cells && !InWrites(At(w, t))
    requires forall u: Tid | u != t :: At(w, u) == At(s, u)
    ensures Silent(w)
  {
  }

  lemma {:induction false} StepSilent(s: State, t: Tid, c: Choice)
    requires Silent(s) && Enabled(s, t, c)
    ensures Silent(Step(s, t, c))
  {
    if Needs(At(s, t)).Some? {
      AcquireWritesNothing(s, t, c);
      MoveSilent(s, Step(s, t, c), t);
    } else {
      WrittenSilent(s, At(s, t), c);
      MoveSilent(Written(s, At(s, t), c), Act(s, t, c), t);
    }
  }

  lemma {:induction false} BeginSilent(s: State, t: Tid, pc: Pc)
    requires Silent(s) && Beginning(pc)
    ensures Silent(s.(pcs := s.pcs[t := pc]))
  {
    MoveSilent(s, s.(pcs := s.pcs[t := pc]), t);
  }

  lemma {:induction false} NextSilent(s: State, w: State)
    requires Silent(s) && Next(s, w)
    ensures Silent(w)
  {
    if t: Tid, pc :| At(s, t).Finished? && Beginning(pc) && w == s.(pcs := s.pcs[t := pc]) {
      BeginSilent(s, t, pc);
    } else {
      var t: Tid, c :| Enabled(s, t, c) && w == Step(s, t, c);
      StepSilent(s, t, c);
    }
  }

  lemma {:induction false} PathSilent(states: seq<State>, i: nat, j: nat)
    requires Chain(states) && j == i + 1 < |states| && Silent(states[i])
    ensures Silent(states[j])
  {
    ChainStep(states, i, j);
    NextSilent(states[i], states[j]);
  }

  /** Then on every path nobody ever writes a run's fields, and no run reads anything but queued or cancelled. */
  lemma {:induction false} AlwaysSilent(states: seq<State>, i: nat)
    requires Path(states) && i < |states| && !states[0].asks
    ensures Silent(states[i])
  {
    if i > 0 {
      AlwaysSilent(states, i - 1);
      PathSilent(states, i - 1, i);
    }
  }
}
