/** Whole calls of one thread while nobody else moves: from free locks to free locks, step by step. */
module Solos {
  import opened Wrappers
  import opened LockProtocol
  import opened FieldWrites

  ghost predicate WellFiled(s: State) {
    Agreed(s) && Distinct(s)
  }

  /** Different ids are filed with different cells. */
  ghost predicate Distinct(s: State) {
    forall a, b | a in s.runs && b in s.runs && s.runs[a] == s.runs[b] :: a == b
  }

  /** Both locks are free and thread t is about to begin or has ended. */
  ghost predicate Ready(s: State, t: Tid) {
    WellFiled(s) && s.engine == FREE && s.dispatcher == FREE && At(s, t).Finished?
  }

  // ---------- different ids stay with different cells ----------

  lemma {:induction false} WrittenDistinct(s: State, pc: Pc, c: Choice)
    requires Agreed(s) && Distinct(s)
    ensures Distinct(Written(s, pc, c))
  {
  }

  lemma {:induction false} StepDistinct(s: State, t: Tid, c: Choice)
    requires Agreed(s) && Distinct(s) && Enabled(s, t, c)
    ensures Distinct(Step(s, t, c))
  {
    if Needs(At(s, t)).Some? {
      AcquireWritesNothing(s, t, c);
    } else {
      WrittenDistinct(s, At(s, t), c);
    }
  }

  lemma {:induction false} NextSane(s: State, w: State)
    requires WellFiled(s) && Next(s, w)
    ensures WellFiled(w)
  {
    NextKeepsAgreed(s, w);
    if t: Tid, c :| Enabled(s, t, c) && w == Step(s, t, c) {
      StepDistinct(s, t, c);
    }
  }

  lemma {:induction false} PathSane(states: seq<State>, i: nat, j: nat)
    requires Chain(states) && j == i + 1 < |states| && WellFiled(states[i])
    ensures WellFiled(states[j])
  {
    ChainStep(states, i, j);
    NextSane(states[i], states[j]);
  }

  /** The states of every path are well filed. */
  lemma {:induction false} AlwaysSane(states: seq<State>, i: nat)
    requires Path(states) && i < |states|
    ensures WellFiled(states[i])
  {
    if i == 0 {
      StartAgreed(states[0].asks);
    } else {
      AlwaysSane(states, i - 1);
      PathSane(states, i - 1, i);
    }
  }

  // ---------- steps of one thread ----------

  /** Thread t alone, at pc. */
  function Solo(s: State, t: Tid, pc: Pc): State {
    s.(pcs := s.pcs[t := pc])
  }

  lemma {:induction false} Enter(b: State, s: State, t: Tid, which: Which) returns (w: State)
    requires Leads(b, s) && Needs(At(s, t)) == Some((which, Shared)) && Of(s, which) == FREE
    ensures Leads(b, w) && w == With(s, which, Lock({t}, None, None)).(pcs := s.pcs[t := Entered(At(s, t))])
  {
    w := Take(b, s, t, NOTHING);
    assert {} + {t} == {t};
  }

  lemma {:induction false} PollFindsIs(s: State, t: Tid, id: string)
    requires At(s, t) == PollIn(id) && s.engine == Lock({t}, None, None) && s.dispatcher == FREE
    requires id in s.active && s.active[id] < |s.tasks|
    ensures Enabled(s, t, NOTHING)
    ensures Step(s, t, NOTHING)
         == Solo(s, t, LookWait(Some(s.active[id]), s.tasks[s.active[id]].runId)).(engine := FREE)
  {
    assert {t} - {t} == {};
  }

  lemma {:induction false} LookFindsIs(s: State, t: Tid, polled: Option<Ref>, id: string)
    requires At(s, t) == LookIn(polled, id) && s.dispatcher == Lock({t}, None, None) && s.engine == FREE && id in s.runs
    ensures Enabled(s, t, NOTHING)
    ensures Step(s, t, NOTHING) == Solo(s, t, Asking(polled, s.runs[id])).(dispatcher := FREE)
  {
    assert {t} - {t} == {};
  }

  lemma {:induction false} SilentIs(s: State, t: Tid, polled: Option<Ref>, run: Ref)
    requires At(s, t) == Asking(polled, run)
    ensures Enabled(s, t, NOTHING) && Step(s, t, NOTHING) == Solo(s, t, Telling(polled, run))
  {
  }

  lemma {:induction false} SpokenIs(s: State, t: Tid, polled: Option<Ref>, run: Ref, status: string, conclusion: string)
    requires At(s, t) == Asking(polled, run) && s.asks
    ensures var c := Choice(true, "", status, conclusion);
            Enabled(s, t, c) && Step(s, t, c) == Solo(s, t, WriteStatus(polled, run, status, conclusion))
  {
  }

  lemma {:induction false} FieldWritten(s: State, pc: Pc, run: Ref)
    requires Writing(pc, run) && run < |s.cells|
    ensures Written(s, pc, NOTHING) == s.(cells := s.cells[run := Turned(pc, s.cells[run])])
    ensures After(s, pc, NOTHING) == Onward(pc)
  {
    if pc.Mapping? && pc.status != "completed" {
      assert s.cells[run := s.cells[run]] == s.cells;
    }
  }

  lemma {:induction false} FieldIs(s: State, t: Tid, run: Ref)
    requires Writing(At(s, t), run) && run < |s.cells|
    ensures Enabled(s, t, NOTHING)
    ensures Step(s, t, NOTHING) == Solo(s, t, Onward(At(s, t))).(cells := s.cells[run := Turned(At(s, t), s.cells[run])])
  {
    FieldWritten(s, At(s, t), run);
  }

  /** One field write. */
  lemma {:induction false} FieldAlone(b: State, s: State, t: Tid, run: Ref) returns (w: State)
    requires Leads(b, s) && Writing(At(s, t), run) && run < |s.cells|
    ensures Leads(b, w)
    ensures w == Solo(s, t, Onward(At(s, t))).(cells := s.cells[run := Turned(At(s, t), s.cells[run])])
  {
    FieldIs(s, t, run);
    w := Take(b, s, t, NOTHING);
  }

  lemma {:induction false} TellingIs(s: State, t: Tid, polled: Option<Ref>, run: Ref)
    requires At(s, t) == Telling(polled, run) && run < |s.cells| && (polled.Some? ==> polled.value < |s.tasks|)
    ensures Enabled(s, t, NOTHING)
    ensures Step(s, t, NOTHING)
         == Solo(s, t, Finished).(tasks := if polled.None? then s.tasks
                                           else s.tasks[polled.value := s.tasks[polled.value].(status := s.cells[run].status)])
  {
  }

  // ---------- a status lookup ----------

  /** What a status answer makes of a cell, field by field. */
  function Answered(cell: Run, read: bool, status: string, conclusion: string): Run {
    if !read then cell
    else Run(if status == "completed" then if conclusion == "success" then "completed" else "failed" else status, conclusion)
  }

  /** Thread t asks and writes what it hears, or hears nothing. */
  lemma {:induction false} AskAlone(b: State, s: State, t: Tid, polled: Option<Ref>, run: Ref, read: bool,
                                    status: string, conclusion: string)
    returns (w: State)
    requires Leads(b, s) && At(s, t) == Asking(polled, run) && run < |s.cells| && (read ==> s.asks)
    ensures Leads(b, w)
    ensures w == Solo(s, t, Telling(polled, run)).(cells := s.cells[run := Answered(s.cells[run], read, status, conclusion)])
  {
    if read {
      SpokenIs(s, t, polled, run, status, conclusion);
      w := Take(b, s, t, Choice(true, "", status, conclusion));
      w := WriteAlone(b, w, t, polled, run, status, conclusion);
      assert w.pcs == s.pcs[t := Telling(polled, run)];
    } else {
      SilentIs(s, t, polled, run);
      w := Take(b, s, t, NOTHING);
      assert s.cells[run := s.cells[run]] == s.cells;
    }
  }

  lemma {:induction false} LaterOnly(xs: seq<Run>, i: nat, x: Run, y: Run)
    requires i < |xs|
    ensures xs[i := x][i := y] == xs[i := y] && xs[i := x][i] == x
  {
  }

  lemma {:induction false} LastPoint(pcs: map<Tid, Pc>, t: Tid, x: Pc, y: Pc)
    ensures pcs[t := x][t := y] == pcs[t := y]
  {
  }

  lemma {:induction false} BothWritten(b: State, s: State, t: Tid, polled: Option<Ref>, run: Ref,
                                       status: string, conclusion: string)
    returns (w: State)
    requires Leads(b, s) && At(s, t) == WriteStatus(polled, run, status, conclusion) && run < |s.cells|
    ensures Leads(b, w)
    ensures w == Solo(s, t, Mapping(polled, run, status, conclusion)).(cells := s.cells[run := Run(status, conclusion)])
  {
    w := FieldAlone(b, s, t, run);
    LaterOnly(s.cells, run, s.cells[run].(status := status), Run(status, conclusion));
    LastPoint(s.pcs, t, WriteConclusion(polled, run, status, conclusion), Mapping(polled, run, status, conclusion));
    w := FieldAlone(b, w, t, run);
  }

  lemma {:induction false} WriteAlone(b: State, s: State, t: Tid, polled: Option<Ref>, run: Ref,
                                      status: string, conclusion: string)
    returns (w: State)
    requires Leads(b, s) && At(s, t) == WriteStatus(polled, run, status, conclusion) && run < |s.cells|
    ensures Leads(b, w)
    ensures w == Solo(s, t, Telling(polled, run)).(cells := s.cells[run := Answered(s.cells[run], true, status, conclusion)])
  {
    w := BothWritten(b, s, t, polled, run, status, conclusion);
    LaterOnly(s.cells, run, Run(status, conclusion), Answered(s.cells[run], true, status, conclusion));
    LastPoint(s.pcs, t, Mapping(polled, run, status, conclusion), Telling(polled, run));
    w := FieldAlone(b, w, t, run);
  }

  /** Look a run up, ask, and write what is heard. */
  lemma {:induction false} LookAlone(b: State, s: State, t: Tid, polled: Option<Ref>, id: string, read: bool,
                                     status: string, conclusion: string)
    returns (w: State)
    requires Leads(b, s) && At(s, t) == LookWait(polled, id) && s.engine == FREE && s.dispatcher == FREE
    requires id in s.runs && s.runs[id] < |s.cells| && (read ==> s.asks)
    ensures Leads(b, w)
    ensures var run := s.runs[id];
            w == Solo(s, t, Telling(polled, run)).(cells := s.cells[run := Answered(s.cells[run], read, status, conclusion)])
  {
    var run := s.runs[id];
    w := Enter(b, s, t, DispatcherLock);
    LookFindsIs(w, t, polled, id);
    LastPoint(s.pcs, t, LookIn(polled, id), Asking(polled, run));
    w := Take(b, w, t, NOTHING);
    assert w == Solo(s, t, Asking(polled, run));
    w := AskAlone(b, w, t, polled, run, read, status, conclusion);
    LastPoint(s.pcs, t, Asking(polled, run), Telling(polled, run));
  }

  // ---------- whole calls of one thread ----------

  /** A bare status lookup. */
  lemma {:induction false} RefreshSolo(s: State, t: Tid, id: string, read: bool, status: string, conclusion: string)
    returns (w: State)
    requires Ready(s, t) && id in s.runs && (read ==> s.asks)
    ensures Leads(s, w)
    ensures var run := s.runs[id];
            run < |s.cells|
            && w == Solo(s, t, Finished).(cells := s.cells[run := Answered(s.cells[run], read, status, conclusion)])
  {
    var run := s.runs[id];
    LeadsNowhere(s);
    w := Begin(s, s, t, LookWait(None, id));
    w := LookAlone(s, w, t, None, id, read, status, conclusion);
    LastPoint(s.pcs, t, LookWait(None, id), Telling(None, run));
    TellingIs(w, t, None, run);
    LastPoint(s.pcs, t, Telling(None, run), Finished);
    w := Take(s, w, t, NOTHING);
  }

  /** The first half of a poll: find the task, and go on to its run. */
  lemma {:induction false} PollEnters(s: State, t: Tid, id: string) returns (w: State)
    requires Ready(s, t) && id in s.active
    ensures Leads(s, w) && w == Solo(s, t, LookWait(Some(s.active[id]), id))
  {
    LeadsNowhere(s);
    w := Begin(s, s, t, PollWait(id));
    w := Enter(s, w, t, EngineLock);
    LastPoint(s.pcs, t, PollWait(id), PollIn(id));
    PollFindsIs(w, t, id);
    LastPoint(s.pcs, t, PollIn(id), LookWait(Some(s.active[id]), id));
    w := Take(s, w, t, NOTHING);
  }

  /** A poll of an active task. */
  lemma {:induction false} PollSolo(s: State, t: Tid, id: string, read: bool, status: string, conclusion: string)
    returns (w: State)
    requires Ready(s, t) && id in s.active && (read ==> s.asks)
    ensures Leads(s, w)
    ensures id in s.runs && s.runs[id] < |s.cells| && s.active[id] < |s.tasks|
    ensures var run, task := s.runs[id], s.active[id];
            var cell := Answered(s.cells[run], read, status, conclusion);
            w == Solo(s, t, Finished).(cells := s.cells[run := cell],
                                       tasks := s.tasks[task := s.tasks[task].(status := cell.status)])
  {
    var run, task := s.runs[id], s.active[id];
    w := PollEnters(s, t, id);
    w := LookAlone(s, w, t, Some(task), id, read, status, conclusion);
    LastPoint(s.pcs, t, LookWait(Some(task), id), Telling(Some(task), run));
    TellingIs(w, t, Some(task), run);
    LastPoint(s.pcs, t, Telling(Some(task), run), Finished);
    w := Take(s, w, t, NOTHING);
  }

  // ---------- dispatching ----------

  lemma {:induction false} PostIs(s: State, t: Tid, id: string)
    requires At(s, t) == Posting
    ensures var c := Choice(true, id, "", "");
            Enabled(s, t, c) && Step(s, t, c) == Solo(s, t, FileWait(id))
  {
  }

  /** The state after filing, with the task still to be published. */
  function Filed(s: State, id: string): State {
    s.(runs := s.runs[id := |s.cells|], cells := s.cells + [Run("queued", "")],
       tasks := s.tasks + [Task(id, id, id, "dispatched")])
  }

  lemma {:induction false} FileIs(s: State, t: Tid, id: string)
    requires At(s, t) == FileIn(id) && s.dispatcher == Lock({}, Some(t), None) && s.engine == FREE
    ensures Enabled(s, t, NOTHING)
    ensures Step(s, t, NOTHING) == Solo(Filed(s, id), t, PublishWait(|s.tasks|)).(dispatcher := FREE)
  {
    assert {} - {t} == {};
  }

  lemma {:induction false} PublishIs(s: State, t: Tid, task: Ref)
    requires At(s, t) == PublishIn(task) && s.engine == Lock({}, Some(t), None) && s.dispatcher == FREE && task < |s.tasks|
    ensures Enabled(s, t, NOTHING)
    ensures Step(s, t, NOTHING)
         == Solo(s, t, Finished).(active := s.active[s.tasks[task].id := task], published := s.published + {task},
                                  engine := FREE)
  {
    assert {} - {t} == {};
  }

  lemma {:induction false} FileSolo(s: State, t: Tid, id: string) returns (w: State)
    requires Ready(s, t)
    ensures Leads(s, w) && w == Solo(Filed(s, id), t, PublishWait(|s.tasks|))
  {
    LeadsNowhere(s);
    w := Begin(s, s, t, Posting);
    PostIs(w, t, id);
    LastPoint(s.pcs, t, Posting, FileWait(id));
    w := Take(s, w, t, Choice(true, id, "", ""));
    w := Obtain(s, w, t, DispatcherLock);
    LastPoint(s.pcs, t, FileWait(id), FileIn(id));
    FileIs(w, t, id);
    LastPoint(s.pcs, t, FileIn(id), PublishWait(|s.tasks|));
    w := Take(s, w, t, NOTHING);
  }

  /** An accepted dispatch. */
  lemma {:induction false} ExecuteSolo(s: State, t: Tid, id: string) returns (w: State)
    requires Ready(s, t)
    ensures Leads(s, w)
    ensures w == Solo(Filed(s, id), t, Finished).(active := s.active[id := |s.tasks|],
                                                  published := s.published + {|s.tasks|})
  {
    w := FileSolo(s, t, id);
    w := Obtain(s, w, t, EngineLock);
    LastPoint(s.pcs, t, PublishWait(|s.tasks|), PublishIn(|s.tasks|));
    PublishIs(w, t, |s.tasks|);
    LastPoint(s.pcs, t, PublishIn(|s.tasks|), Finished);
    w := Take(s, w, t, NOTHING);
  }

  // ---------- cancelling ----------

  function MarkTask(s: State, task: Ref): State
    requires task < |s.tasks|
  {
    s.(tasks := s.tasks[task := s.tasks[task].(status := "cancelled")])
  }

  function MarkRun(s: State, run: Ref): State
    requires run < |s.cells|
  {
    s.(cells := s.cells[run := s.cells[run].(status := "cancelled")])
  }

  lemma {:induction false} CancelIs(s: State, t: Tid, id: string)
    requires At(s, t) == CancelIn(id) && s.engine == Lock({}, Some(t), None) && s.dispatcher == FREE
    requires id in s.active && s.active[id] < |s.tasks| && s.tasks[s.active[id]].runId == id && id != ""
    ensures Enabled(s, t, NOTHING)
    ensures Step(s, t, NOTHING) == Solo(MarkTask(s, s.active[id]), t, Withdrawing(id, true))
  {
  }

  lemma {:induction false} WithdrawIs(s: State, t: Tid, id: string, nested: bool, granted: bool)
    requires At(s, t) == Withdrawing(id, nested) && s.dispatcher == FREE
    requires s.engine == if nested then Lock({}, Some(t), None) else FREE
    ensures var c := Choice(granted, "", "", "");
            && Enabled(s, t, c)
            && Step(s, t, c) == Solo(s, t, if granted then MarkWait(id, nested) else if nested then CancelLeave else Finished)
  {
  }

  lemma {:induction false} MarkIs(s: State, t: Tid, id: string, nested: bool)
    requires At(s, t) == MarkIn(id, nested) && s.dispatcher == Lock({}, Some(t), None)
    requires s.engine == if nested then Lock({}, Some(t), None) else FREE
    requires id in s.runs && s.runs[id] < |s.cells|
    ensures Enabled(s, t, NOTHING)
    ensures Step(s, t, NOTHING)
         == Solo(MarkRun(s, s.runs[id]), t, if nested then CancelLeave else Finished).(dispatcher := FREE)
  {
    assert {} - {t} == {};
  }

  lemma {:induction false} LeaveIs(s: State, t: Tid)
    requires At(s, t) == CancelLeave && s.engine == Lock({}, Some(t), None) && s.dispatcher == FREE
    ensures Enabled(s, t, NOTHING) && Step(s, t, NOTHING) == Solo(s, t, Finished).(engine := FREE)
  {
    assert {} - {t} == {};
  }

  /** The withdrawal of a run, inside a cancel or on its own. */
  lemma {:induction false} WithdrawAlone(b: State, s: State, t: Tid, id: string, nested: bool, granted: bool)
    returns (w: State)
    requires Leads(b, s) && At(s, t) == Withdrawing(id, nested) && s.dispatcher == FREE
    requires s.engine == if nested then Lock({}, Some(t), None) else FREE
    requires id in s.runs && s.runs[id] < |s.cells|
    ensures Leads(b, w)
    ensures w == Solo(if granted then MarkRun(s, s.runs[id]) else s, t, if nested then CancelLeave else Finished)
  {
    WithdrawIs(s, t, id, nested, granted);
    w := Take(b, s, t, Choice(granted, "", "", ""));
    if granted {
      w := Obtain(b, w, t, DispatcherLock);
      LastPoint(s.pcs, t, MarkWait(id, nested), MarkIn(id, nested));
      MarkIs(w, t, id, nested);
      LastPoint(s.pcs, t, MarkIn(id, nested), if nested then CancelLeave else Finished);
      w := Take(b, w, t, NOTHING);
    }
  }

  lemma {:induction false} WithdrawSolo(s: State, t: Tid, id: string, granted: bool) returns (w: State)
    requires Ready(s, t) && id in s.runs
    ensures Leads(s, w) && s.runs[id] < |s.cells|
    ensures w == Solo(if granted then MarkRun(s, s.runs[id]) else s, t, Finished)
  {
    LeadsNowhere(s);
    w := Begin(s, s, t, Withdrawing(id, false));
    w := WithdrawAlone(s, w, t, id, false, granted);
    LastPoint(s.pcs, t, Withdrawing(id, false), Finished);
  }

  lemma {:induction false} CancelEnters(s: State, t: Tid, id: string) returns (w: State)
    requires Ready(s, t) && id in s.active && id != ""
    ensures Leads(s, w) && s.active[id] < |s.tasks|
    ensures w == Solo(MarkTask(s, s.active[id]), t, Withdrawing(id, true)).(engine := Lock({}, Some(t), None))
  {
    LeadsNowhere(s);
    w := Begin(s, s, t, CancelWait(id));
    w := Obtain(s, w, t, EngineLock);
    LastPoint(s.pcs, t, CancelWait(id), CancelIn(id));
    CancelIs(w, t, id);
    LastPoint(s.pcs, t, CancelIn(id), Withdrawing(id, true));
    w := Take(s, w, t, NOTHING);
  }

  /** The cancel of an active task. */
  lemma {:induction false} CancelSolo(s: State, t: Tid, id: string, granted: bool) returns (w: State)
    requires Ready(s, t) && id in s.active && id != ""
    ensures Leads(s, w) && s.active[id] < |s.tasks| && id in s.runs && s.runs[id] < |s.cells|
    ensures var marked := MarkTask(s, s.active[id]);
            w == Solo(if granted then MarkRun(marked, s.runs[id]) else marked, t, Finished)
  {
    w := CancelEnters(s, t, id);
    w := WithdrawAlone(s, w, t, id, true, granted);
    LastPoint(s.pcs, t, Withdrawing(id, true), CancelLeave);
    LeaveIs(w, t);
    LastPoint(s.pcs, t, CancelLeave, Finished);
    w := Take(s, w, t, NOTHING);
  }

  // ---------- blocking ----------

  lemma {:induction false} BlockIs(s: State, t: Tid, id: string)
    requires At(s, t) == BlockIn && id in s.active && s.active[id] < |s.tasks|
    ensures var c := Choice(false, id, "", "");
            Enabled(s, t, c) && Step(s, t, c) == Solo(MarkTask(s, s.active[id]), t, BlockIn).(active := s.active - {id})
  {
  }

  lemma {:induction false} BlockEndsIs(s: State, t: Tid)
    requires At(s, t) == BlockIn && s.active == map[] && s.engine == Lock({}, Some(t), None) && s.dispatcher == FREE
    ensures Enabled(s, t, NOTHING) && Step(s, t, NOTHING) == Solo(s, t, Finished).(engine := FREE)
  {
    assert {} - {t} == {};
  }

  /** The turns of a blocking section, one task each. */
  lemma {:induction false} BlockAlone(b: State, s: State, t: Tid) returns (w: State)
    requires Leads(b, s) && At(s, t) == BlockIn && s.engine == Lock({}, Some(t), None) && s.dispatcher == FREE
    requires forall id | id in s.active :: s.active[id] < |s.tasks|
    ensures Leads(b, w) && At(w, t).Finished? && w.active == map[] && w.engine == FREE && w.dispatcher == FREE
    ensures w.runs == s.runs && w.cells == s.cells && w.asks == s.asks
    decreases |s.active|
  {
    if s.active == map[] {
      BlockEndsIs(s, t);
      w := Take(b, s, t, NOTHING);
    } else {
      var id :| id in s.active;
      BlockIs(s, t, id);
      w := Take(b, s, t, Choice(false, id, "", ""));
      OneFewer(s.active, id);
      w := BlockAlone(b, w, t);
    }
  }

  lemma {:induction false} BlockSolo(s: State, t: Tid) returns (w: State)
    requires Ready(s, t)
    ensures Leads(s, w) && At(w, t).Finished? && w.active == map[] && w.engine == FREE && w.dispatcher == FREE
    ensures w.runs == s.runs && w.cells == s.cells && w.asks == s.asks
  {
    LeadsNowhere(s);
    w := Begin(s, s, t, BlockWait);
    w := Obtain(s, w, t, EngineLock);
    LastPoint(s.pcs, t, BlockWait, BlockIn);
    w := BlockAlone(s, w, t);
  }
}
