/**
 * The two models of engine and dispatcher agree: every call of the sequential one is a run of the interleaved one in
 * which nobody else moves, from free locks to free locks, with the same effect on tasks and runs.
 */
module Sequential {
  import opened Wrappers
  import opened LockProtocol
  import opened FieldWrites
  import opened Solos
  import Text
  import Cognition
  import Engines
  import Dispatching

  // ---------- what both models show ----------

  datatype Shadow = Shadow(tasks: map<string, Task>, runs: map<string, Run>)

  ghost function Seen(s: State): Shadow
    requires Agreed(s)
  {
    Shadow(map k | k in s.active :: s.tasks[s.active[k]], map id | id in s.runs :: s.cells[s.runs[id]])
  }

  ghost function Cast(st: Engines.State): Shadow {
    Shadow(map k | k in st.active :: Task(k, st.active[k].runId, st.active[k].workflowId, st.active[k].status),
           map id | id in st.runs :: Run(st.runs[id].status, st.runs[id].conclusion))
  }

  // ---------- what a call changes of what is seen ----------

  lemma {:induction false} SaneAlong(states: seq<State>, i: nat)
    requires Chain(states) && i < |states| && WellFiled(states[0])
    ensures WellFiled(states[i])
  {
    if i > 0 {
      SaneAlong(states, i - 1);
      PathSane(states, i - 1, i);
    }
  }

  lemma {:induction false} LeadsSane(s: State, w: State)
    requires WellFiled(s) && Leads(s, w)
    ensures WellFiled(w)
  {
    var states :| Chain(states) && states[0] == s && states[|states| - 1] == w;
    SaneAlong(states, |states| - 1);
  }

  lemma {:induction false} SeenTask(s: State, w: State, id: string, status: string)
    requires Agreed(s) && Agreed(w) && id in s.active && w.active == s.active && s.active[id] < |s.tasks|
    requires w.tasks == s.tasks[s.active[id] := s.tasks[s.active[id]].(status := status)]
    ensures Seen(w).tasks == Seen(s).tasks[id := Seen(s).tasks[id].(status := status)]
  {
    forall k | k in s.active && k != id
      ensures s.active[k] != s.active[id]
    {
      assert s.tasks[s.active[k]].id == k;
    }
  }

  lemma {:induction false} SeenRun(s: State, w: State, id: string, cell: Run)
    requires Agreed(s) && Agreed(w) && Distinct(s) && id in s.runs && w.runs == s.runs && s.runs[id] < |s.cells|
    requires w.cells == s.cells[s.runs[id] := cell]
    ensures Seen(w).runs == Seen(s).runs[id := cell]
  {
  }

  lemma {:induction false} SeenSame(s: State, w: State)
    requires Agreed(s) && Agreed(w)
    ensures w.active == s.active && w.tasks == s.tasks ==> Seen(w).tasks == Seen(s).tasks
    ensures w.runs == s.runs && w.cells == s.cells ==> Seen(w).runs == Seen(s).runs
  {
  }

  lemma {:induction false} SeenFiledRun(s: State, w: State, id: string)
    requires Agreed(s) && Agreed(w)
    requires w.runs == s.runs[id := |s.cells|] && w.cells == s.cells + [Run("queued", "")]
    ensures Seen(w).runs == Seen(s).runs[id := Run("queued", "")]
  {
    assert forall k | k in s.runs :: s.runs[k] < |s.cells|;
  }

  lemma {:induction false} SeenFiledTask(s: State, w: State, id: string)
    requires Agreed(s) && Agreed(w)
    requires w.tasks == s.tasks + [Task(id, id, id, "dispatched")] && w.active == s.active[id := |s.tasks|]
    ensures Seen(w).tasks == Seen(s).tasks[id := Task(id, id, id, "dispatched")]
  {
    assert forall k | k in s.active :: s.active[k] < |s.tasks|;
  }

  lemma {:induction false} CastBoth(st: Engines.State, id: string, task: Engines.Task, run: Dispatching.Run)
    ensures Cast(Engines.State(st.active[id := task], st.runs[id := run]))
         == Shadow(Cast(st).tasks[id := Task(id, task.runId, task.workflowId, task.status)],
                   Cast(st).runs[id := Run(run.status, run.conclusion)])
  {
    CastRun(st, id, run);
    CastTask(st, id, task, st.runs[id := run]);
  }

  lemma {:induction false} CastTask(st: Engines.State, id: string, task: Engines.Task, runs: Dispatching.Runs)
    ensures Cast(Engines.State(st.active[id := task], runs))
         == Shadow(Cast(st).tasks[id := Task(id, task.runId, task.workflowId, task.status)],
                   Cast(Engines.State(st.active, runs)).runs)
  {
  }

  lemma {:induction false} CastRun(st: Engines.State, id: string, run: Dispatching.Run)
    ensures Cast(st.(runs := st.runs[id := run])).runs == Cast(st).runs[id := Run(run.status, run.conclusion)]
    ensures Cast(st.(runs := st.runs[id := run])).tasks == Cast(st).tasks
  {
  }

  // ---------- every sequential call is an undisturbed run ----------

  /** The sequential state and the interleaved one show the same. */
  ghost predicate Mirrors(setup: Engines.Setup, st: Engines.State, s: State, t: Tid) {
    && setup.present && setup.asks == s.asks && Engines.Agreeing(st)
    && Ready(s, t) && Cast(st) == Seen(s)
  }

  lemma {:induction false} SameKeys(setup: Engines.Setup, st: Engines.State, s: State, t: Tid, id: string)
    requires Mirrors(setup, st, s, t)
    ensures id in st.active <==> id in s.active
    ensures id in st.runs <==> id in s.runs
    ensures id in st.active ==>
              && id in st.runs && id != "" && st.active[id].runId == id && st.active[id].workflowId == id
              && s.active[id] < |s.tasks|
              && s.tasks[s.active[id]] == Task(id, id, id, st.active[id].status)
    ensures id in st.runs ==>
              s.runs[id] < |s.cells| && s.cells[s.runs[id]] == Run(st.runs[id].status, st.runs[id].conclusion)
  {
    assert id in Cast(st).tasks <==> id in st.active;
    assert id in Seen(s).tasks <==> id in s.active;
    assert id in Cast(st).runs <==> id in st.runs;
    assert id in Seen(s).runs <==> id in s.runs;
    if id in st.active {
      Text.DecimalNotEmpty(st.runs[id].runId);
      assert Cast(st).tasks[id] == Seen(s).tasks[id];
    }
    if id in st.runs {
      assert Cast(st).runs[id] == Seen(s).runs[id];
    }
  }

  /** What is read of a reply. */
  function Heard(setup: Engines.Setup, reply: Dispatching.StatusReply): (string, string) {
    if Dispatching.Read(setup.asks, reply) then (reply.status, reply.conclusion) else ("", "")
  }

  lemma {:induction false} HeardIs(setup: Engines.Setup, run: Dispatching.Run, reply: Dispatching.StatusReply)
    ensures var heard := Heard(setup, reply);
            var after := Dispatching.Refreshed(run, setup.asks, reply);
            Answered(Run(run.status, run.conclusion), Dispatching.Read(setup.asks, reply), heard.0, heard.1)
            == Run(after.status, after.conclusion)
  {
  }

  /** A status lookup on its own. */
  lemma {:induction false} RefreshMirrored(setup: Engines.Setup, st: Engines.State, s: State, t: Tid, id: string,
                                           reply: Dispatching.StatusReply)
    returns (w: State)
    requires Mirrors(setup, st, s, t) && id in st.runs
    ensures Leads(s, w) && Ready(w, t) && w.asks == s.asks
    ensures Seen(w) == Cast(st.(runs := Dispatching.AfterStatus(st.runs, setup.asks, id, reply)))
  {
    SameKeys(setup, st, s, t, id);
    var heard := Heard(setup, reply);
    HeardIs(setup, st.runs[id], reply);
    w := RefreshSolo(s, t, id, Dispatching.Read(setup.asks, reply), heard.0, heard.1);
    LeadsSane(s, w);
    var run := Dispatching.Refreshed(st.runs[id], setup.asks, reply);
    SeenRun(s, w, id, Run(run.status, run.conclusion));
    SeenSame(s, w);
    CastRun(st, id, run);
  }

  lemma {:induction false} CastPolled(setup: Engines.Setup, st: Engines.State, completed: seq<Engines.Done>, id: string,
                                      reply: Dispatching.StatusReply)
    requires setup.present && id in st.active && id in st.runs
    requires st.active[id].runId == id && st.active[id].workflowId == id
    ensures var run := Dispatching.Refreshed(st.runs[id], setup.asks, reply);
            Cast(Engines.PollStatus(setup, st, completed, id, reply).0)
            == Shadow(Cast(st).tasks[id := Task(id, id, id, run.status)],
                      Cast(st).runs[id := Run(run.status, run.conclusion)])
  {
    var run := Dispatching.Refreshed(st.runs[id], setup.asks, reply);
    CastBoth(st, id, st.active[id].(status := run.status), run);
  }

  /** A poll of an active task. */
  lemma {:induction false} PollMirrored(setup: Engines.Setup, st: Engines.State, s: State, t: Tid,
                                        completed: seq<Engines.Done>, id: string, reply: Dispatching.StatusReply)
    returns (w: State)
    requires Mirrors(setup, st, s, t) && id in st.active
    ensures Leads(s, w) && Ready(w, t) && w.asks == s.asks
    ensures Seen(w) == Cast(Engines.PollStatus(setup, st, completed, id, reply).0)
  {
    SameKeys(setup, st, s, t, id);
    var heard := Heard(setup, reply);
    HeardIs(setup, st.runs[id], reply);
    w := PollSolo(s, t, id, Dispatching.Read(setup.asks, reply), heard.0, heard.1);
    LeadsSane(s, w);
    var run := Dispatching.Refreshed(st.runs[id], setup.asks, reply);
    SeenRun(s, w, id, Run(run.status, run.conclusion));
    SeenTask(s, w, id, run.status);
    CastPolled(setup, st, completed, id, reply);
  }

  lemma {:induction false} CastExecuted(setup: Engines.Setup, st: Engines.State, completed: seq<Engines.Done>,
                                        message: string, intent: Cognition.Intent, repo: string,
                                        reply: Dispatching.DispatchReply)
    requires setup.present && setup.configured && setup.token && Dispatching.Accepted(reply)
    requires intent.kind == Cognition.Execution && intent.shouldExecute
    ensures var id := Text.Decimal(reply.runId);
            Cast(Engines.HandleIntent(setup, st, completed, message, Some(intent), repo, reply).0)
            == Shadow(Cast(st).tasks[id := Task(id, id, id, "dispatched")], Cast(st).runs[id := Run("queued", "")])
  {
    var id := Text.Decimal(reply.runId);
    CastBoth(st, id, Engines.Task(id, id, Some(intent), repo, "dispatched"),
             Dispatching.Run(reply.runId, message, "queued", ""));
  }

  /** An accepted dispatch. */
  lemma {:induction false} ExecuteMirrored(setup: Engines.Setup, st: Engines.State, s: State, t: Tid,
                                           completed: seq<Engines.Done>, message: string, intent: Cognition.Intent,
                                           repo: string, reply: Dispatching.DispatchReply)
    returns (w: State)
    requires Mirrors(setup, st, s, t) && setup.configured && setup.token && Dispatching.Accepted(reply)
    requires intent.kind == Cognition.Execution && intent.shouldExecute
    ensures Leads(s, w) && Ready(w, t) && w.asks == s.asks
    ensures Seen(w) == Cast(Engines.HandleIntent(setup, st, completed, message, Some(intent), repo, reply).0)
  {
    var id := Text.Decimal(reply.runId);
    w := ExecuteSolo(s, t, id);
    LeadsSane(s, w);
    SeenFiledRun(s, w, id);
    SeenFiledTask(s, w, id);
    CastExecuted(setup, st, completed, message, intent, repo, reply);
  }

  /** What a cancel makes of a run. */
  function Withdrawn(run: Dispatching.Run, granted: bool): Dispatching.Run {
    if granted then run.(status := "cancelled") else run
  }

  lemma {:induction false} CastCancelled(setup: Engines.Setup, st: Engines.State, id: string,
                                         reply: Dispatching.CancelReply)
    requires setup.present && id in st.active && id in st.runs && id != ""
    requires st.active[id].runId == id && st.active[id].workflowId == id
    ensures var run := Withdrawn(st.runs[id], Dispatching.CancelAccepted(setup.token, reply));
            Cast(Engines.Cancel(setup, st, id, reply).0)
            == Shadow(Cast(st).tasks[id := Task(id, id, id, "cancelled")],
                      Cast(st).runs[id := Run(run.status, run.conclusion)])
  {
    var run := Withdrawn(st.runs[id], Dispatching.CancelAccepted(setup.token, reply));
    assert Dispatching.AfterCancel(st.runs, setup.token, id, reply) == st.runs[id := run];
    CastBoth(st, id, st.active[id].(status := "cancelled"), run);
  }

  lemma {:induction false} SeenWithdrawn(s: State, w: State, id: string, granted: bool)
    requires WellFiled(s) && Agreed(w) && id in s.runs && s.runs[id] < |s.cells| && w.runs == s.runs
    requires w.cells == if granted then s.cells[s.runs[id] := s.cells[s.runs[id]].(status := "cancelled")] else s.cells
    ensures Seen(w).runs
         == Seen(s).runs[id := if granted then s.cells[s.runs[id]].(status := "cancelled") else s.cells[s.runs[id]]]
  {
    if granted {
      SeenRun(s, w, id, s.cells[s.runs[id]].(status := "cancelled"));
    } else {
      SeenSame(s, w);
    }
  }

  /** The cancel of an active task. */
  lemma {:induction false} CancelMirrored(setup: Engines.Setup, st: Engines.State, s: State, t: Tid, id: string,
                                          reply: Dispatching.CancelReply)
    returns (w: State)
    requires Mirrors(setup, st, s, t) && id in st.active
    ensures Leads(s, w) && Ready(w, t) && w.asks == s.asks
    ensures Seen(w) == Cast(Engines.Cancel(setup, st, id, reply).0)
  {
    SameKeys(setup, st, s, t, id);
    var granted := Dispatching.CancelAccepted(setup.token, reply);
    w := CancelSolo(s, t, id, granted);
    LeadsSane(s, w);
    SeenTask(s, w, id, "cancelled");
    SeenWithdrawn(s, w, id, granted);
    CastCancelled(setup, st, id, reply);
  }

  /** The withdrawal of a run on its own. */
  lemma {:induction false} WithdrawMirrored(setup: Engines.Setup, st: Engines.State, s: State, t: Tid, id: string,
                                            reply: Dispatching.CancelReply)
    returns (w: State)
    requires Mirrors(setup, st, s, t) && id in st.runs
    ensures Leads(s, w) && Ready(w, t) && w.asks == s.asks
    ensures Seen(w) == Cast(st.(runs := Dispatching.AfterCancel(st.runs, setup.token, id, reply)))
  {
    SameKeys(setup, st, s, t, id);
    var granted := Dispatching.CancelAccepted(setup.token, reply);
    w := WithdrawSolo(s, t, id, granted);
    LeadsSane(s, w);
    SeenSame(s, w);
    SeenWithdrawn(s, w, id, granted);
    var run := Withdrawn(st.runs[id], granted);
    assert Dispatching.AfterCancel(st.runs, setup.token, id, reply) == st.runs[id := run];
    CastRun(st, id, run);
  }

  /** Blocking. */
  lemma {:induction false} BlockMirrored(setup: Engines.Setup, st: Engines.State, s: State, t: Tid) returns (w: State)
    requires Mirrors(setup, st, s, t)
    ensures Leads(s, w) && Ready(w, t) && w.asks == s.asks
    ensures Seen(w) == Cast(Engines.HandleBlocking(st).0)
  {
    w := BlockSolo(s, t);
    LeadsSane(s, w);
    SeenSame(s, w);
    assert Seen(w).tasks == map[] == Cast(Engines.HandleBlocking(st).0).tasks;
    assert Cast(Engines.HandleBlocking(st).0).runs == Cast(st).runs;
  }

  // ---------- whole runs ----------

  lemma {:induction false} MirrorsAfter(setup: Engines.Setup, st: Engines.State, e: Engines.Event, s: State, w: State, t: Tid)
    requires Mirrors(setup, st, s, t) && Ready(w, t) && w.asks == s.asks && Seen(w) == Cast(Engines.Step(setup, st, e))
    ensures Mirrors(setup, Engines.Step(setup, st, e), w, t)
  {
    Engines.StepAgrees(setup, st, e);
  }

  /** A message that neither blocks nor launches changes nothing. */
  lemma {:induction false} OthersIdle(setup: Engines.Setup, st: Engines.State, e: Engines.Event)
    requires e.Say? && Engines.Regular(e) && !Engines.Blocks(e) && setup.present
    requires !(e.intent.kind == Cognition.Execution && setup.configured && setup.token && Dispatching.Accepted(e.reply))
    ensures Engines.Step(setup, st, e) == st
  {
  }

  lemma {:induction false} SayMirrored(setup: Engines.Setup, st: Engines.State, s: State, t: Tid, e: Engines.Event)
    returns (w: State)
    requires Mirrors(setup, st, s, t) && e.Say? && Engines.Regular(e)
    ensures Leads(s, w) && Mirrors(setup, Engines.Step(setup, st, e), w, t)
  {
    if Engines.Blocks(e) {
      Engines.BlockingHandled(setup, st, e);
      w := BlockMirrored(setup, st, s, t);
      MirrorsAfter(setup, st, e, s, w, t);
    } else if e.intent.kind == Cognition.Execution && setup.configured && setup.token && Dispatching.Accepted(e.reply) {
      w := ExecuteMirrored(setup, st, s, t, e.completed, e.message, e.intent, e.repo, e.reply);
      MirrorsAfter(setup, st, e, s, w, t);
    } else {
      OthersIdle(setup, st, e);
      LeadsNowhere(s);
      w := s;
    }
  }

  /** A call about an id that is not there changes nothing. */
  predicate Known(st: Engines.State, e: Engines.Event) {
    match e
    case Say(_, _, _, _, _) => true
    case Poll(id, _, _) => id in st.active
    case Abort(id, _) => id in st.active
    case Refresh(id, _) => id in st.runs
    case Withdraw(id, _) => id in st.runs
  }

  lemma {:induction false} StepMirrored(setup: Engines.Setup, st: Engines.State, s: State, t: Tid, e: Engines.Event)
    returns (w: State)
    requires Mirrors(setup, st, s, t) && Engines.Regular(e)
    ensures Leads(s, w) && Mirrors(setup, Engines.Step(setup, st, e), w, t)
  {
    if !Known(st, e) {
      assert Engines.Step(setup, st, e) == st;
      LeadsNowhere(s);
      w := s;
      return;
    }
    match e
    case Say(_, _, _, _, _) => w := SayMirrored(setup, st, s, t, e);
    case Poll(id, completed, reply) =>
      w := PollMirrored(setup, st, s, t, completed, id, reply);
      MirrorsAfter(setup, st, e, s, w, t);
    case Abort(id, reply) =>
      w := CancelMirrored(setup, st, s, t, id, reply);
      MirrorsAfter(setup, st, e, s, w, t);
    case Refresh(id, reply) =>
      w := RefreshMirrored(setup, st, s, t, id, reply);
      MirrorsAfter(setup, st, e, s, w, t);
    case Withdraw(id, reply) =>
      w := WithdrawMirrored(setup, st, s, t, id, reply);
      MirrorsAfter(setup, st, e, s, w, t);
  }

  lemma {:induction false} StartMirrors(setup: Engines.Setup, t: Tid)
    requires setup.present
    ensures Mirrors(setup, Engines.START, Start(setup.asks), t)
  {
    StartAgreed(setup.asks);
    assert Cast(Engines.START) == Shadow(map[], map[]) == Seen(Start(setup.asks));
  }

  /**
   * Every run of the sequential engine is an interleaved run of one thread: it leads to a state that shows the same
   * tasks and runs, with both locks free.
   */
  lemma {:induction false} RunMirrored(setup: Engines.Setup, events: seq<Engines.Event>, t: Tid) returns (w: State)
    requires setup.present && forall e | e in events :: Engines.Regular(e)
    ensures Leads(Start(setup.asks), w) && Mirrors(setup, Engines.Run(setup, events), w, t)
  {
    if events == [] {
      StartMirrors(setup, t);
      LeadsNowhere(Start(setup.asks));
      w := Start(setup.asks);
    } else {
      var n := |events| - 1;
      var s := RunMirrored(setup, events[..n], t);
      w := StepMirrored(setup, Engines.Run(setup, events[..n]), s, t, events[n]);
      LeadsThrough(Start(setup.asks), s, w);
    }
  }
}
