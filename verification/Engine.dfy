/** The operational engine, one whole call at a time: dispatch, poll, cancel and blocking over the table of active tasks. */
module Engines {
  import opened Wrappers
  import opened Text
  import opened Cognition
  import opened GoSlices
  import opened Channels
  import opened Dispatching

  datatype Task = Task(runId: string, workflowId: string, intent: Option<Intent>, repository: string, status: string)

  datatype Done = Done(id: string, status: string)

  /** Whether there is a dispatcher, has a token, can ask for a status, and has token, owner and repository all set. */
  datatype Setup = Setup(present: bool, token: bool, asks: bool, configured: bool)

  datatype State = State(active: map<string, Task>, runs: Runs)

  const START := State(map[], map[])

  datatype EngineStatus = NotConfigured | Busy(active: nat) | Ready

  datatype Reply =
    | DispatchedAs(runId: string)
    | RanLocally
    | Investigated
    | NotRequired(kind: IntentType)
    | Cancelled(count: nat)
    | NothingToCancel
    | Planned
    | Prioritized
    | AskedWhether(status: EngineStatus)
    | Acknowledged(last: Option<Done>)
    | Unsure

  // ---------- each call as a function of the state ----------

  function HandleBlocking(st: State): (State, Reply) {
    (st.(active := map[]), if |st.active| > 0 then Cancelled(|st.active|) else NothingToCancel)
  }

  function ExecuteLocally(st: State, intent: Option<Intent>): (State, Reply) {
    if intent.Some? && intent.value.kind == Investigation then (st, Investigated)
    else if intent.Some? && intent.value.kind == Blocking then HandleBlocking(st)
    else (st, RanLocally)
  }

  function Started(intent: Option<Intent>, repo: string, id: string): Task {
    Task(id, id, intent, repo, "dispatched")
  }

  /** An intent that does not ask for execution. */
  function Skip(st: State, kind: IntentType): (State, Reply) {
    match kind
    case Investigation => (st, Investigated)
    case Blocking => HandleBlocking(st)
    case other => (st, NotRequired(other))
  }

  function Execute(setup: Setup, st: State, task: string, intent: Option<Intent>, repo: string, reply: DispatchReply)
    : (State, Reply)
  {
    if !setup.present || !setup.configured then ExecuteLocally(st, intent)
    else if intent.Some? && !intent.value.shouldExecute then Skip(st, intent.value.kind)
    else if !setup.token || !Accepted(reply) then ExecuteLocally(st, intent)
    else
      var id := Decimal(reply.runId);
      (st.(active := st.active[id := Started(intent, repo, id)], runs := st.runs[id := Queued(reply.runId, task)]),
       DispatchedAs(id))
  }

  /** GetStatus; nothing is ever queued. */
  function StatusFor(setup: Setup, st: State): EngineStatus {
    if setup.present && !setup.configured then NotConfigured
    else if |st.active| > 0 then Busy(|st.active|)
    else Ready
  }

  function LastDone(completed: seq<Done>): Option<Done> {
    if completed == [] then None else Some(completed[|completed| - 1])
  }

  /** The intents that are only answered. */
  function Talk(setup: Setup, st: State, completed: seq<Done>, kind: IntentType): Reply {
    match kind
    case Planning => Planned
    case Prioritization => Prioritized
    case Clarification => AskedWhether(StatusFor(setup, st))
    case Acknowledgment => Acknowledged(LastDone(completed))
    case _ => Unsure
  }

  predicate OnlyTalked(intent: Option<Intent>) {
    intent.Some? && intent.value.kind in [Planning, Prioritization, Clarification, Acknowledgment, Unknown]
  }

  /** The intents that may change something, and no intent at all. */
  function Operate(setup: Setup, st: State, message: string, intent: Option<Intent>, repo: string, reply: DispatchReply)
    : (State, Reply)
  {
    if intent.None? then ExecuteLocally(st, None)
    else
      match intent.value.kind
      case Blocking => HandleBlocking(st)
      case Execution => Execute(setup, st, message, intent, repo, reply)
      case _ => (st, Investigated)
  }

  function HandleIntent(setup: Setup, st: State, completed: seq<Done>, message: string, intent: Option<Intent>,
                        repo: string, reply: DispatchReply): (State, Reply)
  {
    if OnlyTalked(intent) then (st, Talk(setup, st, completed, intent.value.kind))
    else Operate(setup, st, message, intent, repo, reply)
  }

  /** The status of the first finished task with this id. */
  function FirstStatus(completed: seq<Done>, id: string): string {
    if completed == [] then "not_found"
    else if completed[0].id == id then completed[0].status
    else FirstStatus(completed[1..], id)
  }

  function PollStatus(setup: Setup, st: State, completed: seq<Done>, id: string, reply: StatusReply): (State, string) {
    if id !in st.active then (st, FirstStatus(completed, id))
    else if !setup.present then (st, st.active[id].status)
    else
      var task := st.active[id];
      var runs := AfterStatus(st.runs, setup.asks, task.runId, reply);
      var status := StatusOf(runs, task.runId).status;
      (st.(active := st.active[id := task.(status := status)], runs := runs), status)
  }

  function Cancel(setup: Setup, st: State, id: string, reply: CancelReply): (State, bool) {
    if id !in st.active then (st, false)
    else
      var task := st.active[id];
      (st.(active := st.active[id := task.(status := "cancelled")],
           runs := if setup.present && task.runId != "" then AfterCancel(st.runs, setup.token, task.runId, reply)
                   else st.runs),
       true)
  }

  // ---------- whole runs ----------

  /** A message comes with the intent read from it; the rest may happen at any time in between. */
  datatype Event =
    | Say(message: string, intent: Intent, repo: string, completed: seq<Done>, reply: DispatchReply)
    | Poll(id: string, completed: seq<Done>, status: StatusReply)
    | Abort(id: string, cancel: CancelReply)
    | Refresh(runId: string, status: StatusReply)
    | Withdraw(runId: string, cancel: CancelReply)

  function Step(setup: Setup, st: State, e: Event): State {
    match e
    case Say(message, intent, repo, completed, reply) =>
      HandleIntent(setup, st, completed, message, Some(intent), repo, reply).0
    case Poll(id, completed, reply) => PollStatus(setup, st, completed, id, reply).0
    case Abort(id, reply) => Cancel(setup, st, id, reply).0
    case Refresh(id, reply) => st.(runs := AfterStatus(st.runs, setup.asks, id, reply))
    case Withdraw(id, reply) => st.(runs := AfterCancel(st.runs, setup.token, id, reply))
  }

  function Run(setup: Setup, events: seq<Event>): State {
    if events == [] then START
    else Step(setup, Run(setup, events[..|events| - 1]), events[|events| - 1])
  }

  /** Every active task is filed under the id it carries twice, and its run is known to the dispatcher. */
  ghost predicate Agreeing(st: State) {
    && Honest(st.runs)
    && forall id | id in st.active ::
         st.active[id].runId == id && st.active[id].workflowId == id && id in st.runs
  }

  lemma RunsOnlyTouchedAgree(st: State, active: map<string, Task>, runs: Runs, id: string)
    requires Agreeing(st) && Honest(runs) && OnlyTouches(st.runs, runs, id)
    requires active.Keys == st.active.Keys
    requires forall k | k in active :: active[k].runId == k && active[k].workflowId == k
    ensures Agreeing(st.(active := active, runs := runs))
  {
  }

  lemma IntentAgrees(setup: Setup, st: State, completed: seq<Done>, message: string, intent: Option<Intent>, repo: string,
                     reply: DispatchReply)
    requires Agreeing(st)
    ensures Agreeing(HandleIntent(setup, st, completed, message, intent, repo, reply).0)
  {
  }

  lemma PollAgrees(setup: Setup, st: State, completed: seq<Done>, id: string, reply: StatusReply)
    requires Agreeing(st)
    ensures Agreeing(PollStatus(setup, st, completed, id, reply).0)
  {
    RepliesStayHonest(st.runs, setup.asks, setup.token, id, reply, NoCancelReply);
    var next := PollStatus(setup, st, completed, id, reply).0;
    if id in st.active && setup.present {
      RunsOnlyTouchedAgree(st, next.active, next.runs, id);
    }
  }

  lemma CancelAgrees(setup: Setup, st: State, id: string, reply: CancelReply)
    requires Agreeing(st)
    ensures Agreeing(Cancel(setup, st, id, reply).0)
  {
    RepliesStayHonest(st.runs, setup.asks, setup.token, id, NoStatusReply, reply);
    var next := Cancel(setup, st, id, reply).0;
    if id in st.active && setup.present {
      RunsOnlyTouchedAgree(st, next.active, next.runs, id);
    }
  }

  lemma StepAgrees(setup: Setup, st: State, e: Event)
    requires Agreeing(st)
    ensures Agreeing(Step(setup, st, e))
  {
    match e
    case Say(message, intent, repo, completed, reply) =>
      IntentAgrees(setup, st, completed, message, Some(intent), repo, reply);
    case Poll(id, completed, reply) => PollAgrees(setup, st, completed, id, reply);
    case Abort(id, reply) => CancelAgrees(setup, st, id, reply);
    case Refresh(id, reply) => RepliesStayHonest(st.runs, setup.asks, setup.token, id, reply, NoCancelReply);
    case Withdraw(id, reply) => RepliesStayHonest(st.runs, setup.asks, setup.token, id, NoStatusReply, reply);
  }

  lemma {:induction false} RunAgrees(setup: Setup, events: seq<Event>)
    ensures Agreeing(Run(setup, events))
  {
    if events != [] {
      RunAgrees(setup, events[..|events| - 1]);
      StepAgrees(setup, Run(setup, events[..|events| - 1]), events[|events| - 1]);
    }
  }

  predicate Blocks(e: Event) {
    e.Say? && e.intent.kind == Blocking
  }

  /** An Execution message whose dispatch succeeded with this run id. */
  predicate Launches(setup: Setup, e: Event, id: string) {
    && e.Say? && e.intent.kind == Execution
    && setup.present && setup.configured && setup.token && Accepted(e.reply) && Decimal(e.reply.runId) == id
  }

  /** Launched, and not followed by a blocking message. */
  ghost predicate Outstanding(setup: Setup, events: seq<Event>, id: string) {
    exists i | 0 <= i < |events| ::
      Launches(setup, events[i], id) && forall j | i < j < |events| :: !Blocks(events[j])
  }

  /** Execution is the only kind of intent that asks for execution, as the classifier guarantees. */
  predicate Regular(e: Event) {
    e.Say? ==> (e.intent.shouldExecute <==> e.intent.kind == Execution)
  }

  lemma StepKeys(setup: Setup, st: State, e: Event, id: string)
    requires Regular(e)
    ensures id in Step(setup, st, e).active <==> Launches(setup, e, id) || (id in st.active && !Blocks(e))
  {
  }

  lemma OutstandingGrows(setup: Setup, before: seq<Event>, e: Event, id: string)
    ensures Outstanding(setup, before + [e], id) <==>
              Launches(setup, e, id) || (Outstanding(setup, before, id) && !Blocks(e))
  {
    var all := before + [e];
    if Outstanding(setup, all, id) {
      var i :| 0 <= i < |all| && Launches(setup, all[i], id) && forall j | i < j < |all| :: !Blocks(all[j]);
      if i < |before| {
        assert Launches(setup, before[i], id);
        assert forall j | i < j < |before| :: before[j] == all[j];
        assert all[|before|] == e;
      }
    }
    if Launches(setup, e, id) {
      assert Launches(setup, all[|before|], id);
    } else if Outstanding(setup, before, id) && !Blocks(e) {
      var i :| 0 <= i < |before| && Launches(setup, before[i], id) && forall j | i < j < |before| :: !Blocks(before[j]);
      assert Launches(setup, all[i], id);
      assert forall j | i < j < |all| :: all[j] == if j < |before| then before[j] else e;
    }
  }

  lemma {:induction false} KeysOutstanding(setup: Setup, events: seq<Event>, id: string)
    requires forall e | e in events :: Regular(e)
    ensures id in Run(setup, events).active <==> Outstanding(setup, events, id)
  {
    if events != [] {
      var n := |events| - 1;
      KeysOutstanding(setup, events[..n], id);
      StepKeys(setup, Run(setup, events[..n]), events[n], id);
      OutstandingGrows(setup, events[..n], events[n], id);
      assert events == events[..n] + [events[n]];
    }
  }

  /** Every message's intent is the classifier's. */
  ghost predicate Classified(toLower: char -> char, events: seq<Event>) {
    forall e | e in events && e.Say? :: e.intent == Classify(LISTED, Fold(toLower, e.message))
  }

  lemma ClassifiedRegular(toLower: char -> char, events: seq<Event>)
    requires Classified(toLower, events)
    ensures forall e | e in events :: Regular(e)
  {
    forall e | e in events && e.Say?
      ensures Regular(e)
    {
      FlagsFollowKind(LISTED, Fold(toLower, e.message));
    }
  }

  /** The active keys are exactly the run ids launched since the last blocking message, whatever polls and cancels did. */
  lemma {:induction false} ActiveExactly(toLower: char -> char, setup: Setup, events: seq<Event>)
    requires Classified(toLower, events)
    ensures forall id :: id in Run(setup, events).active <==> Outstanding(setup, events, id)
  {
    ClassifiedRegular(toLower, events);
    forall id
      ensures id in Run(setup, events).active <==> Outstanding(setup, events, id)
    {
      KeysOutstanding(setup, events, id);
    }
  }

  lemma {:induction false} SizeIs<T>(active: map<string, T>, keys: set<string>)
    requires forall id :: id in keys <==> id in active
    ensures |active| == |keys| && (active == map[] <==> keys == {})
  {
    assert active.Keys == keys;
    assert |active| == |active.Keys|;
  }

  lemma {:induction false} SameSize<T, U>(m: map<string, T>, n: map<string, U>)
    requires m.Keys == n.Keys
    ensures |m| == |n|
  {
    assert |m| == |m.Keys| && |n| == |n.Keys|;
  }

  lemma {:induction false} BlockingHandled(setup: Setup, st: State, e: Event)
    requires Blocks(e)
    ensures HandleIntent(setup, st, e.completed, e.message, Some(e.intent), e.repo, e.reply) == HandleBlocking(st)
  {
  }

  /** A blocking message reports exactly the tasks it removes, leaves none, and leaves every run as it was. */
  lemma {:induction false} BlockingCounts(toLower: char -> char, setup: Setup, events: seq<Event>, e: Event, outstanding: set<string>)
    requires Classified(toLower, events) && Blocks(e)
    requires forall id :: id in outstanding <==> Outstanding(setup, events, id)
    ensures var st := Run(setup, events);
            HandleIntent(setup, st, e.completed, e.message, Some(e.intent), e.repo, e.reply)
            == (State(map[], st.runs), if outstanding == {} then NothingToCancel else Cancelled(|outstanding|))
  {
    ActiveExactly(toLower, setup, events);
    SizeIs(Run(setup, events).active, outstanding);
    BlockingHandled(setup, Run(setup, events), e);
  }

  /** In every reachable state, polling an active task reaches the run it was dispatched as. */
  lemma PollFindsRun(setup: Setup, events: seq<Event>, completed: seq<Done>, id: string, reply: StatusReply)
    requires id in Run(setup, events).active && setup.present
    ensures var st := Run(setup, events);
            id in st.runs && PollStatus(setup, st, completed, id, reply).1 == Refreshed(st.runs[id], setup.asks, reply).status
  {
    RunAgrees(setup, events);
  }

  // ---------- what one call does ----------

  /** Everything of the tasks but this one stays. */
  ghost predicate OnlyTask(before: map<string, Task>, after: map<string, Task>, id: string) {
    && after.Keys == before.Keys
    && forall other | other in before && other != id :: after[other] == before[other]
  }

  /** Cancelling an active task makes it read cancelled, and its run too if the request is accepted. */
  lemma {:induction false} CancelsTaskAndRun(setup: Setup, events: seq<Event>, id: string, reply: CancelReply)
    requires setup.present
    ensures var st := Run(setup, events);
            var r := Cancel(setup, st, id, reply);
            var accepted := setup.token && reply.CancelAnswer? && (reply.code == 204 || reply.code == 200);
            && (r.1 <==> id in st.active)
            && (!r.1 ==> r.0 == st)
            && (r.1 ==>
                  && id in st.runs && OnlyTask(st.active, r.0.active, id) && OnlyTouches(st.runs, r.0.runs, id)
                  && r.0.active[id] == st.active[id].(status := "cancelled")
                  && r.0.runs[id] == if accepted then st.runs[id].(status := "cancelled") else st.runs[id])
  {
    RunAgrees(setup, events);
    if id in Run(setup, events).active {
      DecimalNotEmpty(Run(setup, events).runs[id].runId);
    }
    CancelExactly(Run(setup, events).runs, setup.token, id, reply);
  }

  /** Polling an active task leaves it with the status it reports, which is that of its run. */
  lemma {:induction false} PollsTaskAndRun(setup: Setup, events: seq<Event>, completed: seq<Done>, id: string,
                                           reply: StatusReply)
    requires setup.present && id in Run(setup, events).active
    ensures var st := Run(setup, events);
            var r := PollStatus(setup, st, completed, id, reply);
            && OnlyTask(st.active, r.0.active, id) && OnlyTouches(st.runs, r.0.runs, id)
            && id in st.runs && r.0.active[id] == st.active[id].(status := r.1) && r.0.runs[id].status == r.1
            && r.0.runs == AfterStatus(st.runs, setup.asks, id, reply)
  {
    RunAgrees(setup, events);
  }

  /** Finished and unknown ids change nothing: the first finished task with the id tells, else not_found. */
  lemma {:induction false} PollsFinished(setup: Setup, st: State, completed: seq<Done>, id: string, reply: StatusReply)
    requires id !in st.active
    ensures var r := PollStatus(setup, st, completed, id, reply);
            && r.0 == st
            && if exists d | d in completed :: d.id == id then
                 exists i | 0 <= i < |completed| ::
                   completed[i].id == id && r.1 == completed[i].status && forall j | 0 <= j < i :: completed[j].id != id
               else r.1 == "not_found"
  {
    FirstStatusFirst(completed, id);
  }

  lemma {:induction false} FirstStatusFirst(completed: seq<Done>, id: string)
    ensures if exists d | d in completed :: d.id == id then
              exists i | 0 <= i < |completed| ::
                && completed[i].id == id && FirstStatus(completed, id) == completed[i].status
                && forall j | 0 <= j < i :: completed[j].id != id
            else FirstStatus(completed, id) == "not_found"
  {
    if completed != [] && completed[0].id != id {
      FirstStatusFirst(completed[1..], id);
      if i :| 0 <= i < |completed[1..]| && completed[1..][i].id == id
              && FirstStatus(completed[1..], id) == completed[1..][i].status
              && forall j | 0 <= j < i :: completed[1..][j].id != id {
        assert completed[i + 1] == completed[1..][i];
        assert forall j | 0 < j < i + 1 :: completed[j] == completed[1..][j - 1];
      }
    }
  }

  /** An Execution message: dispatched exactly when it launches, with this task and run; else run locally, unchanged. */
  lemma {:induction false} ExecutesExactly(setup: Setup, st: State, completed: seq<Done>, message: string,
                                           intent: Intent, repo: string, reply: DispatchReply)
    requires intent.kind == Execution && intent.shouldExecute
    ensures var r := HandleIntent(setup, st, completed, message, Some(intent), repo, reply);
            if setup.present && setup.configured && setup.token && reply.DispatchAnswer?
               && (reply.code == 204 || reply.code == 201 || reply.code == 200) then
              var id := Decimal(reply.runId);
              && r.1 == DispatchedAs(id)
              && r.0.active == st.active[id := Task(id, id, Some(intent), repo, "dispatched")]
              && r.0.runs == st.runs[id := Dispatching.Run(reply.runId, message, "queued", "")]
            else r == (st, RanLocally)
  {
  }

  /** The kinds that change nothing, and what they are answered with. */
  lemma {:induction false} AnswersExactly(setup: Setup, st: State, completed: seq<Done>, message: string,
                                          intent: Intent, repo: string, reply: DispatchReply)
    requires intent.kind !in {Blocking, Execution}
    ensures var r := HandleIntent(setup, st, completed, message, Some(intent), repo, reply);
            && r.0 == st
            && (intent.kind in {Investigation, Auditing} <==> r.1 == Investigated)
            && (intent.kind == Planning <==> r.1 == Planned)
            && (intent.kind == Prioritization <==> r.1 == Prioritized)
            && (intent.kind == Clarification ==>
                  r.1 == AskedWhether(if setup.present && !setup.configured then NotConfigured
                                      else if st.active == map[] then Ready else Busy(|st.active|)))
            && (intent.kind == Acknowledgment ==>
                  r.1 == Acknowledged(if completed == [] then None else Some(completed[|completed| - 1])))
  {
  }

  /** Blocking empties the table of tasks, reports how many there were, and leaves the runs. */
  lemma {:induction false} BlocksExactly(setup: Setup, st: State, completed: seq<Done>, message: string,
                                         intent: Intent, repo: string, reply: DispatchReply)
    requires intent.kind == Blocking
    ensures HandleIntent(setup, st, completed, message, Some(intent), repo, reply)
         == (State(map[], st.runs), if st.active == map[] then NothingToCancel else Cancelled(|st.active|))
  {
  }

  // ---------- when no status request can be built ----------

  ghost predicate AllUnpolled(runs: Runs) {
    forall id | id in runs :: Unpolled(runs[id])
  }

  lemma {:induction false} UnaskedStep(setup: Setup, st: State, e: Event)
    requires !setup.asks && AllUnpolled(st.runs)
    ensures AllUnpolled(Step(setup, st, e).runs)
  {
  }

  /** Then every run reads queued or cancelled for ever, with no conclusion. */
  lemma {:induction false} UnaskedRuns(setup: Setup, events: seq<Event>)
    requires !setup.asks
    ensures AllUnpolled(Run(setup, events).runs)
  {
    if events != [] {
      UnaskedRuns(setup, events[..|events| - 1]);
      UnaskedStep(setup, Run(setup, events[..|events| - 1]), events[|events| - 1]);
    }
  }

  /** And a poll of an active task tells nothing else. */
  lemma {:induction false} UnaskedStatus(setup: Setup, events: seq<Event>, completed: seq<Done>, id: string,
                                         reply: StatusReply)
    requires !setup.asks && setup.present && id in Run(setup, events).active
    ensures var st := Run(setup, events);
            var r := PollStatus(setup, st, completed, id, reply);
            r.1 in ["queued", "cancelled"] && r.0.runs == st.runs
  {
    RunAgrees(setup, events);
    UnaskedRuns(setup, events);
    var run := Run(setup, events).runs[id];
    assert Unpolled(run);
  }

  ghost predicate Completes(setup: Setup, events: seq<Event>, id: string) {
    id in Run(setup, events).runs && Run(setup, events).runs[id].status == "completed"
  }

  const EXECUTE := Say("run it", Verdict(4, "", ""), "", [], DispatchAnswer(204, 7))
  const SUCCEED := Refresh("7", StatusAnswer(200, "completed", "success"))

  lemma {:induction false} AskedCompletes(setup: Setup)
    requires setup.present && setup.configured && setup.token && setup.asks
    ensures Completes(setup, [EXECUTE, SUCCEED], "7")
  {
    var events := [EXECUTE, SUCCEED];
    assert events[..1] == [EXECUTE] && [EXECUTE][..0] == [];
    assert Run(setup, []) == START;
    assert Run(setup, [EXECUTE]) == Step(setup, START, EXECUTE);
    assert Decimal(7) == "7";
    assert Run(setup, [EXECUTE]).runs == map["7" := Queued(7, "run it")];
    assert Run(setup, events) == Step(setup, Run(setup, [EXECUTE]), SUCCEED);
  }

  /** For a dispatcher that can dispatch: some run is ever seen completed exactly when a status request can be built. */
  lemma {:induction false} ProgressExactly(setup: Setup)
    requires setup.present && setup.configured && setup.token
    ensures (exists events, id :: Completes(setup, events, id)) <==> setup.asks
  {
    if setup.asks {
      AskedCompletes(setup);
    } else {
      forall events, id | id in Run(setup, events).runs
        ensures Run(setup, events).runs[id].status != "completed"
      {
        UnaskedRuns(setup, events);
        assert Unpolled(Run(setup, events).runs[id]);
      }
    }
  }

  // ---------- the object ----------

  class OperationalTask {
    const id: string
    const intent: Option<Intent>
    const repository: string
    const workflowId: string
    const runId: string
    var status: string

    constructor (id: string, intent: Option<Intent>, repository: string, status: string, workflowId: string, runId: string)
      ensures this.id == id && View() == Task(runId, workflowId, intent, repository, status)
    {
      this.id, this.intent, this.repository := id, intent, repository;
      this.status, this.workflowId, this.runId := status, workflowId, runId;
    }

    function View(): Task
      reads this
    {
      Task(runId, workflowId, intent, repository, status)
    }

    ghost predicate Says(id: string, v: Task)
      reads this
    {
      this.id == id && View() == v
    }
  }

  class Engine {
    const dispatcher: Dispatcher?
    const completed: History<Done>
    var active: map<string, OperationalTask>
    var cancelChans: map<string, Channel>

    ghost var tasks: map<string, Task>     // what the active tasks say

    /** Tasks are filed under their own id, so they are distinct objects; no cancel channel is ever registered. */
    ghost predicate Filed()
      reads this, active.Values
    {
      && cancelChans == map[]
      && tasks.Keys == active.Keys
      && forall id {:trigger active[id]} | id in active :: active[id].Says(id, tasks[id])
    }

    ghost predicate Valid()
      reads this, active.Values, dispatcher, Known()
    {
      Filed() && (dispatcher != null ==> dispatcher.Valid())
    }

    ghost function Known(): set<WorkflowRun>
      reads dispatcher
    {
      if dispatcher == null then {} else dispatcher.runs.Values
    }

    function Config(): Setup {
      Setup(dispatcher != null, dispatcher != null && dispatcher.token != "", dispatcher != null && dispatcher.Asks(),
            dispatcher != null && dispatcher.IsConfigured())
    }

    ghost function View(): State
      reads this, dispatcher
    {
      State(tasks, if dispatcher == null then map[] else dispatcher.table)
    }

    constructor (dispatcher: Dispatcher?)
      requires dispatcher != null ==> dispatcher.Valid() && dispatcher.table == map[]
      ensures Valid() && View() == START && this.dispatcher == dispatcher
    {
      this.dispatcher := dispatcher;
      completed := new History<Done>();
      active, cancelChans, tasks := map[], map[], map[];
    }

    /** Registered cancel channels would have to be open and distinct for the close loop not to panic. */
    ghost predicate Closable()
      reads this, cancelChans.Values
    {
      && (forall id | id in cancelChans :: !cancelChans[id].closed)
      && (forall id, other | id in cancelChans && other in cancelChans && id != other ::
            cancelChans[id] != cancelChans[other])
    }

    /** The first loop of handleBlocking, for any registered channels. */
    method CloseAll() returns (closed: nat)
      requires Closable()
      modifies this`cancelChans, cancelChans.Values
      ensures cancelChans == map[] && closed == |old(cancelChans)|
      ensures forall id | id in old(cancelChans) :: old(cancelChans)[id].closed
    {
      closed := 0;
      while cancelChans != map[]
        invariant Closable() && closed + |cancelChans| == |old(cancelChans)|
        invariant forall id | id in cancelChans :: id in old(cancelChans) && cancelChans[id] == old(cancelChans)[id]
        invariant forall id | id in old(cancelChans) :: id in cancelChans || old(cancelChans)[id].closed
        decreases |cancelChans|
      {
        var id :| id in cancelChans;
        cancelChans[id].Close();
        cancelChans := cancelChans - {id};
        closed := closed + 1;
      }
    }

    /** The second loop, for any tasks. */
    method CancelAll() returns (cancelled: nat)
      modifies this`active, active.Values
      ensures active == map[] && cancelled == |old(active)|
      ensures forall id | id in old(active) :: old(active)[id].status == "cancelled"
    {
      cancelled := 0;
      while active != map[]
        invariant cancelled + |active| == |old(active)|
        invariant forall id | id in active :: id in old(active) && active[id] == old(active)[id]
        invariant forall id | id in old(active) :: id in active || old(active)[id].status == "cancelled"
        decreases |active|
      {
        var id :| id in active;
        active[id].status := "cancelled";
        active := active - {id};
        cancelled := cancelled + 1;
      }
    }

    /** Both loops, when tasks are filed and no channel is registered. */
    method Clear() returns (cancelled: nat)
      requires Filed()
      modifies this`active, this`cancelChans, this`tasks, active.Values
      ensures Filed() && tasks == map[] && cancelled == |old(tasks)|
      ensures forall id | id in old(active) :: old(active)[id].status == "cancelled"
    {
      SameSize(active, tasks);
      assert |cancelChans| == 0;
      cancelled := CloseAll();
      var more := CancelAll();
      cancelled := cancelled + more;
      tasks := map[];
    }

    method DoBlocking() returns (reply: Reply)
      requires Filed()
      modifies this, active.Values
      ensures Filed() && (View(), reply) == HandleBlocking(old(View()))
      ensures forall id | id in old(active) :: old(active)[id].status == "cancelled"
    {
      var cancelled := Clear();
      if cancelled > 0 {
        return Cancelled(cancelled);
      }
      return NothingToCancel;
    }

    method DoExecuteLocally(intent: Option<Intent>) returns (reply: Reply)
      requires Filed()
      modifies this, active.Values
      ensures Filed() && (View(), reply) == ExecuteLocally(old(View()), intent)
    {
      if intent.Some? && intent.value.kind == Investigation {
        return Investigated;
      }
      if intent.Some? && intent.value.kind == Blocking {
        reply := DoBlocking();
        return;
      }
      return RanLocally;
    }

    /** File the task of an accepted dispatch. */
    method Launch(id: string, intent: Option<Intent>, repo: string, runId: string)
      requires Filed()
      modifies this
      ensures Filed() && tasks == old(tasks)[id := Task(runId, id, intent, repo, "dispatched")]
    {
      var opTask := new OperationalTask(id, intent, repo, "dispatched", id, runId);
      active := active[opTask.id := opTask];
      tasks := tasks[opTask.id := opTask.View()];
    }

    /** The tail of Execute: dispatch, and fall back to local execution when that fails. */
    method DoDispatch(task: string, intent: Option<Intent>, repo: string, answer: DispatchReply) returns (reply: Reply)
      requires Valid() && dispatcher != null && dispatcher.token != ""
      modifies this, active.Values, dispatcher
      ensures Valid()
      ensures !Accepted(answer) ==> (View(), reply) == ExecuteLocally(old(View()), intent)
      ensures Accepted(answer) ==>
                var id := Decimal(answer.runId);
                && reply == DispatchedAs(id)
                && View() == State(old(tasks)[id := Started(intent, repo, id)],
                                   old(dispatcher.table)[id := Queued(answer.runId, task)])
    {
      var run := dispatcher.DispatchSimplified(task, answer);
      if run == null {
        reply := DoExecuteLocally(intent);
        return;
      }
      Launch(run.id, intent, repo, Decimal(run.runId));
      return DispatchedAs(Decimal(run.runId));
    }

    method DoSkip(kind: IntentType) returns (reply: Reply)
      requires Filed()
      modifies this, active.Values
      ensures Filed() && (View(), reply) == Skip(old(View()), kind)
    {
      if kind == Investigation {
        return Investigated;
      }
      if kind == Blocking {
        reply := DoBlocking();
        return;
      }
      return NotRequired(kind);
    }

    method DoExecute(task: string, intent: Option<Intent>, repo: string, answer: DispatchReply) returns (reply: Reply)
      requires Valid()
      modifies this, active.Values, dispatcher
      ensures Valid() && (View(), reply) == Execute(Config(), old(View()), task, intent, repo, answer)
    {
      if dispatcher == null || !dispatcher.IsConfigured() {
        reply := DoExecuteLocally(intent);
        return;
      }
      if intent.Some? && !intent.value.shouldExecute {
        reply := DoSkip(intent.value.kind);
        return;
      }
      reply := DoDispatch(task, intent, repo, answer);
    }

    method GetStatus() returns (status: EngineStatus)
      requires Filed()
      ensures status == StatusFor(Config(), View())
    {
      if dispatcher != null && !dispatcher.IsConfigured() {
        return NotConfigured;
      }
      SameSize(active, tasks);
      if |active| > 0 {
        return Busy(|active|);
      }
      return Ready;
    }

    /** Shows the only entry of GetHistory(1); the slice itself is not kept. */
    method DoAcknowledge() returns (reply: Reply)
      requires completed.Valid()
      ensures reply == Acknowledged(LastDone(completed.Contents()))
    {
      if completed.len > 0 {
        var last := completed.backing[completed.off + completed.len - 1];
        assert last == completed.Contents()[completed.len - 1];
        return Acknowledged(Some(last));
      }
      return Acknowledged(None);
    }

    method DoTalk(kind: IntentType) returns (reply: Reply)
      requires Filed() && completed.Valid()
      ensures reply == Talk(Config(), View(), completed.Contents(), kind)
    {
      match kind {
        case Planning => reply := Planned;
        case Prioritization => reply := Prioritized;
        case Clarification =>
          var status := GetStatus();
          reply := AskedWhether(status);
        case Acknowledgment => reply := DoAcknowledge();
        case _ => reply := Unsure;
      }
    }

    method DoOperate(message: string, intent: Option<Intent>, repo: string, answer: DispatchReply) returns (reply: Reply)
      requires Valid()
      modifies this, active.Values, dispatcher
      ensures Valid() && (View(), reply) == Operate(Config(), old(View()), message, intent, repo, answer)
    {
      if intent.None? {
        reply := DoExecuteLocally(None);
        return;
      }
      match intent.value.kind {
        case Blocking => reply := DoBlocking();
        case Execution => reply := DoExecute(message, intent, repo, answer);
        case _ => reply := Investigated;
      }
    }

    /** The switch over the kind of intent, in two halves. */
    method DoHandleIntent(message: string, intent: Option<Intent>, repo: string, answer: DispatchReply)
      returns (reply: Reply)
      requires Valid() && completed.Valid()
      modifies this, active.Values, dispatcher
      ensures Valid()
      ensures (View(), reply)
              == HandleIntent(Config(), old(View()), old(completed.Contents()), message, intent, repo, answer)
    {
      if OnlyTalked(intent) {
        reply := DoTalk(intent.value.kind);
      } else {
        reply := DoOperate(message, intent, repo, answer);
      }
    }

    method FindCompleted(id: string) returns (status: string)
      requires completed.Valid()
      ensures status == FirstStatus(completed.Contents(), id)
    {
      ghost var all := completed.Contents();
      for i := 0 to completed.len
        invariant FirstStatus(all, id) == FirstStatus(all[i..], id)
      {
        var t := completed.backing[completed.off + i];
        assert all[i] == t && all[i..][1..] == all[i + 1..];
        if t.id == id {
          return t.status;
        }
      }
      return "not_found";
    }

    /** The field write through the task pointer. */
    method SetStatus(id: string, status: string)
      requires Valid() && id in active
      modifies this`tasks, active[id]
      ensures Valid() && tasks == old(tasks)[id := old(tasks)[id].(status := status)]
    {
      active[id].status := status;
      tasks := tasks[id := active[id].View()];
    }

    /** GetRunStatus, seen from the engine. */
    method AskRun(runId: string, answer: StatusReply) returns (status: string)
      requires Valid() && dispatcher != null
      modifies dispatcher`table, Known()
      ensures Valid() && tasks == old(tasks)
      ensures dispatcher.table == AfterStatus(old(dispatcher.table), dispatcher.Asks(), runId, answer)
      ensures status == StatusOf(dispatcher.table, runId).status
    {
      var run := dispatcher.GetRunStatus(runId, answer);
      status := run.status;
    }

    method PollActive(id: string, answer: StatusReply) returns (status: string)
      requires Valid() && id in active && dispatcher != null
      modifies this`tasks, active[id], dispatcher`table, Known()
      ensures Valid()
      ensures dispatcher.table == AfterStatus(old(dispatcher.table), dispatcher.Asks(), old(tasks)[id].runId, answer)
      ensures status == StatusOf(dispatcher.table, old(tasks)[id].runId).status
      ensures tasks == old(tasks)[id := old(tasks)[id].(status := status)]
    {
      status := AskRun(active[id].runId, answer);
      SetStatus(id, status);
    }

    method DoPollStatus(id: string, answer: StatusReply) returns (status: string)
      requires Valid() && completed.Valid()
      modifies this`tasks, active.Values, dispatcher, Known()
      ensures Valid()
      ensures (View(), status) == PollStatus(Config(), old(View()), completed.Contents(), id, answer)
    {
      if id !in active {
        status := FindCompleted(id);
        return;
      }
      if dispatcher == null {
        return active[id].status;
      }
      status := PollActive(id, answer);
    }

    /** CancelRun, seen from the engine. */
    method WithdrawRun(runId: string, answer: CancelReply)
      requires Valid() && dispatcher != null
      modifies dispatcher`table, Known()
      ensures Valid() && tasks == old(tasks)
      ensures dispatcher.table == AfterCancel(old(dispatcher.table), dispatcher.token != "", runId, answer)
    {
      var _ := dispatcher.CancelRun(runId, answer);
    }

    method CancelActive(id: string, answer: CancelReply)
      requires Valid() && id in active && dispatcher != null && active[id].runId != ""
      modifies this`tasks, active[id], dispatcher`table, Known()
      ensures Valid()
      ensures dispatcher.table == AfterCancel(old(dispatcher.table), dispatcher.token != "", old(tasks)[id].runId, answer)
      ensures tasks == old(tasks)[id := old(tasks)[id].(status := "cancelled")]
    {
      SetStatus(id, "cancelled");
      WithdrawRun(active[id].runId, answer);
    }

    method DoCancel(id: string, answer: CancelReply) returns (found: bool)
      requires Valid()
      modifies this`tasks, active.Values, dispatcher, Known()
      ensures Valid()
      ensures (View(), found) == Cancel(Config(), old(View()), id, answer)
    {
      if id !in active {
        return false;
      }
      if dispatcher != null && active[id].runId != "" {
        CancelActive(id, answer);
      } else {
        SetStatus(id, "cancelled");
      }
      return true;
    }
  }
}
