/** The conversational execution lifecycle: one task slot, a cancelled flag and a cancel channel. */
module Lifecycle {
  import opened Wrappers
  import opened Text
  import opened Cognition
  import opened GoSlices
  import opened OpenHands
  import opened Channels

  // ---------- inferring a missing intent ----------

  const EXECUTION_TRIGGERS := [
    "execute", "executar", "corrija", "fix", "apply", "corrigir",
    "rode", "rodar", "implemente", "fa\U{E7}a", "fazer", "aplique"]

  const INVESTIGATION_TRIGGERS := [
    "why", "explain", "what", "how", "show", "qual", "como", "oq", " Explique",
    "verifique", "check", "status", "estado"]

  function Inferred(kind: IntentType, message: string): Intent {
    Intent(kind, 0.0, "", message, kind == Execution, false, "")
  }

  /** The closed form of the two loops. */
  predicate InfersExecution(lower: string, execution: seq<string>, investigation: seq<string>) {
    || (Hits(lower, execution) && !Contains(lower, "why") && !Contains(lower, "just"))
    || !Hits(lower, investigation)
  }

  method InferMissing(lower: string, message: string, execution: seq<string>, investigation: seq<string>)
    returns (intent: Intent)
    ensures intent == Inferred(if InfersExecution(lower, execution, investigation) then Execution else Investigation,
                               message)
  {
    for i := 0 to |execution|
      invariant forall j | 0 <= j < i ::
                  !(Contains(lower, execution[j]) && !Contains(lower, "why") && !Contains(lower, "just"))
    {
      if Contains(lower, execution[i]) && !Contains(lower, "why") && !Contains(lower, "just") {
        return Inferred(Execution, message);
      }
    }
    for i := 0 to |investigation|
      invariant forall j | 0 <= j < i :: !Contains(lower, investigation[j])
    {
      if Contains(lower, investigation[i]) {
        return Inferred(Investigation, message);
      }
    }
    return Inferred(Execution, message);
  }

  /** A lower-casing as far as the upper-case trigger is concerned. */
  ghost predicate LowersE(f: char -> char) {
    Idempotent(f) && f('E') != 'E'
  }

  lemma NeverUpperE(f: char -> char, c: char)
    requires LowersE(f)
    ensures f(c) != 'E'
  {
    assert f(f(c)) == f(c);
  }

  lemma NoUpperE(f: char -> char, message: string)
    requires LowersE(f)
    ensures !Contains(Fold(f, message), " Explique")
  {
    forall c
      ensures f(c) != 'E'
    {
      NeverUpperE(f, c);
    }
    assert " Explique"[1] == 'E';
  }

  /** The capitalised trigger can be dropped: it never matches a lower-cased message. */
  lemma DeadTrigger(f: char -> char, message: string, execution: seq<string>, before: seq<string>, after: seq<string>)
    requires LowersE(f)
    ensures var lower := Fold(f, message);
            InfersExecution(lower, execution, before + [" Explique"] + after)
            == InfersExecution(lower, execution, before + after)
  {
    NoUpperE(f, message);
    var lower := Fold(f, message);
    var full := before + [" Explique"] + after;
    assert forall p | p in before + after :: p in full;
    assert forall p | p in full :: p in before + after || p == " Explique";
  }

  /** In particular for the shipped triggers, where it stands at position 8. */
  lemma DeadShippedTrigger(f: char -> char, message: string)
    requires LowersE(f)
    ensures InfersExecution(Fold(f, message), EXECUTION_TRIGGERS, INVESTIGATION_TRIGGERS)
         == InfersExecution(Fold(f, message), EXECUTION_TRIGGERS,
                            INVESTIGATION_TRIGGERS[..8] + INVESTIGATION_TRIGGERS[9..])
  {
    var all := INVESTIGATION_TRIGGERS;
    assert all == all[..8] + [" Explique"] + all[9..];
    DeadTrigger(f, message, EXECUTION_TRIGGERS, all[..8], all[9..]);
  }

  /** Asking why is always an investigation. */
  lemma WhyInvestigates(lower: string)
    requires Contains(lower, "why")
    ensures !InfersExecution(lower, EXECUTION_TRIGGERS, INVESTIGATION_TRIGGERS)
  {
    assert INVESTIGATION_TRIGGERS[0] == "why";
    assert Hits(lower, INVESTIGATION_TRIGGERS);
  }

  /** "why" and "just" leave it to the investigation triggers; otherwise an execution trigger is enough. */
  lemma {:induction false} InferenceExactly(lower: string, execution: seq<string>, investigation: seq<string>)
    ensures var asked := exists p | p in investigation :: Contains(lower, p);
            var told := exists p | p in execution :: Contains(lower, p);
            if Contains(lower, "why") || Contains(lower, "just")
            then InfersExecution(lower, execution, investigation) <==> !asked
            else InfersExecution(lower, execution, investigation) <==> told || !asked
  {
  }

  /** As in the classifier, a trigger containing another trigger of its list ("show") makes no difference. */
  lemma RedundantTriggers(lower: string, execution: seq<string>, investigation: seq<string>)
    ensures InfersExecution(lower, Essential(execution, execution), Essential(investigation, investigation))
         == InfersExecution(lower, execution, investigation)
  {
    HitsEssential(lower, execution);
    HitsEssential(lower, investigation);
  }

  // ---------- the state and what each operation does to it ----------

  datatype Task = Task(id: string, intent: Intent, description: string, status: string)

  datatype State = State(configured: bool, task: Option<Task>, cancelled: bool)

  datatype Reply =
    | ExecutionCancelled
    | NotConfigured
    | AlreadyInProgress
    | ExecutionError
    | Output(text: string)
    | CompletedSilently
    | ExecutionFailed(error: string)
    | StatusIs(status: string)
    | AnalysisError
    | Analysed(active: Option<Task>)
    | Planned(current: Option<string>)
    | Prioritized(current: Option<string>)
    | Audited(lines: seq<Message>)
    | AskedWhether(busy: bool)
    | ReviewOffered(description: string)
    | Acknowledged(current: Option<string>)
    | Unsure

  function Outcome(r: Result<ExecutionResult>): Reply {
    match r
    case Failure => ExecutionError
    case Success(x) =>
      if x.status == "COMPLETED" then if x.output != "" then Output(x.output) else CompletedSilently
      else if x.status == "FAILED" then ExecutionFailed(x.error)
      else StatusIs(x.status)
  }

  function Timeout(intent: Intent): int {
    if intent.urgency == "high" then 5 * MINUTE else 10 * MINUTE
  }

  function Finished(t: Task, r: Result<ExecutionResult>): Task {
    match r
    case Failure => t.(status := "FAILED")
    case Success(x) => t.(id := x.taskId, status := x.status)
  }

  predicate InProgress(s: State) {
    s.task.Some? && (s.task.value.status == "RUNNING" || s.task.value.status == "IN_PROGRESS")
  }

  predicate Executing(s: State) {
    s.task.Some? && s.task.value.status in ["RUNNING", "IN_PROGRESS", "STARTING"]
  }

  function HandleExecution(s: State, intent: Intent, message: string, call: Call): (State, Reply)
    requires call.Valid()
  {
    if !s.configured then (s, NotConfigured)
    else if InProgress(s) then (s, AlreadyInProgress)
    else
      var r := Dispatched(call, Timeout(intent));
      var task := Task("", intent, if intent.task == "" then message else intent.task, "RUNNING");
      (State(true, Some(Finished(task, r)), false), Outcome(r))
  }

  function Investigate(s: State, message: string, call: Call): Reply
    requires call.Valid()
  {
    if !s.configured then Analysed(s.task)
    else
      match Dispatched(call, 3 * MINUTE)
      case Failure => AnalysisError
      case Success(x) =>
        if x.output != "" then Output(x.output)
        else if x.status == "COMPLETED" then CompletedSilently
        else StatusIs(x.status)
  }

  /** A line of the audit; the content is read as bytes, one character for each. */
  function Shown(m: Message): Message {
    Message(m.role, if |m.content| > 50 then m.content[..50] + "..." else m.content)
  }

  function AllShown(ms: seq<Message>): (r: seq<Message>)
    ensures |r| == |ms| && forall i | 0 <= i < |ms| :: r[i] == Shown(ms[i])
  {
    seq(|ms|, i requires 0 <= i < |ms| => Shown(ms[i]))
  }

  function CurrentStatus(s: State): Option<string> {
    if s.task.None? then None else Some(s.task.value.status)
  }

  function Acknowledge(s: State): Reply {
    if s.task.Some? && s.task.value.status == "COMPLETED" then ReviewOffered(s.task.value.description)
    else Acknowledged(CurrentStatus(s))
  }

  function Execute(s: State, history: seq<Message>, intent: Intent, message: string, call: Call): (State, Reply)
    requires call.Valid()
  {
    match intent.kind
    case Blocking => (s.(task := None, cancelled := true), ExecutionCancelled)
    case Investigation => (s, Investigate(s, message, call))
    case Execution => HandleExecution(s, intent, message, call)
    case Planning => (s, Planned(CurrentStatus(s)))
    case Prioritization => (s, Prioritized(CurrentStatus(s)))
    case Auditing => (s, Audited(AllShown(Last(history, 5))))
    case Clarification => (s, AskedWhether(s.task.Some?))
    case Acknowledgment => (s, Acknowledge(s))
    case Unknown => (s, Unsure)
  }

  function Stop(s: State): State {
    if s.task.None? then s
    else s.(task := Some(s.task.value.(status := "CANCELLED")), cancelled := true)
  }

  datatype Op =
    | DoExecute(intent: Intent, history: seq<Message>, message: string, call: Call)
    | DoStop

  ghost predicate Possible(ops: seq<Op>) {
    forall op | op in ops :: op.DoExecute? ==> op.call.Valid()
  }

  function Step(s: State, op: Op): (State, Option<Reply>)
    requires op.DoExecute? ==> op.call.Valid()
  {
    match op
    case DoStop => (Stop(s), None)
    case DoExecute(intent, history, message, call) =>
      var r := Execute(s, history, intent, message, call);
      (r.0, Some(r.1))
  }

  function Run(s: State, ops: seq<Op>): State
    requires Possible(ops)
  {
    if ops == [] then s else Step(Run(s, ops[..|ops| - 1]), ops[|ops| - 1]).0
  }

  // ---------- what holds in every reachable state ----------

  /** A present task is an execution on a configured client; a set cancelled flag leaves no live task. */
  predicate Consistent(s: State) {
    && (s.task.Some? ==> s.configured && s.task.value.intent.kind == Execution)
    && (s.cancelled && s.task.Some? ==> s.task.value.status == "CANCELLED")
  }

  lemma {:induction false} RunConsistent(s: State, ops: seq<Op>)
    requires Possible(ops) && Consistent(s)
    ensures Consistent(Run(s, ops)) && Run(s, ops).configured == s.configured
  {
    if ops != [] {
      RunConsistent(s, ops[..|ops| - 1]);
    }
  }

  ghost predicate AllPolite(ops: seq<Op>) {
    forall op | op in ops :: op.DoExecute? ==> Polite(op.call)
  }

  lemma StepNeverLeavesRunning(s: State, op: Op)
    requires op.DoExecute? ==> op.call.Valid() && Polite(op.call)
    requires !Executing(s)
    ensures !Executing(Step(s, op).0)
    ensures Step(s, op).1 != Some(AlreadyInProgress)
  {
    if op.DoExecute? && op.intent.kind == Execution && s.configured {
      var r := Dispatched(op.call, Timeout(op.intent));
      if r.Success? {
        DispatchedStatus(op.call, Timeout(op.intent));
      }
    }
  }

  lemma {:induction false} RunStaysIdle(s: State, ops: seq<Op>)
    requires Possible(ops) && AllPolite(ops) && !Executing(s)
    ensures !Executing(Run(s, ops))
  {
    if ops != [] {
      RunStaysIdle(s, ops[..|ops| - 1]);
      StepNeverLeavesRunning(Run(s, ops[..|ops| - 1]), ops[|ops| - 1]);
    }
  }

  /** With a polite server no execution is ever seen running between operations, and none is refused as busy. */
  lemma RunNeverBusy(s: State, ops: seq<Op>, i: nat)
    requires Possible(ops) && AllPolite(ops) && !Executing(s) && i < |ops|
    ensures !Executing(Run(s, ops[..i]))
    ensures Step(Run(s, ops[..i]), ops[i]).1 != Some(AlreadyInProgress)
  {
    RunStaysIdle(s, ops[..i]);
    StepNeverLeavesRunning(Run(s, ops[..i]), ops[i]);
  }

  /** The exact condition: the slot stays busy when the first reply not passed over pairs an error with a live status. */
  lemma StaysBusyExactly(s: State, intent: Intent, message: string, call: Call) returns (n: nat)
    requires call.Valid() && intent.kind == Execution && s.configured && !Executing(s)
    ensures call.start.Started? && call.start.id != "" ==>
              StopsAt(call.session, call.start.id, Timeout(intent), n, Dispatched(call, Timeout(intent)))
    ensures Executing(HandleExecution(s, intent, message, call).0) <==>
              && call.start.Started? && call.start.id != ""
              && var r := Observe(call.start.id, call.session.server(n));
              && call.session.clock(n) < call.session.began + Timeout(intent)
              && r.Success? && r.value.error != ""
              && r.value.status in ["RUNNING", "IN_PROGRESS", "STARTING"]
  {
    n := 0;
    if call.start.Started? && call.start.id != "" {
      n := PollReturnsFirstTerminal(call.session, call.start.id, Timeout(intent), POLL_INTERVAL);
    }
  }

  const BOOM: StatusReply := Reply([TaskStatus("t", "IN_PROGRESS", "", "boom")], None)

  /** For instance a task still in progress that already reports an error. */
  lemma ErrorLeavesBusy(intent: Intent, message: string)
    requires intent.kind == Execution
    ensures var call := Call(Started("t"), Always(BOOM));
            call.Valid() && Executing(HandleExecution(State(true, None, false), intent, message, call).0)
  {
    var s := Always(BOOM);
    assert s.clock(0) == 0 && s.server(0) == BOOM;
    assert Observe("t", BOOM) == Success(ExecutionResult("t", "", "RUNNING", "boom", ""));
    assert Poll(s, "t", Timeout(intent), POLL_INTERVAL, 0) == Observe("t", BOOM);
  }

  // ---------- what an execution reports, read off the server ----------

  /** An execution that is let through. */
  predicate LetThrough(s: State, intent: Intent) {
    && intent.kind == Execution && s.configured
    && !(s.task.Some? && s.task.value.status in ["RUNNING", "IN_PROGRESS"])
  }

  predicate Launched(call: Call) {
    call.start.Started? && call.start.id != ""
  }

  /** Five minutes for high urgency, ten otherwise. */
  function Minutes(intent: Intent): int {
    if intent.urgency == "high" then 300000 else 600000
  }

  /** The task left in the slot. */
  ghost predicate Leaves(s: State, intent: Intent, message: string, after: State, id: string, status: string) {
    && after.configured == s.configured && !after.cancelled
    && after.task == Some(Task(id, intent, if intent.task == "" then message else intent.task, status))
  }

  lemma {:induction false} ExecutionFails(s: State, history: seq<Message>, intent: Intent, message: string, call: Call)
    requires LetThrough(s, intent) && call.Valid() && !Launched(call)
    ensures var r := Execute(s, history, intent, message, call);
            r.1 == ExecutionError && Leaves(s, intent, message, r.0, "", "FAILED")
  {
  }

  /** The deciding reply n determines the answer and the task. */
  lemma {:induction false} ExecutionReads(s: State, history: seq<Message>, intent: Intent, message: string, call: Call,
                                          n: nat)
    requires LetThrough(s, intent) && call.Valid() && Launched(call)
    requires Deciding(call.session, Minutes(intent), n)
    ensures var r := Execute(s, history, intent, message, call);
            var reply := call.session.server(n);
            if reply.Unavailable? then r.1 == ExecutionError && Leaves(s, intent, message, r.0, "", "FAILED")
            else
              var t := reply.tasks[0];
              if Fails(reply) then
                r.1 == ExecutionFailed(t.error) && Leaves(s, intent, message, r.0, t.id, "FAILED")
              else if Completes(reply) then
                && r.1 == (if Fetched(t, reply.conversation)
                           then Output(ConversationOutput(t.conversationId, reply.conversation.value))
                           else CompletedSilently)
                && Leaves(s, intent, message, r.0, t.id, "COMPLETED")
              else r.1 == StatusIs(Standing(t)) && Leaves(s, intent, message, r.0, t.id, Standing(t))
  {
    PollReads(call.session, call.start.id, Minutes(intent), POLL_INTERVAL);
    ObservedExactly(call.start.id, call.session.server(n));
  }

  lemma {:induction false} ExecutionTimesOut(s: State, history: seq<Message>, intent: Intent, message: string, call: Call)
    requires LetThrough(s, intent) && call.Valid() && Launched(call)
    requires forall n: nat :: !Deciding(call.session, Minutes(intent), n)
    ensures var r := Execute(s, history, intent, message, call);
            r.1 == StatusIs("TIMEOUT") && Leaves(s, intent, message, r.0, call.start.id, "TIMEOUT")
  {
    PollReads(call.session, call.start.id, Minutes(intent), POLL_INTERVAL);
  }

  /** Some reply decides in time, and is like this. */
  ghost predicate Decided(call: Call, intent: Intent, like: StatusReply -> bool) {
    Launched(call) && exists n: nat | Deciding(call.session, Minutes(intent), n) :: like(call.session.server(n))
  }

  /** Nothing decides in time. */
  ghost predicate Undecided(call: Call, intent: Intent) {
    Launched(call) && forall n: nat :: !Deciding(call.session, Minutes(intent), n)
  }

  /**
   * Each answer of an execution, exactly: failed with the server's error text, completed, timed out, or unusable.
   * A server may also call a task with an error TIMEOUT itself.
   */
  lemma {:induction false} ExecutionAnswersExactly(s: State, history: seq<Message>, intent: Intent, message: string,
                                                   call: Call)
    requires LetThrough(s, intent) && call.Valid()
    ensures var reply := Execute(s, history, intent, message, call).1;
            && (forall e :: reply == ExecutionFailed(e) <==>
                  Decided(call, intent, (a: StatusReply) => Fails(a) && a.tasks[0].error == e))
            && (reply.Output? || reply.CompletedSilently? <==> Decided(call, intent, (a: StatusReply) => Completes(a)))
            && (reply == ExecutionError <==>
                  !Launched(call) || Decided(call, intent, (a: StatusReply) => a.Unavailable?))
            && (reply == StatusIs("TIMEOUT") <==>
                  || Undecided(call, intent)
                  || Decided(call, intent, (a: StatusReply) => Complains(a) && a.tasks[0].status == "TIMEOUT"))
  {
    if !Launched(call) {
      ExecutionFails(s, history, intent, message, call);
    } else if n: nat :| Deciding(call.session, Minutes(intent), n) {
      ExecutionReads(s, history, intent, message, call, n);
      forall m: nat | Deciding(call.session, Minutes(intent), m)
        ensures m == n
      {
        DecidingIsUnique(call.session, Minutes(intent), m, n);
      }
    } else {
      ExecutionTimesOut(s, history, intent, message, call);
    }
  }

  /** The other kinds of intent change no task and are answered from the slot and the history. */
  lemma {:induction false} TalkExactly(s: State, history: seq<Message>, intent: Intent, message: string, call: Call)
    requires call.Valid() && intent.kind in {Planning, Prioritization, Clarification, Acknowledgment, Unknown}
    ensures var r := Execute(s, history, intent, message, call);
            var status := if s.task.Some? then Some(s.task.value.status) else None;
            && r.0 == s
            && (intent.kind == Planning ==> r.1 == Planned(status))
            && (intent.kind == Prioritization ==> r.1 == Prioritized(status))
            && (intent.kind == Clarification ==> r.1 == AskedWhether(s.task.Some?))
            && (intent.kind == Acknowledgment ==>
                  r.1 == if status == Some("COMPLETED") then ReviewOffered(s.task.value.description)
                         else Acknowledged(status))
            && (intent.kind == Unknown ==> r.1 == Unsure)
  {
  }

  /** An audit shows the last five messages at most, the newest last, each cut to fifty. */
  lemma {:induction false} AuditExactly(s: State, history: seq<Message>, intent: Intent, message: string, call: Call,
                                        i: nat)
    requires call.Valid() && intent.kind == Auditing
    ensures var r := Execute(s, history, intent, message, call);
            && r.0 == s && r.1.Audited? && |r.1.lines| == (if |history| < 5 then |history| else 5)
            && (i < |r.1.lines| ==>
                  var m := history[|history| - |r.1.lines| + i];
                  && r.1.lines[i].role == m.role
                  && (|m.content| <= 50 ==> r.1.lines[i].content == m.content)
                  && (|m.content| > 50 ==> r.1.lines[i].content == m.content[..50] + "..."))
  {
    var last := Last(history, 5);
    assert |last| == if |history| < 5 then |history| else 5;
    assert i < |last| ==> last[i] == history[|history| - |last| + i];
  }

  /** Blocking empties the slot and stopping marks it; both raise the flag, and nothing else changes. */
  lemma {:induction false} CancelsExactly(s: State, history: seq<Message>, intent: Intent, message: string, call: Call)
    requires call.Valid()
    ensures intent.kind == Blocking ==>
              Execute(s, history, intent, message, call) == (State(s.configured, None, true), ExecutionCancelled)
    ensures s.task.Some? ==>
              var t := s.task.value;
              Stop(s) == State(s.configured, Some(Task(t.id, t.intent, t.description, "CANCELLED")), true)
    ensures s.task.None? ==> Stop(s) == s
  {
  }

  /** Refusals: without a client, and while busy. */
  lemma {:induction false} RefusesExactly(s: State, history: seq<Message>, intent: Intent, message: string, call: Call)
    requires call.Valid() && intent.kind == Execution
    ensures var r := Execute(s, history, intent, message, call);
            && (r.1 == NotConfigured <==> !s.configured)
            && (r.1 == AlreadyInProgress <==> s.configured && !LetThrough(s, intent))
            && (!LetThrough(s, intent) ==> r.0 == s)
  {
    if LetThrough(s, intent) {
      ExecutionAnswersExactly(s, history, intent, message, call);
    }
  }

  /** An investigation, read off the deciding reply within three minutes; it never changes the slot. */
  lemma {:induction false} InvestigationReads(s: State, history: seq<Message>, intent: Intent, message: string, call: Call,
                                              n: nat)
    requires intent.kind == Investigation && s.configured && call.Valid() && Launched(call)
    requires Deciding(call.session, 180000, n)
    ensures var r := Execute(s, history, intent, message, call);
            var reply := call.session.server(n);
            && r.0 == s
            && if reply.Unavailable? then r.1 == AnalysisError
               else
                 var t := reply.tasks[0];
                 if Fetched(t, reply.conversation) then
                   r.1 == Output(ConversationOutput(t.conversationId, reply.conversation.value))
                 else if Completes(reply) then r.1 == CompletedSilently
                 else if Fails(reply) then r.1 == StatusIs("FAILED")
                 else r.1 == StatusIs(Standing(t))
  {
    PollReads(call.session, call.start.id, 180000, POLL_INTERVAL);
    ObservedExactly(call.start.id, call.session.server(n));
  }

  /** Without a client it reports the task in the slot. */
  lemma {:induction false} InvestigationAlone(s: State, history: seq<Message>, intent: Intent, message: string, call: Call)
    requires intent.kind == Investigation && !s.configured && call.Valid()
    ensures Execute(s, history, intent, message, call) == (s, Analysed(s.task))
  {
  }

  /**
   * What an investigation reports: with a polite server a dispatch error, the output, a silent completion, or that it
   * failed or timed out, and then no error text.
   */
  lemma InvestigationReports(s: State, message: string, call: Call)
    requires call.Valid() && Polite(call) && s.configured
    ensures var reply := Investigate(s, message, call);
            && (reply.AnalysisError? <==> Dispatched(call, 3 * MINUTE).Failure?)
            && (reply.AnalysisError? || reply.CompletedSilently? || (reply.Output? && reply.text != "")
                || (reply.StatusIs? && reply.status in ["FAILED", "TIMEOUT"]))
  {
    if Dispatched(call, 3 * MINUTE).Success? {
      DispatchedStatus(call, 3 * MINUTE);
    }
  }

  /** A busy slot refuses every further execution and stays as it is, until it is stopped or blocked. */
  lemma {:induction false} BusyRefuses(s: State, ops: seq<Op>, last: Op)
    requires Possible(ops + [last]) && InProgress(s) && s.configured
    requires forall op | op in ops :: op.DoExecute? && op.intent.kind != Blocking
    requires last.DoExecute? && last.intent.kind == Execution
    ensures Run(s, ops) == s && Step(Run(s, ops), last) == (s, Some(AlreadyInProgress))
  {
    assert last in ops + [last];
    if ops != [] {
      var before := ops[..|ops| - 1];
      assert forall op | op in before + [last] :: op in ops + [last];
      BusyRefuses(s, before, last);
    }
  }

  // ---------- the audit listing ----------

  lemma {:induction false} OneMoreShown(history: seq<Message>, from: nat, i: nat)
    requires from <= i < |history|
    ensures AllShown(history[from..i]) + [Shown(history[i])] == AllShown(history[from..i + 1])
  {
    assert history[from..i + 1] == history[from..i] + [history[i]];
  }

  /** Where the last five begin. */
  function Fifth(history: seq<Message>): nat {
    if |history| > 5 then |history| - 5 else 0
  }

  lemma {:induction false} FromFifth(history: seq<Message>)
    ensures Last(history, 5) == history[Fifth(history)..|history|]
  {
  }

  /** handleAuditing lists the last five messages of the history, in order. */
  method AuditLines(history: seq<Message>) returns (lines: seq<Message>)
    ensures lines == AllShown(Last(history, 5))
  {
    lines := [];
    ghost var from := Fifth(history);
    for i := 0 to |history|
      invariant lines == if i <= from then [] else AllShown(history[from..i])
    {
      var m := history[i];
      if |history| > 5 && i < |history| - 5 {
        continue;
      }
      var truncated := m.content;
      if |truncated| > 50 {
        truncated := truncated[..50] + "...";
      }
      OneMoreShown(history, from, i);
      lines := lines + [Message(m.role, truncated)];
    }
    FromFifth(history);
  }

  // ---------- the object ----------

  class TaskExecution {
    var id: string
    const intent: Intent
    const description: string
    var status: string

    constructor (id: string, intent: Intent, description: string, status: string)
      ensures View() == Task(id, intent, description, status)
    {
      this.id, this.intent, this.description, this.status := id, intent, description, status;
    }

    function View(): Task
      reads this
    {
      Task(id, intent, description, status)
    }
  }

  class ExecutionLifecycle {
    const client: bool                 // whether an OpenHands client exists
    const history: History<Message>
    var activeTask: TaskExecution?
    var isCancelled: bool
    var cancelChan: Channel?
    ghost var closedChannels: set<Channel>

    ghost predicate Valid()
      reads this, activeTask, cancelChan, closedChannels
    {
      && Consistent(View())
      && cancelChan != null && !cancelChan.closed
      && forall c | c in closedChannels :: c.closed
    }

    function View(): State
      reads this, activeTask
    {
      State(client, if activeTask == null then None else Some(activeTask.View()), isCancelled)
    }

    constructor (client: bool)
      ensures Valid() && View() == State(client, None, false)
      ensures closedChannels == {} && fresh(cancelChan)
      ensures history.Valid() && history.log == [] && fresh(history)
    {
      this.client := client;
      history := new History<Message>();
      activeTask, isCancelled := null, false;
      cancelChan := new Channel();
      closedChannels := {};
    }

    /** Close the current cancel channel and put an open one in its place. */
    method Cancel()
      requires cancelChan != null && !cancelChan.closed
      requires forall c | c in closedChannels :: c.closed
      modifies this`isCancelled, this`cancelChan, this`closedChannels, cancelChan
      ensures isCancelled
      ensures cancelChan != null && !cancelChan.closed && fresh(cancelChan)
      ensures closedChannels == old(closedChannels) + {old(cancelChan)}
      ensures forall c | c in closedChannels :: c.closed
    {
      isCancelled := true;
      cancelChan.Close();
      closedChannels := closedChannels + {cancelChan};
      cancelChan := new Channel();
    }

    method DoExecution(intent: Intent, message: string, call: Call) returns (reply: Reply)
      requires Valid() && call.Valid() && intent.kind == Execution
      modifies this`activeTask, this`isCancelled
      ensures Valid() && cancelChan == old(cancelChan) && closedChannels == old(closedChannels)
      ensures (View(), reply) == HandleExecution(old(View()), intent, message, call)
      ensures activeTask == old(activeTask) || fresh(activeTask)
    {
      if !client {
        return NotConfigured;
      }
      if activeTask != null && (activeTask.status == "RUNNING" || activeTask.status == "IN_PROGRESS") {
        return AlreadyInProgress;
      }
      var description := intent.task;
      if description == "" {
        description := message;
      }
      isCancelled := false;
      activeTask := new TaskExecution("", intent, description, "RUNNING");
      var timeout := 10 * MINUTE;
      if intent.urgency == "high" {
        timeout := 5 * MINUTE;
      }
      var result := Dispatch(call, timeout);
      if result.Failure? {
        activeTask.status := "FAILED";
        return ExecutionError;
      }
      activeTask.id := result.value.taskId;
      if result.value.status == "COMPLETED" {
        activeTask.status := "COMPLETED";
        if result.value.output != "" {
          return Output(result.value.output);
        }
        return CompletedSilently;
      }
      if result.value.status == "FAILED" {
        activeTask.status := "FAILED";
        return ExecutionFailed(result.value.error);
      }
      activeTask.status := result.value.status;
      return StatusIs(result.value.status);
    }

    method DoInvestigation(message: string, call: Call) returns (reply: Reply)
      requires call.Valid()
      ensures reply == Investigate(View(), message, call)
    {
      if client {
        var result := Dispatch(call, 3 * MINUTE);
        if result.Failure? {
          return AnalysisError;
        }
        if result.value.output != "" {
          return Output(result.value.output);
        }
        if result.value.status == "COMPLETED" {
          return CompletedSilently;
        }
        return StatusIs(result.value.status);
      }
      return Analysed(if activeTask == null then None else Some(activeTask.View()));
    }

    method CurrentTaskStatus() returns (status: Option<string>)
      ensures status == CurrentStatus(View())
    {
      if activeTask != null {
        return Some(activeTask.status);
      }
      return None;
    }

    method DoAcknowledge() returns (reply: Reply)
      ensures reply == Acknowledge(View())
    {
      if activeTask != null && activeTask.status == "COMPLETED" {
        return ReviewOffered(activeTask.description);
      }
      var status := CurrentTaskStatus();
      return Acknowledged(status);
    }

    method DoAuditing() returns (reply: Reply)
      requires history.Valid()
      ensures reply == Audited(AllShown(Last(history.Contents(), 5)))
    {
      var lines := AuditLines(history.backing[history.off..history.off + history.len]);
      return Audited(lines);
    }

    /** Execute with an intent, or with none: then the message decides. */
    method Perform(given: Option<Intent>, toLower: char -> char, message: string, call: Call)
      returns (reply: Reply, ghost intent: Intent)
      requires Valid() && call.Valid() && history.Valid()
      modifies this, cancelChan
      ensures Valid()
      ensures given.Some? ==> intent == given.value
      ensures given.None? ==>
                intent == Inferred(if InfersExecution(Fold(toLower, message), EXECUTION_TRIGGERS, INVESTIGATION_TRIGGERS)
                                   then Execution else Investigation, message)
      ensures (View(), reply) == Execute(old(View()), old(history.Contents()), intent, message, call)
      ensures cancelChan == old(cancelChan) || fresh(cancelChan)
      ensures intent.kind == Blocking ==> closedChannels == old(closedChannels) + {old(cancelChan)}
      ensures intent.kind != Blocking ==> closedChannels == old(closedChannels) && cancelChan == old(cancelChan)
      ensures activeTask == old(activeTask) || activeTask == null || fresh(activeTask)
    {
      var chosen;
      if given.None? {
        chosen := InferMissing(Fold(toLower, message), message, EXECUTION_TRIGGERS, INVESTIGATION_TRIGGERS);
      } else {
        chosen := given.value;
      }
      intent := chosen;
      match chosen.kind {
        case Blocking =>
          Cancel();
          activeTask := null;
          reply := ExecutionCancelled;
        case Investigation => reply := DoInvestigation(message, call);
        case Execution => reply := DoExecution(chosen, message, call);
        case Planning =>
          var status := CurrentTaskStatus();
          reply := Planned(status);
        case Prioritization =>
          var status := CurrentTaskStatus();
          reply := Prioritized(status);
        case Auditing => reply := DoAuditing();
        case Clarification => reply := AskedWhether(activeTask != null);
        case Acknowledgment => reply := DoAcknowledge();
        case Unknown => reply := Unsure;
      }
    }

    /** StopExecution; false when there is nothing to stop. */
    method StopExecution() returns (stopped: bool)
      requires Valid()
      modifies this`isCancelled, this`cancelChan, this`closedChannels, cancelChan, activeTask
      ensures Valid()
      ensures View() == Stop(old(View())) && stopped == old(View()).task.Some?
      ensures stopped ==> fresh(cancelChan) && closedChannels == old(closedChannels) + {old(cancelChan)}
      ensures !stopped ==> cancelChan == old(cancelChan) && closedChannels == old(closedChannels)
    {
      if activeTask == null {
        return false;
      }
      if cancelChan != null {
        Cancel();
      }
      activeTask.status := "CANCELLED";
      return true;
    }

    method IsExecuting() returns (b: bool)
      ensures b == Executing(View())
    {
      b := activeTask != null
           && (activeTask.status == "RUNNING" || activeTask.status == "IN_PROGRESS" || activeTask.status == "STARTING");
    }
  }
}
