/** The OpenHands client: status mapping, and the deadline-bounded poll over an arbitrary stream of server replies. */
module OpenHands {
  import opened Wrappers
  import opened Clock
  import opened Text

  /** An absent conversation id is "". */
  datatype TaskStatus = TaskStatus(id: string, status: string, conversationId: string, error: string)

  datatype Conversation = Conversation(
    executionStatus: string, sandboxStatus: string, llmModel: string, title: string)

  /** One poll: no usable answer, or the task list and what fetching the conversation would yield. */
  datatype Answer =
    | Unavailable
    | Reply(tasks: seq<TaskStatus>, conversation: Option<Conversation>)

  /** A conversation with a title has its id cut at eight characters; a shorter one is a panic. */
  predicate Sliceable(id: string, conversation: Option<Conversation>) {
    conversation.Some? && conversation.value.title != "" ==> |id| >= 8
  }

  /** An answer that does not run into that panic. */
  type StatusReply = a: Answer |
    a.Reply? && a.tasks != [] && a.tasks[0].status == "READY" && a.tasks[0].conversationId != "" ==>
      Sliceable(a.tasks[0].conversationId, a.conversation)
    witness Unavailable

  datatype StartReply =
    | NotStarted
    | Started(id: string)

  datatype ExecutionResult = ExecutionResult(
    taskId: string, conversationId: string, status: string, error: string, output: string)

  // ---------- one poll ----------

  method GetConversationDetails(id: string, reply: Option<Conversation>) returns (r: Result<string>)
    requires Sliceable(id, reply)
    ensures r == match reply
                 case None => Failure
                 case Some(c) => Success(ConversationOutput(id, c))
  {
    if reply.None? {
      return Failure;
    }
    var c := reply.value;
    var output := "";
    if c.executionStatus == "finished" {
      output := "\U{2713} Task completed successfully.\n\n";
    }
    if c.sandboxStatus != "" {
      output := output + ("Runtime: " + c.sandboxStatus + "\n");
    }
    if c.llmModel != "" {
      output := output + ("Model: " + c.llmModel + "\n");
    }
    if c.title != "" && c.title != "Conversation " + id[..8] {
      output := output + ("Title: " + c.title + "\n");
    }
    if output == "" {
      output := "Execution: " + c.executionStatus;
    }
    return Success(output);
  }

  function Line(output: string, tag: string, text: string): string {
    if text == "" then output else output + (tag + text + "\n")
  }

  /** A title that is only the generated one is not shown. */
  function ShownTitle(id: string, title: string): string
    requires title != "" ==> |id| >= 8
  {
    if title == "" || title == "Conversation " + id[..8] then "" else title
  }

  /** The text built from a conversation: never empty, whatever the server says about it. */
  function ConversationOutput(id: string, c: Conversation): (output: string)
    requires Sliceable(id, Some(c))
    ensures output != ""
  {
    var done := if c.executionStatus == "finished" then "\U{2713} Task completed successfully.\n\n" else "";
    var runtime := Line(done, "Runtime: ", c.sandboxStatus);
    var model := Line(runtime, "Model: ", c.llmModel);
    var all := Line(model, "Title: ", ShownTitle(id, c.title));
    if all == "" then "Execution: " + c.executionStatus else all
  }

  predicate Fetched(t: TaskStatus, conversation: Option<Conversation>) {
    t.status == "READY" && t.conversationId != "" && conversation.Some?
  }

  /** A READY task counts as completed as soon as its conversation can be fetched at all. */
  function MappedStatus(status: string, fetched: bool): string {
    if status == "READY" then if fetched then "COMPLETED" else "RUNNING"
    else if status == "IN_PROGRESS" then "RUNNING"
    else if status == "FINISHED" then "COMPLETED"
    else if status == "ERROR" then "FAILED"
    else status
  }

  function Observe(taskId: string, reply: StatusReply): Result<ExecutionResult> {
    match reply
    case Unavailable => Failure
    case Reply(tasks, conversation) =>
      if tasks == [] then Success(ExecutionResult(taskId, "", "UNKNOWN", "", ""))
      else
        var t := tasks[0];
        var fetched := Fetched(t, conversation);
        Success(ExecutionResult(t.id, t.conversationId, MappedStatus(t.status, fetched), t.error,
                                if fetched then ConversationOutput(t.conversationId, conversation.value) else ""))
  }

  method GetExecutionStatus(taskId: string, reply: StatusReply) returns (r: Result<ExecutionResult>)
    ensures r == Observe(taskId, reply)
  {
    if reply.Unavailable? {
      return Failure;
    }
    if |reply.tasks| == 0 {
      return Success(ExecutionResult(taskId, "", "UNKNOWN", "", ""));
    }
    var t := reply.tasks[0];
    var result := ExecutionResult(t.id, t.conversationId, t.status, t.error, "");
    if t.status == "READY" && t.conversationId != "" {
      var details := GetConversationDetails(t.conversationId, reply.conversation);
      if details.Success? && details.value != "" {
        result := result.(output := details.value);
      }
    }
    match t.status {
      case "READY" =>
        if result.output != "" {
          result := result.(status := "COMPLETED");
        } else {
          result := result.(status := "RUNNING");
        }
      case "IN_PROGRESS" => result := result.(status := "RUNNING");
      case "FINISHED" => result := result.(status := "COMPLETED");
      case "ERROR" => result := result.(status := "FAILED");
      case _ =>
    }
    return Success(result);
  }

  // ---------- the poll loop ----------

  /** The server's replies, the clock at each loop test, and the reading the deadline is computed from. */
  datatype Session = Session(server: nat -> StatusReply, clock: nat -> int, began: int) {
    ghost predicate Valid(interval: int) {
      interval > 0 && began <= clock(0) && Ticks(clock, interval)
    }
  }

  predicate Terminal(r: ExecutionResult) {
    r.status == "COMPLETED" || r.status == "FAILED" || r.error != ""
  }

  /** A reply the loop passes over. */
  predicate Quiet(taskId: string, reply: StatusReply) {
    var r := Observe(taskId, reply);
    r.Success? && !Terminal(r.value)
  }

  const TIMED_OUT := "execution timed out"

  function TimedOut(taskId: string): ExecutionResult {
    ExecutionResult(taskId, "", "TIMEOUT", TIMED_OUT, "")
  }

  function Poll(s: Session, taskId: string, timeout: int, interval: int, k: nat): Result<ExecutionResult>
    requires s.Valid(interval)
    decreases s.began + timeout - s.clock(k)
  {
    if s.clock(k) >= s.began + timeout then Success(TimedOut(taskId))
    else if Quiet(taskId, s.server(k)) then
      assert s.clock(k + 1) >= s.clock(k) + interval;
      Poll(s, taskId, timeout, interval, k + 1)
    else Observe(taskId, s.server(k))
  }

  method PollExecution(s: Session, taskId: string, timeout: int, interval: int)
    returns (r: Result<ExecutionResult>)
    requires s.Valid(interval)
    ensures r == Poll(s, taskId, timeout, interval, 0)
  {
    var deadline := s.began + timeout;
    var k: nat := 0;
    while s.clock(k) < deadline
      invariant Poll(s, taskId, timeout, interval, 0) == Poll(s, taskId, timeout, interval, k)
      decreases deadline - s.clock(k)
    {
      r := GetExecutionStatus(taskId, s.server(k));
      if r.Failure? {
        return;
      }
      if r.value.status == "COMPLETED" || r.value.status == "FAILED" {
        return;
      }
      if r.value.error != "" {
        return;
      }
      assert s.clock(k + 1) >= s.clock(k) + interval;
      k := k + 1;
    }
    return Success(ExecutionResult(taskId, "", "TIMEOUT", TIMED_OUT, ""));
  }

  /** The result comes from the first reply that is not quiet, or says TIMEOUT; n replies were passed over. */
  ghost predicate StopsAt(s: Session, taskId: string, timeout: int, n: nat, r: Result<ExecutionResult>) {
    && (forall i: nat | i < n :: Quiet(taskId, s.server(i)))
    && if s.clock(n) < s.began + timeout
       then !Quiet(taskId, s.server(n)) && r == Observe(taskId, s.server(n))
       else r == Success(TimedOut(taskId))
  }

  lemma {:induction false} PollStops(s: Session, taskId: string, timeout: int, interval: int, k: nat) returns (n: nat)
    requires s.Valid(interval)
    requires forall i: nat | i < k :: Quiet(taskId, s.server(i))
    ensures StopsAt(s, taskId, timeout, n, Poll(s, taskId, timeout, interval, k))
    ensures n == k || (n > k && s.clock(n - 1) < s.began + timeout)
    decreases s.began + timeout - s.clock(k)
  {
    n := k;
    if s.clock(k) < s.began + timeout && Quiet(taskId, s.server(k)) {
      assert s.clock(k + 1) >= s.clock(k) + interval;
      n := PollStops(s, taskId, timeout, interval, k + 1);
    }
  }

  /** The first terminal reply or TIMEOUT, after at most ceil(timeout / interval) polls. */
  lemma PollReturnsFirstTerminal(s: Session, taskId: string, timeout: int, interval: int) returns (n: nat)
    requires s.Valid(interval)
    ensures StopsAt(s, taskId, timeout, n, Poll(s, taskId, timeout, interval, 0))
    ensures (if s.clock(n) < s.began + timeout then n + 1 else n) <= Attempts(timeout, interval)
  {
    n := PollStops(s, taskId, timeout, interval, 0);
    Elapsed(s.clock, interval, n);
    if s.clock(n) < s.began + timeout {
      AttemptsBound(timeout, interval, n);
    } else if n > 0 {
      Elapsed(s.clock, interval, n - 1);
      AttemptsBound(timeout, interval, n - 1);
    }
  }

  lemma {:induction false} PollPassesOver(s: Session, taskId: string, timeout: int, interval: int, k: nat, n: nat)
    requires s.Valid(interval) && k <= n
    requires s.clock(n) < s.began + timeout && forall i: nat | k <= i < n :: Quiet(taskId, s.server(i))
    ensures Poll(s, taskId, timeout, interval, k) == Poll(s, taskId, timeout, interval, n)
    decreases n - k
  {
    if k < n {
      NeverBackwards(s.clock, interval, k, n);
      PollPassesOver(s, taskId, timeout, interval, k + 1, n);
    }
  }

  /** A reply that says the task is done, or whose READY task has a conversation that can be fetched. */
  predicate Completes(reply: StatusReply) {
    && reply.Reply? && reply.tasks != []
    && (reply.tasks[0].status in ["FINISHED", "COMPLETED"] || Fetched(reply.tasks[0], reply.conversation))
  }

  /** A reply that says the task failed. */
  predicate Fails(reply: StatusReply) {
    reply.Reply? && reply.tasks != [] && reply.tasks[0].status in ["ERROR", "FAILED"]
  }

  /** A reply that says neither, but reports an error. */
  predicate Complains(reply: StatusReply) {
    reply.Reply? && reply.tasks != [] && !Completes(reply) && !Fails(reply) && reply.tasks[0].error != ""
  }

  /** A reply that is not passed over. */
  predicate Decides(reply: StatusReply) {
    reply.Unavailable? || Completes(reply) || Fails(reply) || Complains(reply)
  }

  /** What the server says of a task that is neither done nor failed; a READY task counts as running. */
  function Standing(t: TaskStatus): string {
    if t.status in ["READY", "IN_PROGRESS"] then "RUNNING" else t.status
  }

  /** One poll, read off the reply. */
  lemma {:induction false} ObservedExactly(taskId: string, reply: StatusReply)
    ensures var r := Observe(taskId, reply);
            && (r.Failure? <==> reply.Unavailable?)
            && (r.Success? && r.value.status == "COMPLETED" <==> Completes(reply))
            && (r.Success? && r.value.status == "FAILED" <==> Fails(reply))
            && (Quiet(taskId, reply) <==> !Decides(reply))
            && (reply.Reply? && reply.tasks == [] ==> r.value == ExecutionResult(taskId, "", "UNKNOWN", "", ""))
            && (reply.Reply? && reply.tasks != [] ==>
                  var t := reply.tasks[0];
                  && r.value.taskId == t.id && r.value.conversationId == t.conversationId && r.value.error == t.error
                  && (!Completes(reply) && !Fails(reply) ==> r.value.status == Standing(t))
                  && (r.value.output != "" <==> Fetched(t, reply.conversation)))
  {
  }

  /** Reply n comes in time, and every earlier one is passed over. */
  ghost predicate Reached(s: Session, taskId: string, timeout: int, n: nat) {
    s.clock(n) < s.began + timeout && forall i: nat | i < n :: Quiet(taskId, s.server(i))
  }

  /** The first reply that is not passed over, if it comes in time. */
  ghost predicate Deciding(s: Session, timeout: int, n: nat) {
    && s.clock(n) < s.began + timeout && Decides(s.server(n))
    && forall i: nat | i < n :: !Decides(s.server(i))
  }

  /** A poll returns what the deciding reply says, or TIMEOUT when none comes. */
  lemma {:induction false} PollReads(s: Session, taskId: string, timeout: int, interval: int)
    requires s.Valid(interval)
    ensures forall n: nat | Deciding(s, timeout, n) :: Poll(s, taskId, timeout, interval, 0) == Observe(taskId, s.server(n))
    ensures (forall n: nat :: !Deciding(s, timeout, n)) ==>
              Poll(s, taskId, timeout, interval, 0) == Success(ExecutionResult(taskId, "", "TIMEOUT", TIMED_OUT, ""))
  {
    forall reply: StatusReply
      ensures Quiet(taskId, reply) <==> !Decides(reply)
    {
      ObservedExactly(taskId, reply);
    }
    forall n: nat | Deciding(s, timeout, n)
      ensures Poll(s, taskId, timeout, interval, 0) == Observe(taskId, s.server(n))
    {
      PollPassesOver(s, taskId, timeout, interval, 0, n);
    }
    var n := PollStops(s, taskId, timeout, interval, 0);
    if s.clock(n) < s.began + timeout {
      assert Deciding(s, timeout, n);
    }
  }

  /** There is at most one such reply. */
  lemma {:induction false} DecidingIsUnique(s: Session, timeout: int, m: nat, n: nat)
    requires Deciding(s, timeout, m) && Deciding(s, timeout, n)
    ensures m == n
  {
  }

  // ---------- what the text of a conversation shows ----------

  lemma {:induction false} LineKeeps(output: string, tag: string, text: string)
    ensures output <= Line(output, tag, text)
    ensures text != "" ==> Line(output, tag, text) == output + tag + text + "\n"
    ensures text == "" ==> Line(output, tag, text) == output
  {
    assert output + (tag + text + "\n") == output + tag + text + "\n";
  }

  lemma {:induction false} PrefixContains(p: string, s: string, x: string)
    requires p <= s && Contains(p, x)
    ensures Contains(s, x)
  {
    var rest := s[|p|..];
    assert s == "" + p + rest;
    ContainsEmbedded("", p, rest, x);
  }

  lemma {:induction false} EndContains(a: string, b: string, c: string, d: string)
    ensures Contains(a + b + c + d, b + c + d)
  {
    assert a + b + c + d == a + (b + c + d) + "";
    assert At(b + c + d, b + c + d, 0);
    ContainsEmbedded(a, b + c + d, "", b + c + d);
  }

  /** It shows the runtime, the model and a title of its own, and opens with success exactly for a finished execution. */
  lemma {:induction false} OutputShows(id: string, c: Conversation)
    requires Sliceable(id, Some(c))
    ensures var output := ConversationOutput(id, c);
            && (c.executionStatus == "finished" ==> "\U{2713} Task completed successfully.\n\n" <= output)
            && (c.sandboxStatus != "" ==> Contains(output, "Runtime: " + c.sandboxStatus + "\n"))
            && (c.llmModel != "" ==> Contains(output, "Model: " + c.llmModel + "\n"))
            && (c.title != "" && c.title != "Conversation " + id[..8] ==> Contains(output, "Title: " + c.title + "\n"))
            && (c.executionStatus != "finished" && c.sandboxStatus == "" && c.llmModel == "" && c.title == "" ==>
                  output == "Execution: " + c.executionStatus)
  {
    var done := if c.executionStatus == "finished" then "\U{2713} Task completed successfully.\n\n" else "";
    var runtime := Line(done, "Runtime: ", c.sandboxStatus);
    var model := Line(runtime, "Model: ", c.llmModel);
    var title := ShownTitle(id, c.title);
    var all := Line(model, "Title: ", title);
    LineKeeps(done, "Runtime: ", c.sandboxStatus);
    LineKeeps(runtime, "Model: ", c.llmModel);
    LineKeeps(model, "Title: ", title);
    if c.sandboxStatus != "" {
      EndContains(done, "Runtime: ", c.sandboxStatus, "\n");
      PrefixContains(runtime, all, "Runtime: " + c.sandboxStatus + "\n");
    }
    if c.llmModel != "" {
      EndContains(runtime, "Model: ", c.llmModel, "\n");
      PrefixContains(model, all, "Model: " + c.llmModel + "\n");
    }
    if title != "" {
      EndContains(model, "Title: ", title, "\n");
    }
  }

  /**
   * The first READY reply whose conversation can be fetched ends the poll as COMPLETED with some output,
   * whatever execution status the conversation reports.
   */
  lemma ReadyEndsPoll(s: Session, taskId: string, timeout: int, interval: int, n: nat)
    requires s.Valid(interval) && Reached(s, taskId, timeout, n)
    requires s.server(n).Reply? && s.server(n).tasks != [] && Fetched(s.server(n).tasks[0], s.server(n).conversation)
    ensures var r := Poll(s, taskId, timeout, interval, 0);
            r.Success? && r.value.status == "COMPLETED" && r.value.output != "" && r.value.taskId == s.server(n).tasks[0].id
  {
    PollPassesOver(s, taskId, timeout, interval, 0, n);
  }

  /** COMPLETED is reported exactly when such a reply is reached. */
  lemma CompletedExactly(s: Session, taskId: string, timeout: int, interval: int)
    requires s.Valid(interval)
    ensures var r := Poll(s, taskId, timeout, interval, 0);
            r.Success? && r.value.status == "COMPLETED" <==>
              exists n: nat | Reached(s, taskId, timeout, n) :: Completes(s.server(n))
  {
    var n := PollStops(s, taskId, timeout, interval, 0);
    if s.clock(n) < s.began + timeout {
      assert Reached(s, taskId, timeout, n);
    }
    forall m: nat | Reached(s, taskId, timeout, m) && Completes(s.server(m))
      ensures Poll(s, taskId, timeout, interval, 0) == Observe(taskId, s.server(m))
    {
      PollPassesOver(s, taskId, timeout, interval, 0, m);
    }
  }

  /** The same reply to every poll, five seconds apart. */
  function Always(reply: StatusReply): Session {
    Session(k => reply, k => k * 5000, 0)
  }

  const STILL_RUNNING: StatusReply :=
    Reply([TaskStatus("t", "READY", "c", "")], Some(Conversation("running", "", "", "")))

  /** A conversation that says it is still running is reported COMPLETED by the first poll. */
  lemma RunningReportedCompleted(timeout: nat)
    requires timeout > 0
    ensures var s := Always(STILL_RUNNING);
            && s.Valid(5000)
            && Poll(s, "t", timeout, 5000, 0) == Success(ExecutionResult("t", "c", "COMPLETED", "", "Execution: running"))
  {
    var s := Always(STILL_RUNNING);
    assert s.clock(0) == 0 && s.server(0) == STILL_RUNNING;
    var c := STILL_RUNNING.conversation.value;
    assert ConversationOutput("c", c) == "Execution: running" by {
      assert "Execution: " + "running" == "Execution: running";
    }
    assert Observe("t", STILL_RUNNING) == Success(ExecutionResult("t", "c", "COMPLETED", "", "Execution: running"));
  }

  // ---------- dispatch ----------

  const SECOND := 1000
  const MINUTE := 60 * SECOND
  const POLL_INTERVAL := 5 * SECOND

  /** One call of Dispatch: the answer to the start request and the polling session after it. */
  datatype Call = Call(start: StartReply, session: Session) {
    ghost predicate Valid() {
      session.Valid(POLL_INTERVAL)
    }
  }

  function Dispatched(call: Call, timeout: int): Result<ExecutionResult>
    requires call.Valid()
  {
    if call.start.NotStarted? || call.start.id == "" then Failure
    else Poll(call.session, call.start.id, timeout, POLL_INTERVAL, 0)
  }

  method Dispatch(call: Call, timeout: int) returns (r: Result<ExecutionResult>)
    requires call.Valid()
    ensures r == Dispatched(call, timeout)
  {
    if call.start.NotStarted? {
      return Failure;
    }
    if call.start.id == "" {
      return Failure;
    }
    r := PollExecution(call.session, call.start.id, timeout, POLL_INTERVAL);
  }

  /** The lifecycle's three timeouts allow 36, 60 and 120 polls. */
  lemma LifecycleAttempts()
    ensures Attempts(3 * MINUTE, POLL_INTERVAL) == 36
    ensures Attempts(5 * MINUTE, POLL_INTERVAL) == 60
    ensures Attempts(10 * MINUTE, POLL_INTERVAL) == 120
  {
  }

  /** A server that reports an error only together with a final status. */
  ghost predicate Polite(call: Call) {
    call.start.Started? ==>
      forall k: nat ::
        var r := Observe(call.start.id, call.session.server(k));
        r.Success? && r.value.error != "" ==> r.value.status == "COMPLETED" || r.value.status == "FAILED"
  }

  /** What a dispatch can come back with. */
  lemma DispatchedStatus(call: Call, timeout: int)
    requires call.Valid() && Dispatched(call, timeout).Success?
    ensures var r := Dispatched(call, timeout).value;
            && (Terminal(r) || r.status == "TIMEOUT")
            && (Polite(call) ==> r.status in {"COMPLETED", "FAILED", "TIMEOUT"})
  {
    var n := PollReturnsFirstTerminal(call.session, call.start.id, timeout, POLL_INTERVAL);
    var r := Observe(call.start.id, call.session.server(n));
  }
}
