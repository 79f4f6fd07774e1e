/** The workflow dispatcher: the table of runs, and polling or cancelling them over arbitrary replies. */
module Dispatching {
  import opened Wrappers
  import opened Text
  import opened Clock
  import opened Urls

  datatype Run = Run(runId: int, task: string, status: string, conclusion: string)

  type Runs = map<string, Run>

  /** run_id is 0 when the reply body carries none. */
  datatype DispatchReply =
    | NoDispatchReply
    | DispatchAnswer(code: int, runId: int)

  datatype StatusReply =
    | NoStatusReply
    | StatusAnswer(code: int, status: string, conclusion: string)

  datatype CancelReply =
    | NoCancelReply
    | CancelAnswer(code: int)

  predicate Accepted(reply: DispatchReply) {
    reply.DispatchAnswer? && reply.code in [204, 201, 200]
  }

  function Queued(runId: int, task: string): Run {
    Run(runId, task, "queued", "")
  }

  /** What one status reply does to a run; `asks` says whether there is a token and the request can be built. */
  function Refreshed(run: Run, asks: bool, reply: StatusReply): Run {
    if !asks || reply.NoStatusReply? || reply.code != 200 then run
    else if reply.status == "completed" && reply.conclusion != "success" then
      run.(status := "failed", conclusion := reply.conclusion)
    else run.(status := reply.status, conclusion := reply.conclusion)
  }

  const NOT_FOUND := Run(0, "", "not_found", "")

  function AfterStatus(runs: Runs, asks: bool, id: string, reply: StatusReply): Runs {
    if id in runs then runs[id := Refreshed(runs[id], asks, reply)] else runs
  }

  function StatusOf(runs: Runs, id: string): Run {
    if id in runs then runs[id] else NOT_FOUND
  }

  predicate CancelAccepted(token: bool, reply: CancelReply) {
    token && reply.CancelAnswer? && reply.code in [204, 200]
  }

  function AfterCancel(runs: Runs, token: bool, id: string, reply: CancelReply): Runs {
    if CancelAccepted(token, reply) && id in runs then runs[id := runs[id].(status := "cancelled")] else runs
  }

  /** Every run is filed under its decimal id, and reads completed only with conclusion success. */
  ghost predicate Honest(runs: Runs) {
    forall id | id in runs ::
      && id == Decimal(runs[id].runId)
      && (runs[id].status == "completed" ==> runs[id].conclusion == "success")
  }

  // ---------- polling one run to its end ----------

  datatype Session = Session(server: nat -> StatusReply, clock: nat -> int, began: int) {
    ghost predicate Valid(interval: int) {
      interval > 0 && began <= clock(0) && Ticks(clock, interval)
    }
  }

  predicate Final(run: Run) {
    run.status in ["completed", "failed", "not_found"]
  }

  const TIMED_OUT := Run(0, "unknown", "timeout", "")

  function Polled(s: Session, runs: Runs, asks: bool, id: string, timeout: int, interval: int, k: nat): (Runs, Run)
    requires s.Valid(interval)
    decreases s.began + timeout - s.clock(k)
  {
    if s.clock(k) >= s.began + timeout then (runs, TIMED_OUT)
    else
      var next := AfterStatus(runs, asks, id, s.server(k));
      if Final(StatusOf(next, id)) then (next, StatusOf(next, id))
      else
        assert s.clock(k + 1) >= s.clock(k) + interval;
        Polled(s, next, asks, id, timeout, interval, k + 1)
  }

  /** What a status or cancel reply for `id` leaves of the table. */
  ghost predicate OnlyTouches(before: Runs, after: Runs, id: string) {
    after.Keys == before.Keys && forall other | other in before && other != id :: after[other] == before[other]
  }

  lemma {:induction false} StatusStaysHonest(runs: Runs, asks: bool, id: string, reply: StatusReply)
    requires Honest(runs)
    ensures Honest(AfterStatus(runs, asks, id, reply)) && OnlyTouches(runs, AfterStatus(runs, asks, id, reply), id)
  {
  }

  lemma {:induction false} CancelStaysHonest(runs: Runs, token: bool, id: string, reply: CancelReply)
    requires Honest(runs)
    ensures Honest(AfterCancel(runs, token, id, reply)) && OnlyTouches(runs, AfterCancel(runs, token, id, reply), id)
  {
  }

  lemma {:induction false} RepliesStayHonest(runs: Runs, asks: bool, token: bool, id: string, status: StatusReply,
                                             cancel: CancelReply)
    requires Honest(runs)
    ensures Honest(AfterStatus(runs, asks, id, status)) && OnlyTouches(runs, AfterStatus(runs, asks, id, status), id)
    ensures Honest(AfterCancel(runs, token, id, cancel)) && OnlyTouches(runs, AfterCancel(runs, token, id, cancel), id)
  {
    StatusStaysHonest(runs, asks, id, status);
    CancelStaysHonest(runs, token, id, cancel);
  }

  lemma {:induction false} PolledTable(s: Session, runs: Runs, asks: bool, id: string, timeout: int, interval: int, k: nat)
    requires s.Valid(interval) && Honest(runs)
    ensures var after := Polled(s, runs, asks, id, timeout, interval, k).0;
            Honest(after) && OnlyTouches(runs, after, id)
    decreases s.began + timeout - s.clock(k)
  {
    if s.clock(k) < s.began + timeout {
      var next := AfterStatus(runs, asks, id, s.server(k));
      RepliesStayHonest(runs, asks, true, id, s.server(k), NoCancelReply);
      if !Final(StatusOf(next, id)) {
        assert s.clock(k + 1) >= s.clock(k) + interval;
        PolledTable(s, next, asks, id, timeout, interval, k + 1);
      }
    }
  }

  /** n rounds pass without a final state; then comes one, or the deadline. */
  lemma {:induction false} PolledStops(s: Session, runs: Runs, asks: bool, id: string, timeout: int, interval: int, k: nat)
    returns (n: nat)
    requires s.Valid(interval)
    ensures var r := Polled(s, runs, asks, id, timeout, interval, k);
            if s.clock(n) < s.began + timeout then Final(r.1) && r.1 == StatusOf(r.0, id) else r.1 == TIMED_OUT
    ensures n == k || (n > k && s.clock(n - 1) < s.began + timeout)
    decreases s.began + timeout - s.clock(k)
  {
    n := k;
    if s.clock(k) < s.began + timeout {
      var next := AfterStatus(runs, asks, id, s.server(k));
      if !Final(StatusOf(next, id)) {
        assert s.clock(k + 1) >= s.clock(k) + interval;
        n := PolledStops(s, next, asks, id, timeout, interval, k + 1);
      }
    }
  }

  /**
   * PollRun ends in one of four states after at most ceil(timeout / interval) polls; a completed run it
   * returns has succeeded; no other run of the table changes.
   */
  lemma {:induction false} PolledEnds(s: Session, runs: Runs, asks: bool, id: string, timeout: int, interval: int) returns (polls: nat)
    requires s.Valid(interval) && Honest(runs)
    ensures polls <= Attempts(timeout, interval)
    ensures var r := Polled(s, runs, asks, id, timeout, interval, 0);
            && r.1.status in ["completed", "failed", "not_found", "timeout"]
            && (r.1.status == "completed" ==> r.1.conclusion == "success")
            && Honest(r.0) && OnlyTouches(runs, r.0, id)
            && (if r.1.status == "timeout" then s.clock(polls) >= s.began + timeout
                else polls > 0 && s.clock(polls - 1) < s.began + timeout)
  {
    PolledTable(s, runs, asks, id, timeout, interval, 0);
    var n := PolledStops(s, runs, asks, id, timeout, interval, 0);
    Elapsed(s.clock, interval, n);
    polls := n;
    if s.clock(n) < s.began + timeout {
      AttemptsBound(timeout, interval, n);
      polls := n + 1;
    } else if n > 0 {
      Elapsed(s.clock, interval, n - 1);
      AttemptsBound(timeout, interval, n - 1);
    }
  }

  // ---------- what one reply does ----------

  /** A reply that is read at all. */
  predicate Read(asks: bool, reply: StatusReply) {
    asks && reply.StatusAnswer? && reply.code == 200
  }

  /** A status reply sets the run's status and conclusion, except that a completion without success reads failed. */
  lemma {:induction false} StatusExactly(runs: Runs, asks: bool, id: string, reply: StatusReply)
    requires id in runs
    ensures var was, now := runs[id], AfterStatus(runs, asks, id, reply)[id];
            && now.runId == was.runId && now.task == was.task
            && (!Read(asks, reply) ==> now == was)
            && (Read(asks, reply) ==>
                  && now.conclusion == reply.conclusion
                  && (now.status == "completed" <==> reply.status == "completed" && reply.conclusion == "success")
                  && (now.status == "failed" <==>
                        reply.status == "failed" || (reply.status == "completed" && reply.conclusion != "success"))
                  && (reply.status != "completed" ==> now.status == reply.status))
  {
  }

  /** An accepted cancel makes a known run read cancelled and changes nothing else; any other leaves the table alone. */
  lemma {:induction false} CancelExactly(runs: Runs, token: bool, id: string, reply: CancelReply)
    ensures var after := AfterCancel(runs, token, id, reply);
            var accepted := token && reply.CancelAnswer? && (reply.code == 204 || reply.code == 200);
            && OnlyTouches(runs, after, id)
            && (id in runs ==>
                  after[id] == Run(runs[id].runId, runs[id].task, if accepted then "cancelled" else runs[id].status,
                                   runs[id].conclusion))
  {
  }

  /** Looking up: the run as filed, or one that reads not_found. */
  lemma {:induction false} StatusOfExactly(runs: Runs, id: string)
    ensures id in runs ==> StatusOf(runs, id) == runs[id]
    ensures id !in runs ==> StatusOf(runs, id) == Run(0, "", "not_found", "")
  {
  }

  // ---------- when no status request can be built ----------

  /** What only dispatches and cancels make of a run. */
  predicate Unpolled(run: Run) {
    run.status in ["queued", "cancelled"] && run.conclusion == ""
  }

  /** Then a poll reads no reply: it leaves the table alone and ends at the deadline, unless the run is unknown. */
  lemma {:induction false} UnaskedPoll(s: Session, runs: Runs, id: string, timeout: int, interval: int, k: nat)
    requires s.Valid(interval) && forall id | id in runs :: Unpolled(runs[id])
    ensures Polled(s, runs, false, id, timeout, interval, k)
         == (runs, if s.clock(k) < s.began + timeout && id !in runs then NOT_FOUND else TIMED_OUT)
    decreases s.began + timeout - s.clock(k)
  {
    if s.clock(k) < s.began + timeout {
      assert AfterStatus(runs, false, id, s.server(k)) == runs;
      if id in runs {
        assert Unpolled(runs[id]);
        assert s.clock(k + 1) >= s.clock(k) + interval;
        UnaskedPoll(s, runs, id, timeout, interval, k + 1);
      }
    }
  }

  // ---------- the object ----------

  class WorkflowRun {
    const id: string
    const runId: int
    const task: string
    var status: string
    var conclusion: string

    constructor (id: string, runId: int, task: string, status: string)
      ensures this.id == id && View() == Run(runId, task, status, "")
    {
      this.id, this.runId, this.task, this.status, this.conclusion := id, runId, task, status, "";
    }

    function View(): Run
      reads this
    {
      Run(runId, task, status, conclusion)
    }

    ghost predicate Says(id: string, v: Run)
      reads this
    {
      this.id == id && View() == v
    }
  }

  class Dispatcher {
    const token: string
    const owner: string
    const repo: string
    var runs: map<string, WorkflowRun>
    ghost var table: Runs                  // what the runs say

    ghost predicate Valid()
      reads this, runs.Values
    {
      table.Keys == runs.Keys && forall id {:trigger runs[id]} | id in runs :: runs[id].Says(id, table[id])
    }

    constructor (token: string, owner: string, repo: string)
      ensures Valid() && table == map[]
      ensures this.token == token && this.owner == owner && this.repo == repo
    {
      this.token, this.owner, this.repo := token, owner, repo;
      runs, table := map[], map[];
    }

    predicate IsConfigured() {
      token != "" && owner != "" && repo != ""
    }

    /** Whether a status reply can come at all. */
    predicate Asks() {
      token != "" && Queried(owner, repo)
    }

    /** null when the dispatch failed. */
    method DispatchSimplified(task: string, reply: DispatchReply) returns (run: WorkflowRun?)
      requires Valid()
      modifies this
      ensures Valid()
      ensures run != null <==> token != "" && Accepted(reply)
      ensures run == null ==> runs == old(runs) && table == old(table)
      ensures run != null ==>
                && fresh(run) && run.View() == Queued(reply.runId, task) && run.status == "queued" && run.id == Decimal(reply.runId)
                && runs == old(runs)[run.id := run]
                && table == old(table)[run.id := Queued(reply.runId, task)]
    {
      if token == "" {
        return null;
      }
      if reply.NoDispatchReply? {
        return null;
      }
      if reply.code != 204 && reply.code != 201 && reply.code != 200 {
        return null;
      }
      run := new WorkflowRun(Decimal(reply.runId), reply.runId, task, "queued");
      runs := runs[run.id := run];
      table := table[run.id := run.View()];
    }

    /** The field writes through the run pointer. */
    method Write(id: string, status: string, conclusion: string)
      requires Valid() && id in runs
      modifies this`table, runs[id]
      ensures Valid() && table == old(table)[id := old(table)[id].(status := status, conclusion := conclusion)]
    {
      runs[id].status := status;
      runs[id].conclusion := conclusion;
      table := table[id := runs[id].View()];
    }

    method GetRunStatus(id: string, reply: StatusReply) returns (run: WorkflowRun)
      requires Valid()
      modifies this`table, if id in runs then {runs[id]} else {}
      ensures Valid() && table == AfterStatus(old(table), Asks(), id, reply)
      ensures run.View() == StatusOf(table, id)
      ensures if id in runs then run == runs[id] else fresh(run)
    {
      if id !in runs {
        run := new WorkflowRun("", 0, "", "not_found");
        return;
      }
      run := runs[id];
      StatusRequestBuilds(owner, repo, run.runId);
      if token == "" || !Parses(StatusTail(owner, repo, run.runId)) || reply.NoStatusReply? || reply.code != 200 {
        table := table[id := run.View()];
        return;
      }
      var status := reply.status;
      if reply.status == "completed" {
        if reply.conclusion == "success" {
          status := "completed";
        } else {
          status := "failed";
        }
      }
      Write(id, status, reply.conclusion);
    }

    method CancelRun(id: string, reply: CancelReply) returns (ok: bool)
      requires Valid()
      modifies this`table, if id in runs then {runs[id]} else {}
      ensures Valid() && table == AfterCancel(old(table), token != "", id, reply)
      ensures ok == CancelAccepted(token != "", reply)
    {
      if token == "" {
        return false;
      }
      if reply.NoCancelReply? {
        return false;
      }
      if reply.code != 204 && reply.code != 200 {
        return false;
      }
      if id in runs {
        Write(id, "cancelled", runs[id].conclusion);
      }
      return true;
    }

    method PollRun(id: string, s: Session, timeout: int, interval: int) returns (run: Run)
      requires Valid() && s.Valid(interval)
      modifies this`table, if id in runs then {runs[id]} else {}
      ensures Valid() && (table, run) == Polled(s, old(table), Asks(), id, timeout, interval, 0)
    {
      var deadline := s.began + timeout;
      var k: nat := 0;
      while s.clock(k) < deadline
        invariant Valid()
        invariant Polled(s, old(table), Asks(), id, timeout, interval, 0)
               == Polled(s, table, Asks(), id, timeout, interval, k)
        decreases deadline - s.clock(k)
      {
        var current := GetRunStatus(id, s.server(k));
        if current.status == "completed" || current.status == "failed" || current.status == "not_found" {
          return current.View();
        }
        assert s.clock(k + 1) >= s.clock(k) + interval;
        k := k + 1;
      }
      return TIMED_OUT;
    }

    /** Dispatch, then poll every ten seconds; None when the dispatch failed. */
    method DispatchAndWait(task: string, reply: DispatchReply, s: Session, timeout: int) returns (run: Option<Run>)
      requires Valid() && s.Valid(10 * 1000)
      modifies this
      ensures Valid()
      ensures run.None? <==> !(token != "" && Accepted(reply))
      ensures run.None? ==> table == old(table)
      ensures run.Some? ==>
                var id := Decimal(reply.runId);
                (table, run.value)
                == Polled(s, old(table)[id := Queued(reply.runId, task)], Asks(), id, timeout, 10 * 1000, 0)
    {
      var dispatched := DispatchSimplified(task, reply);
      if dispatched == null {
        return None;
      }
      run := None;
      if dispatched.status == "queued" {
        var polled := PollRun(dispatched.id, s, timeout, 10 * 1000);
        run := Some(polled);
      } else {
        assert false;  // a run fresh from the dispatch is queued
      }
    }
  }
}
