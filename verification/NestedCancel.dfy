/** The one path that takes both locks: cancelling a task withdraws its run while the engine lock is held. */
module NestedCancel {
  import opened Wrappers
  import opened LockProtocol
  import FieldWrites

  // ---------- it happens ----------

  const ASKED := FieldWrites.PUBLISHED.(engine := Lock({}, Some(1), None),
                                        pcs := map[0 := Finished, 1 := CancelIn("7")])

  const SENT := ASKED.(tasks := [Task("7", "7", "7", "cancelled")], pcs := map[0 := Finished, 1 := Withdrawing("7", true)])

  const GRANTED := SENT.(pcs := map[0 := Finished, 1 := MarkWait("7", true)])

  lemma {:induction false} ReachAsked()
    ensures FieldWrites.Leads(FieldWrites.INIT, ASKED)
  {
    FieldWrites.ReachPublished();
    var s := FieldWrites.Begin(FieldWrites.INIT, FieldWrites.PUBLISHED, 1, CancelWait("7"));
    s := FieldWrites.Obtain(FieldWrites.INIT, s, 1, EngineLock);
    assert s == ASKED;
  }

  lemma {:induction false} SendingIs()
    ensures Enabled(ASKED, 1, FieldWrites.NOTHING) && Step(ASKED, 1, FieldWrites.NOTHING) == SENT
  {
  }

  lemma {:induction false} GrantingIs()
    ensures var c := Choice(true, "", "", ""); Enabled(SENT, 1, c) && Step(SENT, 1, c) == GRANTED
  {
  }

  lemma {:induction false} ReachGranted()
    ensures FieldWrites.Leads(FieldWrites.INIT, GRANTED)
  {
    ReachAsked();
    SendingIs();
    var s := FieldWrites.Take(FieldWrites.INIT, ASKED, 1, FieldWrites.NOTHING);
    GrantingIs();
    s := FieldWrites.Take(FieldWrites.INIT, s, 1, Choice(true, "", "", ""));
  }

  /** A reachable state in which one thread holds both locks exclusively. */
  lemma {:induction false} BothLocksHeld() returns (s: State, t: Tid)
    ensures FieldWrites.Leads(FieldWrites.INIT, s)
    ensures s.engine.writer == Some(t) && s.dispatcher.writer == Some(t)
  {
    ReachGranted();
    t := 1;
    s := FieldWrites.Obtain(FieldWrites.INIT, GRANTED, 1, DispatcherLock);
  }

  // ---------- it happens in every cancel ----------

  ghost predicate Steps(s: State, w: State, t: Tid) {
    exists c :: Enabled(s, t, c) && w == Step(s, t, c)
  }

  /** The step of thread t with an accepted request. */
  ghost predicate Granted(s: State, w: State, t: Tid) {
    exists c: Choice :: c.ok && Enabled(s, t, c) && w == Step(s, t, c)
  }

  lemma {:induction false} StepMovesOnly(s: State, u: Tid, c: Choice, t: Tid)
    requires Enabled(s, u, c) && u != t
    ensures At(Step(s, u, c), t) == At(s, t)
  {
    if Needs(At(s, u)).Some? {
      AcquireWritesNothing(s, u, c);
    }
  }

  lemma {:induction false} OwnOrOthers(s: State, w: State, t: Tid)
    requires Next(s, w) && !At(s, t).Finished? && At(w, t) != At(s, t)
    ensures Steps(s, w, t)
  {
    if u: Tid, c :| Enabled(s, u, c) && w == Step(s, u, c) {
      if u != t {
        StepMovesOnly(s, u, c, t);
      }
    }
  }

  lemma {:induction false} PathOwn(states: seq<State>, n: nat, t: Tid)
    requires Chain(states) && n + 1 < |states| && !At(states[n], t).Finished? && At(states[n + 1], t) != At(states[n], t)
    ensures Steps(states[n], states[n + 1], t)
  {
    ChainStep(states, n, n + 1);
    OwnOrOthers(states[n], states[n + 1], t);
  }

  /** Thread t is at the point pc from n to m, and then no longer. */
  ghost predicate Stays(states: seq<State>, n: nat, m: nat, t: Tid, pc: Pc) {
    && n <= m && m + 1 < |states| && At(states[m + 1], t) != pc
    && forall k: nat | n <= k <= m :: At(states[k], t) == pc
  }

  lemma {:induction false} LastAt(states: seq<State>, n: nat, j: nat, t: Tid, pc: Pc) returns (m: nat)
    requires n < j < |states| && At(states[n], t) == pc && At(states[j], t) != pc
    ensures m < j && Stays(states, n, m, t, pc)
    decreases j - n
  {
    m := n;
    if At(states[n + 1], t) == pc {
      m := LastAt(states, n + 1, j, t, pc);
    }
  }

  /** It leaves the point by a step of its own. */
  lemma {:induction false} LeavesPoint(states: seq<State>, n: nat, j: nat, t: Tid) returns (m: nat)
    requires Chain(states) && n < j < |states|
    requires !At(states[n], t).Finished? && At(states[j], t) != At(states[n], t)
    ensures m < j && Stays(states, n, m, t, At(states[n], t)) && Steps(states[m], states[m + 1], t)
  {
    m := LastAt(states, n, j, t, At(states[n], t));
    PathOwn(states, m, t);
  }

  // ---------- the steps of a cancel ----------

  lemma {:induction false} OwnCancelStep(s: State, t: Tid, c: Choice, id: string)
    requires At(s, t) == CancelIn(id) && Enabled(s, t, c)
    ensures At(Step(s, t, c), t) != CancelIn(id)
  {
  }

  /** While t is still to act, nobody else changes active. */
  lemma {:induction false} ActiveWaits(s: State, w: State, t: Tid, id: string)
    requires LocksAgree(s) && Next(s, w) && At(s, t) == CancelIn(id) == At(w, t)
    ensures w.active == s.active
  {
    if u: Tid, c :| Enabled(s, u, c) && w == Step(s, u, c) {
      if u == t {
        OwnCancelStep(s, t, c, id);
      } else if Needs(At(s, u)).Some? {
        AcquireWritesNothing(s, u, c);
      } else {
        ExclusiveMeansAlone(s, EngineLock, t, u);
        WritersHoldTheLock(s, At(s, u), c);
      }
    }
  }

  lemma {:induction false} PathActiveWaits(states: seq<State>, n: nat, m: nat, t: Tid, id: string)
    requires Path(states) && n <= m < |states| && forall k: nat | n <= k <= m :: At(states[k], t) == CancelIn(id)
    ensures states[m].active == states[n].active
  {
    if n < m {
      PathActiveWaits(states, n, m - 1, t, id);
      LocksAlwaysAgree(states, m - 1);
      ChainStep(states, m - 1, m);
      ActiveWaits(states[m - 1], states[m], t, id);
    }
  }

  /** The task is marked, and the request goes out, still inside the section. */
  lemma {:induction false} CancelSends(s: State, w: State, t: Tid, id: string)
    requires Agreed(s) && Steps(s, w, t) && At(s, t) == CancelIn(id) && id in s.active && id != ""
    ensures s.active[id] < |w.tasks| && w.tasks[s.active[id]].status == "cancelled"
    ensures At(w, t) == Withdrawing(id, true)
  {
  }

  lemma {:induction false} RequestGranted(s: State, w: State, t: Tid, id: string)
    requires Granted(s, w, t) && At(s, t) == Withdrawing(id, true)
    ensures At(w, t) == MarkWait(id, true)
  {
  }

  lemma {:induction false} LockObtained(s: State, w: State, t: Tid, id: string)
    requires Steps(s, w, t) && At(s, t) == MarkWait(id, true) && At(w, t) != At(s, t)
    ensures At(w, t) == MarkIn(id, true)
  {
  }

  lemma {:induction false} RunMarked(s: State, w: State, t: Tid, id: string)
    requires Agreed(s) && LocksAgree(s) && Steps(s, w, t) && At(s, t) == MarkIn(id, true) && id in s.runs
    ensures id in w.runs && w.runs[id] < |w.cells| && w.cells[w.runs[id]].status == "cancelled"
    ensures w.engine.writer == Some(t) && w.dispatcher.writer.None?
  {
  }

  lemma {:induction false} HoldsBoth(s: State, t: Tid, id: string)
    requires LocksAgree(s) && At(s, t) == MarkIn(id, true)
    ensures s.engine.writer == Some(t) && s.dispatcher.writer == Some(t)
  {
    assert LockAgrees(s, EngineLock) && LockAgrees(s, DispatcherLock);
  }

  lemma {:induction false} HoldsEngine(s: State, t: Tid)
    requires LocksAgree(s) && Holds(At(s, t), EngineLock) == Some(Exclusive)
    ensures s.engine.writer == Some(t)
  {
    assert LockAgrees(s, EngineLock);
  }

  lemma {:induction false} OutsideEngine(s: State, t: Tid)
    requires LocksAgree(s) && s.engine.writer != Some(t)
    ensures Holds(At(s, t), EngineLock) != Some(Exclusive)
  {
    assert LockAgrees(s, EngineLock);
  }

  // ---------- a known run stays known ----------

  lemma {:induction false} StepKeepsKnown(s: State, t: Tid, c: Choice, id: string)
    requires Enabled(s, t, c) && id in s.runs
    ensures id in Step(s, t, c).runs
  {
    if Needs(At(s, t)).Some? {
      AcquireWritesNothing(s, t, c);
    }
  }

  lemma {:induction false} NextKeepsKnown(s: State, w: State, id: string)
    requires Next(s, w) && id in s.runs
    ensures id in w.runs
  {
    if t: Tid, c :| Enabled(s, t, c) && w == Step(s, t, c) {
      StepKeepsKnown(s, t, c, id);
    }
  }

  lemma {:induction false} StaysKnown(states: seq<State>, i: nat, j: nat, id: string)
    requires Chain(states) && i <= j < |states| && id in states[i].runs
    ensures id in states[j].runs
  {
    if i < j {
      StaysKnown(states, i, j - 1, id);
      ChainStep(states, j - 1, j);
      NextKeepsKnown(states[j - 1], states[j], id);
    }
  }

  // ---------- every cancel of an active task ----------

  /** Both locks are held at k, and the next step marks the run and gives up the inner lock only. */
  ghost predicate MarksAt(states: seq<State>, k: nat, t: Tid, id: string) {
    && k + 1 < |states|
    && states[k].engine.writer == Some(t) && states[k].dispatcher.writer == Some(t)
    && states[k + 1].engine.writer == Some(t) && states[k + 1].dispatcher.writer.None?
    && var s := states[k + 1];
       id in s.runs && s.runs[id] < |s.cells| && s.cells[s.runs[id]].status == "cancelled"
  }

  lemma {:induction false} SectionSends(states: seq<State>, i: nat, j: nat, t: Tid, id: string) returns (m: nat)
    requires Path(states) && i < j < |states| && states[j].engine.writer != Some(t)
    requires At(states[i], t) == CancelIn(id) && id in states[i].active && id != ""
    ensures i <= m && m + 1 < j && At(states[m + 1], t) == Withdrawing(id, true)
    ensures states[i].active[id] < |states[m + 1].tasks| && states[m + 1].tasks[states[i].active[id]].status == "cancelled"
  {
    LocksAlwaysAgree(states, j);
    OutsideEngine(states[j], t);
    m := LeavesPoint(states, i, j, t);
    PathActiveWaits(states, i, m, t, id);
    AlwaysAgreed(states, m);
    CancelSends(states[m], states[m + 1], t, id);
  }

  lemma {:induction false} SectionMarks(states: seq<State>, n: nat, j: nat, t: Tid, id: string) returns (k: nat)
    requires Path(states) && n < j < |states| && states[j].engine.writer != Some(t)
    requires At(states[n], t) == MarkWait(id, true) && id in states[n].runs
    ensures n < k < j && MarksAt(states, k, t, id)
  {
    LocksAlwaysAgree(states, j);
    OutsideEngine(states[j], t);
    var m := LeavesPoint(states, n, j, t);
    LockObtained(states[m], states[m + 1], t, id);
    k := LeavesPoint(states, m + 1, j, t);
    LocksAlwaysAgree(states, k);
    HoldsBoth(states[k], t, id);
    AlwaysAgreed(states, k);
    StaysKnown(states, n, k, id);
    RunMarked(states[k], states[k + 1], t, id);
  }

  /** The request is answered inside the section; if it is granted, both locks are taken and the run is marked. */
  lemma {:induction false} SectionAnswers(states: seq<State>, m: nat, j: nat, t: Tid, id: string) returns (sent: nat)
    requires Path(states) && m < j < |states| && states[j].engine.writer != Some(t)
    requires At(states[m], t) == Withdrawing(id, true) && id in states[m].runs
    ensures m <= sent < j && Steps(states[sent], states[sent + 1], t) && At(states[sent], t) == Withdrawing(id, true)
    ensures Granted(states[sent], states[sent + 1], t) ==> exists k: nat | sent < k < j :: MarksAt(states, k, t, id)
  {
    LocksAlwaysAgree(states, j);
    OutsideEngine(states[j], t);
    sent := LeavesPoint(states, m, j, t);
    if Granted(states[sent], states[sent + 1], t) {
      RequestGranted(states[sent], states[sent + 1], t, id);
      StaysKnown(states, m, sent + 1, id);
      var k := SectionMarks(states, sent + 1, j, t, id);
    }
  }

  lemma {:induction false} KnownOnEntry(states: seq<State>, i: nat, m: nat, t: Tid, id: string)
    requires Path(states) && i <= m < |states| && id in states[i].active
    requires Holds(At(states[m], t), EngineLock) == Some(Exclusive)
    ensures id in states[m].runs && states[m].engine.writer == Some(t)
  {
    AlwaysAgreed(states, i);
    StaysKnown(states, i, m, id);
    LocksAlwaysAgree(states, m);
    HoldsEngine(states[m], t);
  }

  /**
   * On every path, whatever other threads do: a cancel section entered for an active task marks that task and sends
   * the request before it gives up the engine lock; and if the request is accepted, it takes the dispatcher lock as
   * well, and right after that inner section the run reads cancelled.
   */
  lemma {:induction false} NestedCancels(states: seq<State>, i: nat, j: nat, t: Tid, id: string)
    returns (m: nat, sent: nat)
    requires Path(states) && i < j < |states| && states[j].engine.writer != Some(t)
    requires At(states[i], t) == CancelIn(id) && id in states[i].active && id != ""
    ensures i < m <= sent < j && states[m].engine.writer == Some(t) && Steps(states[sent], states[sent + 1], t)
    ensures states[i].active[id] < |states[m].tasks| && states[m].tasks[states[i].active[id]].status == "cancelled"
    ensures At(states[sent], t) == Withdrawing(id, true)
    ensures Granted(states[sent], states[sent + 1], t) ==> exists k: nat | sent < k < j :: MarksAt(states, k, t, id)
  {
    m := SectionSends(states, i, j, t, id);
    m := m + 1;
    KnownOnEntry(states, i, m, t, id);
    sent := SectionAnswers(states, m, j, t, id);
  }
}
