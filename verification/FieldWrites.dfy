/**
 * The fields of a run are written outside both locks. When a run that reads completed has succeeded, and when it
 * may not have: for any interleaving of the threads of LockProtocol.
 */
module FieldWrites {
  import opened Wrappers
  import opened LockProtocol

  predicate Honest(cell: Run) {
    cell.status == "completed" ==> cell.conclusion == "success"
  }

  /** Between a status reply for the run and the end of its field writes. */
  predicate Writing(pc: Pc, run: Ref) {
    (pc.WriteStatus? || pc.WriteConclusion? || pc.Mapping?) && pc.run == run
  }

  /** Writing a successful completion. */
  predicate Succeeding(pc: Pc, run: Ref) {
    Writing(pc, run) && pc.status == "completed" && pc.conclusion == "success"
  }

  /** Another conclusion is still to be written. */
  predicate Overwriting(pc: Pc, run: Ref) {
    (pc.WriteStatus? || pc.WriteConclusion?) && pc.run == run && pc.conclusion != "success"
  }

  /** The status, already written as completed, is still to be mapped by the conclusion. */
  predicate Correcting(pc: Pc, run: Ref) {
    (pc.WriteConclusion? || pc.Mapping?) && pc.run == run && pc.status == "completed"
  }

  /** What a field write makes of the cell. */
  function Turned(pc: Pc, cell: Run): Run {
    match pc
    case WriteStatus(_, _, status, _) => cell.(status := status)
    case WriteConclusion(_, _, _, conclusion) => cell.(conclusion := conclusion)
    case Mapping(_, _, status, conclusion) =>
      if status == "completed" then cell.(status := if conclusion == "success" then "completed" else "failed") else cell
    case _ => cell
  }

  /** One thread writes a successful completion while another has yet to write a different conclusion. */
  ghost predicate Clash(s: State, run: Ref) {
    exists t: Tid, u: Tid :: t != u && Succeeding(At(s, t), run) && Overwriting(At(s, u), run)
  }

  // ---------- without a clash ----------

  /** A reply that is not a completion and has yet to write a conclusion other than success. */
  predicate Unfinished(pc: Pc, run: Ref) {
    pc.WriteConclusion? && pc.run == run && pc.status != "completed" && pc.conclusion != "success"
  }

  ghost predicate Corrected(s: State, run: Ref) {
    exists t: Tid :: Correcting(At(s, t), run)
  }

  /** A success about to be mapped is in the cell; a completed cell that is wrong, or about to be, will be corrected. */
  ghost predicate Sound(s: State, run: Ref) {
    var cell := Cell(s, run);
    && (forall t: Tid | At(s, t).Mapping? && Succeeding(At(s, t), run) :: cell.conclusion == "success")
    && (cell.status == "completed" && (cell.conclusion != "success" || exists t: Tid :: Unfinished(At(s, t), run)) ==>
          Corrected(s, run))
  }

  /** What matters of one step of thread t: its own move, and the cell. */
  ghost predicate Moves(s: State, w: State, t: Tid, pc: Pc) {
    At(w, t) == pc && forall u: Tid | u != t :: At(w, u) == At(s, u)
  }

  /** A step that neither writes the conclusion nor makes the status completed, by a thread not writing the run. */
  lemma {:induction false} AsideKeepsSound(s: State, w: State, t: Tid, run: Ref)
    requires Sound(s, run) && Moves(s, w, t, At(w, t))
    requires !Writing(At(s, t), run) && (Writing(At(w, t), run) ==> At(w, t).WriteStatus?)
    requires Cell(w, run).conclusion == Cell(s, run).conclusion || forall u: Tid :: !Writing(At(s, u), run)
    requires Cell(w, run) == Cell(s, run) || Cell(w, run).status != "completed"
    ensures Sound(w, run)
  {
    if u: Tid :| Correcting(At(s, u), run) {
      assert Correcting(At(w, u), run);
    }
    forall u: Tid | Unfinished(At(w, u), run)
      ensures Unfinished(At(s, u), run)
    {
    }
    forall u: Tid | At(w, u).Mapping? && Succeeding(At(w, u), run)
      ensures At(s, u).Mapping? && Succeeding(At(s, u), run)
    {
    }
  }

  lemma {:induction false} WriteStatusKeepsSound(s: State, w: State, t: Tid, run: Ref)
    requires Sound(s, run) && At(s, t).WriteStatus? && At(s, t).run == run
    requires var pc := At(s, t); Moves(s, w, t, WriteConclusion(pc.polled, run, pc.status, pc.conclusion))
    requires Cell(w, run) == Cell(s, run).(status := At(s, t).status)
    ensures Sound(w, run)
  {
    if At(s, t).status == "completed" {
      assert Correcting(At(w, t), run);
    }
    forall u: Tid | At(w, u).Mapping? && Succeeding(At(w, u), run)
      ensures At(s, u).Mapping? && Succeeding(At(s, u), run)
    {
    }
  }

  lemma {:induction false} NobodyOverwrites(s: State, t: Tid, run: Ref)
    requires !Clash(s, run) && Succeeding(At(s, t), run)
    ensures forall u: Tid | u != t :: !Overwriting(At(s, u), run)
  {
  }

  lemma {:induction false} WriteConclusionKeepsSound(s: State, w: State, t: Tid, run: Ref)
    requires Sound(s, run) && !Clash(s, run) && At(s, t).WriteConclusion? && At(s, t).run == run
    requires var pc := At(s, t); Moves(s, w, t, Mapping(pc.polled, run, pc.status, pc.conclusion))
    requires Cell(w, run) == Cell(s, run).(conclusion := At(s, t).conclusion)
    ensures Sound(w, run)
  {
    var pc := At(s, t);
    forall u: Tid | At(w, u).Mapping? && Succeeding(At(w, u), run)
      ensures Cell(w, run).conclusion == "success"
    {
      if u != t {
        assert Succeeding(At(s, u), run);
        assert !Overwriting(pc, run);
      }
    }
    if pc.status == "completed" {
      assert Correcting(At(w, t), run);
    } else {
      if pc.conclusion != "success" {
        assert Unfinished(At(s, t), run);
      }
      if u: Tid :| Unfinished(At(w, u), run) {
        assert Unfinished(At(s, u), run);
      }
      if u: Tid :| Correcting(At(s, u), run) {
        assert Correcting(At(w, u), run);
      }
    }
  }

  lemma {:induction false} MappingKeepsSound(s: State, w: State, t: Tid, run: Ref)
    requires Sound(s, run) && !Clash(s, run) && At(s, t).Mapping? && At(s, t).run == run
    requires Moves(s, w, t, Telling(At(s, t).polled, run))
    requires Cell(w, run) == Turned(At(s, t), Cell(s, run))
    ensures Sound(w, run)
  {
    var pc := At(s, t);
    forall u: Tid | At(w, u).Mapping? && Succeeding(At(w, u), run)
      ensures At(s, u).Mapping? && Succeeding(At(s, u), run)
    {
    }
    if pc.status == "completed" {
      if pc.conclusion == "success" {
        NobodyOverwrites(s, t, run);
      }
    } else {
      if u: Tid :| Unfinished(At(w, u), run) {
        assert Unfinished(At(s, u), run);
      }
      if u: Tid :| Correcting(At(s, u), run) {
        assert Correcting(At(w, u), run);
      }
    }
  }

  /** What an acting point does to one run. */
  lemma {:induction false} CellAfter(s: State, pc: Pc, c: Choice, run: Ref)
    ensures var before, after := Cell(s, run), Cell(Written(s, pc, c), run);
            if Writing(pc, run) && run < |s.cells| then
              after == Turned(pc, before)
            else if pc.FileIn? && run == |s.cells| then after == Run("queued", "")
            else after == before || after == before.(status := "cancelled")
  {
  }

  lemma {:induction false} ActMoves(s: State, t: Tid, c: Choice)
    ensures Moves(s, Act(s, t, c), t, After(s, At(s, t), c))
    ensures forall run: Ref :: Cell(Act(s, t, c), run) == Cell(Written(s, At(s, t), c), run)
  {
  }

  lemma {:induction false} NobodyWritesBeyond(s: State, run: Ref)
    requires Agreed(s) && run >= |s.cells|
    ensures forall u: Tid :: !Writing(At(s, u), run)
  {
    forall u: Tid
      ensures !Writing(At(s, u), run)
    {
      assert References(s, At(s, u));
    }
  }

  lemma {:induction false} ActAsideKeepsSound(s: State, t: Tid, c: Choice, run: Ref)
    requires Agreed(s) && Sound(s, run) && !Writing(At(s, t), run)
    ensures Sound(Act(s, t, c), run)
  {
    ActMoves(s, t, c);
    CellAfter(s, At(s, t), c, run);
    if run >= |s.cells| {
      NobodyWritesBeyond(s, run);
    }
    AsideKeepsSound(s, Act(s, t, c), t, run);
  }

  lemma {:induction false} ActKeepsSound(s: State, t: Tid, c: Choice, run: Ref)
    requires Agreed(s) && Sound(s, run) && !Clash(s, run)
    ensures Sound(Act(s, t, c), run)
  {
    var pc, w := At(s, t), Act(s, t, c);
    if !Writing(pc, run) {
      ActAsideKeepsSound(s, t, c, run);
      return;
    }
    ActMoves(s, t, c);
    CellAfter(s, pc, c, run);
    assert References(s, pc);
    if pc.WriteStatus? {
      WriteStatusKeepsSound(s, w, t, run);
    } else if pc.WriteConclusion? {
      WriteConclusionKeepsSound(s, w, t, run);
    } else {
      MappingKeepsSound(s, w, t, run);
    }
  }

  lemma {:induction false} IdleMoveKeepsSound(s: State, w: State, t: Tid, run: Ref)
    requires Sound(s, run) && w.cells == s.cells && Moves(s, w, t, At(w, t))
    requires !Writing(At(s, t), run) && !Writing(At(w, t), run)
    ensures Sound(w, run)
  {
    AsideKeepsSound(s, w, t, run);
  }

  lemma {:induction false} StepKeepsSound(s: State, t: Tid, c: Choice, run: Ref)
    requires Agreed(s) && Sound(s, run) && !Clash(s, run) && Enabled(s, t, c)
    ensures Sound(Step(s, t, c), run)
  {
    if Needs(At(s, t)).Some? {
      AcquireWritesNothing(s, t, c);
      IdleMoveKeepsSound(s, Step(s, t, c), t, run);
    } else {
      ActKeepsSound(s, t, c, run);
    }
  }

  lemma {:induction false} BeginKeepsSound(s: State, t: Tid, pc: Pc, run: Ref)
    requires Sound(s, run) && At(s, t).Finished? && Beginning(pc)
    ensures Sound(s.(pcs := s.pcs[t := pc]), run)
  {
    IdleMoveKeepsSound(s, s.(pcs := s.pcs[t := pc]), t, run);
  }

  lemma {:induction false} NextKeepsSound(s: State, w: State, run: Ref)
    requires Agreed(s) && Sound(s, run) && !Clash(s, run) && Next(s, w)
    ensures Sound(w, run)
  {
    if t: Tid, pc :| At(s, t).Finished? && Beginning(pc) && w == s.(pcs := s.pcs[t := pc]) {
      BeginKeepsSound(s, t, pc, run);
    } else {
      var t: Tid, c :| Enabled(s, t, c) && w == Step(s, t, c);
      StepKeepsSound(s, t, c, run);
    }
  }

  // ---------- from one state to another ----------

  ghost predicate Leads(s: State, w: State) {
    exists states :: Chain(states) && states[0] == s && states[|states| - 1] == w
  }

  lemma {:induction false} LeadsNowhere(s: State)
    ensures Leads(s, s)
  {
    assert Chain([s]);
  }

  lemma {:induction false} LongerChain(states: seq<State>, x: State)
    requires Chain(states) && Next(states[|states| - 1], x)
    ensures Chain(states + [x])
  {
    var longer := states + [x];
    forall i: nat | i + 1 < |longer|
      ensures NextAt(longer, i)
    {
      assert i + 1 < |states| ==> NextAt(states, i);
    }
  }

  lemma {:induction false} LeadsOn(s: State, w: State, x: State)
    requires Leads(s, w) && Next(w, x)
    ensures Leads(s, x)
  {
    var states :| Chain(states) && states[0] == s && states[|states| - 1] == w;
    LongerChain(states, x);
    assert (states + [x])[0] == s && (states + [x])[|states|] == x;
  }

  lemma {:induction false} LeadsNext(s: State, states: seq<State>, i: nat, j: nat)
    requires Chain(states) && j == i + 1 < |states| && Leads(s, states[i])
    ensures Leads(s, states[j])
  {
    ChainStep(states, i, j);
    LeadsOn(s, states[i], states[j]);
  }

  lemma {:induction false} LeadsAll(s: State, states: seq<State>, i: nat)
    requires Chain(states) && i < |states| && Leads(s, states[0])
    ensures Leads(s, states[i])
  {
    if i > 0 {
      LeadsAll(s, states, i - 1);
      LeadsNext(s, states, i - 1, i);
    }
  }

  lemma {:induction false} LeadsThrough(s: State, w: State, x: State)
    requires Leads(s, w) && Leads(w, x)
    ensures Leads(s, x)
  {
    var states :| Chain(states) && states[0] == w && states[|states| - 1] == x;
    LeadsAll(s, states, |states| - 1);
  }

  /** State m is sane; and if it has no clash on the run, it is sound for the run. */
  ghost predicate Sane(states: seq<State>, m: nat, run: Ref)
    requires m < |states|
  {
    Agreed(states[m]) && ((forall j: nat | j < m :: !Clash(states[j], run)) ==> Sound(states[m], run))
  }

  lemma {:induction false} SaneStep(states: seq<State>, i: nat, j: nat, run: Ref)
    requires Chain(states) && j == i + 1 < |states| && Sane(states, i, run)
    ensures Sane(states, j, run)
  {
    ChainStep(states, i, j);
    NextKeepsAgreed(states[i], states[j]);
    if forall m: nat | m < j :: !Clash(states[m], run) {
      NextKeepsSound(states[i], states[j], run);
    }
  }

  lemma {:induction false} ChainSane(states: seq<State>, i: nat, run: Ref)
    requires Chain(states) && i < |states| && Sane(states, 0, run)
    ensures Sane(states, i, run)
  {
    if i > 0 {
      ChainSane(states, i - 1, run);
      SaneStep(states, i - 1, i, run);
    }
  }

  lemma {:induction false} ChainAgreed(states: seq<State>, i: nat, run: Ref)
    requires Chain(states) && i < |states| && Agreed(states[0]) && Sound(states[0], run)
    ensures Agreed(states[i])
  {
    ChainSane(states, i, run);
  }

  lemma {:induction false} ChainSound(states: seq<State>, i: nat, run: Ref)
    requires Chain(states) && i < |states| && Agreed(states[0]) && Sound(states[0], run)
    requires forall j: nat | j < i :: !Clash(states[j], run)
    ensures Agreed(states[i]) && Sound(states[i], run)
  {
    ChainSane(states, i, run);
  }

  lemma {:induction false} StartSound(asks: bool, run: Ref)
    ensures Agreed(Start(asks)) && Sound(Start(asks), run)
  {
  }

  /**
   * On every path without a clash on a run: when the run reads completed without success, some thread is still at
   * the field writes that will correct it.
   */
  lemma {:induction false} CompletedHasSucceeded(states: seq<State>, i: nat, run: Ref)
    requires Path(states) && i < |states|
    requires forall j: nat | j < i :: !Clash(states[j], run)
    ensures Honest(Cell(states[i], run)) || Corrected(states[i], run)
  {
    StartSound(states[0].asks, run);
    ChainSound(states, i, run);
  }

  /** At most one thread is at the field writes of the run. */
  ghost predicate OneWriter(s: State, run: Ref) {
    forall t: Tid, u: Tid | Writing(At(s, t), run) && Writing(At(s, u), run) :: t == u
  }

  /** So it is when no two threads ever write the fields of one run at a time. */
  lemma {:induction false} OneWriterSuffices(states: seq<State>, i: nat, run: Ref)
    requires Path(states) && i < |states|
    requires forall j: nat | j < i :: OneWriter(states[j], run)
    ensures Honest(Cell(states[i], run)) || Corrected(states[i], run)
  {
    CompletedHasSucceeded(states, i, run);
  }

  // ---------- after a clash ----------

  /** Completed without success, and nobody is at its field writes any more. */
  ghost predicate Wrong(s: State, run: Ref) {
    !Honest(Cell(s, run)) && forall t: Tid :: !Writing(At(s, t), run)
  }

  const NOTHING := Choice(false, "", "", "")

  lemma {:induction false} WriteIsNext(s: State, t: Tid, run: Ref)
    requires Writing(At(s, t), run)
    ensures Next(s, Act(s, t, NOTHING))
  {
    assert Enabled(s, t, NOTHING) && Act(s, t, NOTHING) == Step(s, t, NOTHING);
  }

  lemma {:induction false} WriteKeepsCells(s: State, pc: Pc, run: Ref)
    requires Writing(pc, run)
    ensures |Written(s, pc, NOTHING).cells| == |s.cells|
  {
  }

  /** Thread t takes its next field write; everybody else stays. */
  lemma {:induction false} Write(s: State, t: Tid, run: Ref) returns (w: State)
    requires Writing(At(s, t), run) && run < |s.cells|
    ensures w == Act(s, t, NOTHING) && Leads(s, w)
    ensures Moves(s, w, t, After(s, At(s, t), NOTHING)) && |w.cells| == |s.cells|
    ensures Cell(w, run) == Turned(At(s, t), Cell(s, run))
  {
    w := Act(s, t, NOTHING);
    WriteIsNext(s, t, run);
    WriteKeepsCells(s, At(s, t), run);
    ActMoves(s, t, NOTHING);
    CellAfter(s, At(s, t), NOTHING, run);
    LeadsNowhere(s);
    LeadsOn(s, s, w);
  }

  lemma {:induction false} MovesThrough(s: State, next: State, w: State, t: Tid)
    requires Moves(s, next, t, At(next, t)) && Moves(next, w, t, At(w, t))
    ensures Moves(s, w, t, At(w, t))
  {
  }

  function Left(pc: Pc): nat {
    if pc.WriteStatus? then 3 else if pc.WriteConclusion? then 2 else if pc.Mapping? then 1 else 0
  }

  /** Thread t completes its field writes. */
  lemma {:induction false} Complete(s: State, t: Tid, run: Ref) returns (w: State)
    requires Writing(At(s, t), run) && run < |s.cells|
    ensures Leads(s, w) && Moves(s, w, t, At(w, t)) && !Writing(At(w, t), run) && |w.cells| == |s.cells|
    ensures Cell(w, run).conclusion == if At(s, t).Mapping? then Cell(s, run).conclusion else At(s, t).conclusion
    decreases Left(At(s, t))
  {
    var next := Write(s, t, run);
    if At(s, t).Mapping? {
      w := next;
    } else {
      w := Complete(next, t, run);
      LeadsThrough(s, next, w);
      MovesThrough(s, next, w, t);
    }
  }

  lemma {:induction false} WriteOn(s: State, t: Tid, run: Ref) returns (w: State)
    requires Succeeding(At(s, t), run) && !At(s, t).Mapping? && run < |s.cells|
    ensures Leads(s, w) && Moves(s, w, t, At(w, t)) && |w.cells| == |s.cells|
    ensures Succeeding(At(w, t), run) && Left(At(w, t)) == Left(At(s, t)) - 1
  {
    w := Write(s, t, run);
  }

  /** Thread t goes on to the point where it maps its status. */
  lemma {:induction false} Prepare(s: State, t: Tid, run: Ref) returns (w: State)
    requires Succeeding(At(s, t), run) && run < |s.cells|
    ensures Leads(s, w) && Moves(s, w, t, At(w, t)) && |w.cells| == |s.cells|
    ensures At(w, t).Mapping? && Succeeding(At(w, t), run)
    decreases Left(At(s, t))
  {
    if At(s, t).Mapping? {
      LeadsNowhere(s);
      w := s;
    } else {
      var next := WriteOn(s, t, run);
      w := Prepare(next, t, run);
      LeadsThrough(s, next, w);
      MovesThrough(s, next, w, t);
    }
  }

  /** The threads of `some` complete their field writes of the run, one after the other. */
  lemma {:induction false} Drain(s: State, run: Ref, some: set<Tid>) returns (w: State)
    requires run < |s.cells|
    ensures Leads(s, w) && |w.cells| == |s.cells|
    ensures forall u: Tid :: if u in some then !Writing(At(w, u), run) else At(w, u) == At(s, u)
    decreases some
  {
    if some == {} {
      LeadsNowhere(s);
      w := s;
    } else {
      var t :| t in some;
      var next := s;
      if Writing(At(s, t), run) {
        next := Complete(s, t, run);
      } else {
        LeadsNowhere(s);
      }
      w := Drain(next, run, some - {t});
      LeadsThrough(s, next, w);
    }
  }

  /** The last thread at the run maps its success beside another conclusion. */
  lemma {:induction false} LastMapping(s: State, run: Ref, t: Tid) returns (w: State)
    requires run < |s.cells| && At(s, t).Mapping? && Succeeding(At(s, t), run)
    requires Cell(s, run).conclusion != "success" && forall v: Tid | v != t :: !Writing(At(s, v), run)
    ensures Leads(s, w) && Wrong(w, run)
  {
    w := Write(s, t, run);
    forall v: Tid
      ensures !Writing(At(w, v), run)
    {
    }
  }

  lemma {:induction false} OnlyOneLeft(s: State, w: State, run: Ref, t: Tid, u: Tid)
    requires Moves(s, w, u, At(w, u)) && !Writing(At(w, u), run)
    requires forall v: Tid | v != t && v != u :: !Writing(At(s, v), run)
    ensures forall v: Tid | v != t :: !Writing(At(w, v), run)
  {
  }

  lemma {:induction false} StillTwo(s: State, w: State, run: Ref, t: Tid, u: Tid)
    requires Moves(s, w, t, At(w, t))
    requires forall v: Tid | v != t && v != u :: !Writing(At(s, v), run)
    ensures forall v: Tid | v != t && v != u :: !Writing(At(w, v), run)
  {
  }

  /** The two threads of a clash, alone at the run, make it wrong. */
  lemma {:induction false} PairGoesWrong(s: State, run: Ref, t: Tid, u: Tid) returns (w: State)
    requires run < |s.cells| && t != u && Succeeding(At(s, t), run) && Overwriting(At(s, u), run)
    requires forall v: Tid | v != t && v != u :: !Writing(At(s, v), run)
    ensures Leads(s, w) && Wrong(w, run)
  {
    var ready := Prepare(s, t, run);
    StillTwo(s, ready, run, t, u);
    assert At(ready, u) == At(s, u);
    var overwritten := Complete(ready, u, run);
    OnlyOneLeft(ready, overwritten, run, t, u);
    assert At(overwritten, t) == At(ready, t);
    LeadsThrough(s, ready, overwritten);
    w := LastMapping(overwritten, run, t);
    LeadsThrough(s, overwritten, w);
  }

  lemma {:induction false} AllOthersDone(s: State, calm: State, run: Ref, t: Tid, u: Tid)
    requires forall v: Tid :: if v in s.pcs.Keys - {t, u} then !Writing(At(calm, v), run) else At(calm, v) == At(s, v)
    ensures At(calm, t) == At(s, t) && At(calm, u) == At(s, u)
    ensures forall v: Tid | v != t && v != u :: !Writing(At(calm, v), run)
  {
    forall v: Tid | v != t && v != u
      ensures !Writing(At(calm, v), run)
    {
      if v !in s.pcs {
        assert At(s, v) == Finished && At(calm, v) == At(s, v);
      }
    }
  }

  lemma {:induction false} ClashingRunExists(s: State, run: Ref, t: Tid)
    requires Agreed(s) && Writing(At(s, t), run)
    ensures run < |s.cells|
  {
    assert References(s, At(s, t));
  }

  /** From every clash the threads may go on to leave the run wrong. */
  lemma {:induction false} ClashGoesWrong(s: State, run: Ref) returns (w: State)
    requires Agreed(s) && Clash(s, run)
    ensures Leads(s, w) && Wrong(w, run)
  {
    var t: Tid, u: Tid :| t != u && Succeeding(At(s, t), run) && Overwriting(At(s, u), run);
    ClashingRunExists(s, run, t);
    var calm := Drain(s, run, s.pcs.Keys - {t, u});
    AllOthersDone(s, calm, run, t, u);
    w := PairGoesWrong(calm, run, t, u);
    LeadsThrough(s, calm, w);
  }

  ghost predicate MayGoWrong(s: State, run: Ref) {
    exists w :: Leads(s, w) && Wrong(w, run)
  }

  ghost predicate MayClash(s: State, run: Ref) {
    exists w :: Leads(s, w) && Clash(w, run)
  }

  lemma {:induction false} WrongNeedsClash(s: State, w: State, run: Ref)
    requires Agreed(s) && Sound(s, run) && Leads(s, w) && Wrong(w, run)
    ensures MayClash(s, run)
  {
    var states :| Chain(states) && states[0] == s && states[|states| - 1] == w;
    if forall j: nat | j < |states| - 1 :: !Clash(states[j], run) {
      ChainSound(states, |states| - 1, run);
      assert false;
    }
    var j: nat :| j < |states| - 1 && Clash(states[j], run);
    LeadsNowhere(s);
    LeadsAll(s, states, j);
  }

  lemma {:induction false} LeadsAgreed(s: State, w: State, run: Ref)
    requires Agreed(s) && Sound(s, run) && Leads(s, w)
    ensures Agreed(w)
  {
    var states :| Chain(states) && states[0] == s && states[|states| - 1] == w;
    ChainAgreed(states, |states| - 1, run);
  }

  lemma {:induction false} ClashMakesWrong(s: State, w: State, run: Ref)
    requires Agreed(s) && Sound(s, run) && Leads(s, w) && Clash(w, run)
    ensures MayGoWrong(s, run)
  {
    LeadsAgreed(s, w, run);
    var x := ClashGoesWrong(w, run);
    LeadsThrough(s, w, x);
  }

  /** From any state reached without a clash on the run, the run may be left wrong exactly when a clash can come. */
  lemma {:induction false} GoesWrongExactly(states: seq<State>, i: nat, run: Ref)
    requires Path(states) && i < |states| && forall j: nat | j < i :: !Clash(states[j], run)
    ensures MayGoWrong(states[i], run) <==> MayClash(states[i], run)
  {
    StartSound(states[0].asks, run);
    ChainSound(states, i, run);
    if w :| Leads(states[i], w) && Wrong(w, run) {
      WrongNeedsClash(states[i], w, run);
    }
    if w :| Leads(states[i], w) && Clash(w, run) {
      ClashMakesWrong(states[i], w, run);
    }
  }

  // ---------- single steps, from any state ----------

  lemma {:induction false} Begin(b: State, s: State, t: Tid, pc: Pc) returns (w: State)
    requires Leads(b, s) && At(s, t).Finished? && Beginning(pc)
    ensures Leads(b, w) && w == s.(pcs := s.pcs[t := pc])
  {
    w := s.(pcs := s.pcs[t := pc]);
    LeadsOn(b, s, w);
  }

  lemma {:induction false} Take(b: State, s: State, t: Tid, c: Choice) returns (w: State)
    requires Leads(b, s) && Enabled(s, t, c)
    ensures Leads(b, w) && w == Step(s, t, c)
  {
    w := Step(s, t, c);
    LeadsOn(b, s, w);
  }

  /** A writer's turn at a free lock: announce, then obtain it. */
  lemma {:induction false} Obtain(b: State, s: State, t: Tid, which: Which) returns (w: State)
    requires Leads(b, s) && Needs(At(s, t)) == Some((which, Exclusive)) && Of(s, which) == FREE
    ensures Leads(b, w)
    ensures w == With(s, which, Lock({}, Some(t), None)).(pcs := s.pcs[t := Entered(At(s, t))])
  {
    w := Take(b, s, t, NOTHING);
    w := Take(b, w, t, NOTHING);
  }

  lemma {:induction false} LookIs(s: State, t: Tid, id: string)
    requires At(s, t) == LookWait(None, id) && s.dispatcher == FREE && id in s.runs
    ensures Enabled(s, t, NOTHING)
    ensures Step(s, t, NOTHING) == s.(dispatcher := Lock({t}, None, None), pcs := s.pcs[t := LookIn(None, id)])
  {
  }

  lemma {:induction false} FoundIs(s: State, t: Tid, id: string)
    requires At(s, t) == LookIn(None, id) && s.dispatcher == Lock({t}, None, None) && id in s.runs
    ensures Enabled(s, t, NOTHING)
    ensures Step(s, t, NOTHING) == s.(dispatcher := FREE, pcs := s.pcs[t := Asking(None, s.runs[id])])
  {
    assert {t} - {t} == {};
  }

  /** Thread t looks up a run on its own. */
  lemma {:induction false} LookUp(b: State, s: State, t: Tid, id: string) returns (w: State)
    requires Leads(b, s) && At(s, t).Finished? && s.dispatcher == FREE && id in s.runs
    ensures Leads(b, w) && w == s.(pcs := s.pcs[t := Asking(None, s.runs[id])])
  {
    w := Begin(b, s, t, LookWait(None, id));
    LookIs(w, t, id);
    w := Take(b, w, t, NOTHING);
    FoundIs(w, t, id);
    w := Take(b, w, t, NOTHING);
  }

  lemma {:induction false} AnswerIs(s: State, t: Tid, run: Ref, status: string, conclusion: string)
    requires s.asks && At(s, t) == Asking(None, run)
    ensures var c := Choice(true, "", status, conclusion);
            Enabled(s, t, c) && Step(s, t, c) == s.(pcs := s.pcs[t := WriteStatus(None, run, status, conclusion)])
  {
  }

  /** It looks the run up and gets this reply. */
  lemma {:induction false} Hear(b: State, s: State, t: Tid, id: string, status: string, conclusion: string)
    returns (w: State)
    requires Leads(b, s) && s.asks && At(s, t).Finished? && s.dispatcher == FREE && id in s.runs
    ensures Leads(b, w) && w == s.(pcs := s.pcs[t := WriteStatus(None, s.runs[id], status, conclusion)])
  {
    w := LookUp(b, s, t, id);
    AnswerIs(w, t, s.runs[id], status, conclusion);
    w := Take(b, w, t, Choice(true, "", status, conclusion));
    assert s.pcs[t := Asking(None, s.runs[id])][t := WriteStatus(None, s.runs[id], status, conclusion)]
        == s.pcs[t := WriteStatus(None, s.runs[id], status, conclusion)];
  }

  // ---------- between operations ----------

  ghost predicate Quiet(s: State) {
    s.dispatcher == FREE && forall t: Tid :: At(s, t).Finished?
  }

  /** Nobody writes the run, and nobody can come to: no status is asked for, or the run is out of the table. */
  ghost predicate Hopeless(s: State, run: Ref) {
    && run < |s.cells| && (forall t: Tid :: !Writing(At(s, t), run))
    && (!s.asks || (run !in s.runs.Values && forall t: Tid :: !(At(s, t).Asking? && At(s, t).run == run)))
  }

  lemma {:induction false} PointHopeless(s: State, pc: Pc, c: Choice, run: Ref)
    requires Hopeless(s, run) && !Writing(pc, run) && (s.asks ==> !(pc.Asking? && pc.run == run))
    ensures var w, next := Written(s, pc, c), After(s, pc, c);
            && run < |w.cells| && !Writing(next, run) && w.asks == s.asks
            && (s.asks ==> run !in w.runs.Values && !(next.Asking? && next.run == run))
  {
  }

  lemma {:induction false} MoveHopeless(s: State, w: State, t: Tid, run: Ref)
    requires Hopeless(s, run) && Moves(s, w, t, At(w, t)) && w.asks == s.asks && run < |w.cells|
    requires !Writing(At(w, t), run)
    requires s.asks ==> run !in w.runs.Values && !(At(w, t).Asking? && At(w, t).run == run)
    ensures Hopeless(w, run)
  {
  }

  lemma {:induction false} StepHopeless(s: State, t: Tid, c: Choice, run: Ref)
    requires Hopeless(s, run) && Enabled(s, t, c)
    ensures Hopeless(Step(s, t, c), run)
  {
    if Needs(At(s, t)).Some? {
      AcquireWritesNothing(s, t, c);
    } else {
      PointHopeless(s, At(s, t), c, run);
      ActMoves(s, t, c);
    }
    MoveHopeless(s, Step(s, t, c), t, run);
  }

  lemma {:induction false} BeginHopeless(s: State, t: Tid, pc: Pc, run: Ref)
    requires Hopeless(s, run) && Beginning(pc)
    ensures Hopeless(s.(pcs := s.pcs[t := pc]), run)
  {
    MoveHopeless(s, s.(pcs := s.pcs[t := pc]), t, run);
  }

  lemma {:induction false} NextHopeless(s: State, w: State, run: Ref)
    requires Hopeless(s, run) && Next(s, w)
    ensures Hopeless(w, run)
  {
    if t: Tid, pc :| At(s, t).Finished? && Beginning(pc) && w == s.(pcs := s.pcs[t := pc]) {
      BeginHopeless(s, t, pc, run);
    } else {
      var t: Tid, c :| Enabled(s, t, c) && w == Step(s, t, c);
      StepHopeless(s, t, c, run);
    }
  }

  lemma {:induction false} ChainHopeless(states: seq<State>, i: nat, run: Ref)
    requires Chain(states) && i < |states| && Hopeless(states[0], run)
    ensures Hopeless(states[i], run)
  {
    if i > 0 {
      ChainHopeless(states, i - 1, run);
      ChainStep(states, i - 1, i);
      NextHopeless(states[i - 1], states[i], run);
    }
  }

  lemma {:induction false} HopelessStaysRight(s: State, w: State, run: Ref)
    requires Hopeless(s, run) && Leads(s, w)
    ensures !Clash(w, run)
  {
    var states :| Chain(states) && states[0] == s && states[|states| - 1] == w;
    ChainHopeless(states, |states| - 1, run);
  }

  /** Two threads look the run up and hear different things. */
  lemma {:induction false} TwoHear(s: State, id: string) returns (w: State)
    requires Quiet(s) && s.asks && id in s.runs
    ensures Leads(s, w) && Clash(w, s.runs[id])
  {
    LeadsNowhere(s);
    var first := Hear(s, s, 0, id, "completed", "success");
    assert At(first, 1) == At(s, 1);
    w := Hear(s, first, 1, id, "in_progress", "");
    assert Succeeding(At(w, 0), s.runs[id]) && Overwriting(At(w, 1), s.runs[id]);
  }

  lemma {:induction false} QuietIsSound(s: State, run: Ref)
    requires Quiet(s) && Honest(Cell(s, run))
    ensures Sound(s, run)
  {
  }

  /**
   * Between operations, an honest run may yet be left wrong exactly when statuses can be asked for and the run is
   * in the table.
   */
  lemma {:induction false} QuietGoesWrongExactly(states: seq<State>, i: nat, run: Ref)
    requires Path(states) && i < |states| && Quiet(states[i])
    requires run < |states[i].cells| && Honest(Cell(states[i], run))
    ensures MayGoWrong(states[i], run) <==> states[i].asks && run in states[i].runs.Values
  {
    var s := states[i];
    AlwaysAgreed(states, i);
    QuietIsSound(s, run);
    if s.asks && run in s.runs.Values {
      var id :| id in s.runs && s.runs[id] == run;
      var w := TwoHear(s, id);
      ClashMakesWrong(s, w, run);
    } else if w :| Leads(s, w) && Wrong(w, run) {
      WrongNeedsClash(s, w, run);
      var x :| Leads(s, x) && Clash(x, run);
      HopelessStaysRight(s, x, run);
    }
  }

  // ---------- a run left wrong for good ----------

  const INIT := Start(true)

  const FILED := State(map[], [Task("7", "7", "7", "dispatched")], map["7" := 0], [Run("queued", "")], FREE, FREE,
                       map[0 := PublishWait(0)], {}, true)

  const PUBLISHED := State(map["7" := 0], [Task("7", "7", "7", "dispatched")], map["7" := 0], [Run("queued", "")],
                           FREE, FREE, map[0 := Finished], {0}, true)

  const POSTED := INIT.(pcs := map[0 := FileWait("7")])

  lemma {:induction false} ReachPosted()
    ensures Leads(INIT, POSTED)
  {
    LeadsNowhere(INIT);
    var s := Begin(INIT, INIT, 0, Posting);
    s := Take(INIT, s, 0, Choice(true, "7", "", ""));
    assert s == POSTED;
  }

  lemma {:induction false} FilingIs(s: State)
    requires s == POSTED.(dispatcher := Lock({}, Some(0), None), pcs := map[0 := FileIn("7")])
    ensures Enabled(s, 0, NOTHING) && Step(s, 0, NOTHING) == FILED
  {
  }

  lemma {:induction false} ReachFiled()
    ensures Leads(INIT, FILED)
  {
    ReachPosted();
    var s := Obtain(INIT, POSTED, 0, DispatcherLock);
    FilingIs(s);
    s := Take(INIT, s, 0, NOTHING);
  }

  lemma {:induction false} PublishingIs(s: State)
    requires s == FILED.(engine := Lock({}, Some(0), None), pcs := map[0 := PublishIn(0)])
    ensures Enabled(s, 0, NOTHING) && Step(s, 0, NOTHING) == PUBLISHED
  {
  }

  lemma {:induction false} ReachPublished()
    ensures Leads(INIT, PUBLISHED)
  {
    ReachFiled();
    var s := Obtain(INIT, FILED, 0, EngineLock);
    PublishingIs(s);
    s := Take(INIT, s, 0, NOTHING);
  }

  /** The next point of a bare lookup, and the cell it leaves. */
  function Onward(pc: Pc): Pc {
    match pc
    case WriteStatus(polled, run, status, conclusion) => WriteConclusion(polled, run, status, conclusion)
    case WriteConclusion(polled, run, status, conclusion) => Mapping(polled, run, status, conclusion)
    case Mapping(polled, run, _, _) => Telling(polled, run)
    case _ => Finished
  }

  /** One run, and these threads. */
  function With7(cell: Run, pcs: map<Tid, Pc>): State {
    PUBLISHED.(cells := [cell], pcs := pcs)
  }

  lemma {:induction false} TurnIs(cell: Run, pcs: map<Tid, Pc>, t: Tid)
    requires t in pcs && (Writing(pcs[t], 0) || pcs[t] == Telling(None, 0)) && pcs[t].polled.None?
    ensures var s := With7(cell, pcs);
            Enabled(s, t, NOTHING) && Step(s, t, NOTHING) == With7(Turned(pcs[t], cell), pcs[t := Onward(pcs[t])])
  {
    var s := With7(cell, pcs);
    assert Set(s, 0, Turned(pcs[t], cell)).cells == [Turned(pcs[t], cell)];
  }

  lemma {:induction false} Turn(cell: Run, pcs: map<Tid, Pc>, t: Tid)
    requires Leads(INIT, With7(cell, pcs))
    requires t in pcs && (Writing(pcs[t], 0) || pcs[t] == Telling(None, 0)) && pcs[t].polled.None?
    ensures Leads(INIT, With7(Turned(pcs[t], cell), pcs[t := Onward(pcs[t])]))
  {
    TurnIs(cell, pcs, t);
    var w := Take(INIT, With7(cell, pcs), t, NOTHING);
  }

  /** Thread t hears this about the run. */
  lemma {:induction false} Reply(cell: Run, pcs: map<Tid, Pc>, t: Tid, status: string, conclusion: string)
    requires Leads(INIT, With7(cell, pcs)) && t !in pcs
    ensures Leads(INIT, With7(cell, pcs[t := WriteStatus(None, 0, status, conclusion)]))
  {
    var w := Hear(INIT, With7(cell, pcs), t, "7", status, conclusion);
  }

  /** It writes both fields. */
  lemma {:induction false} ReplyWritten(cell: Run, pcs: map<Tid, Pc>, t: Tid, status: string, conclusion: string)
    requires Leads(INIT, With7(cell, pcs)) && t !in pcs
    ensures Leads(INIT, With7(Run(status, conclusion), pcs[t := Mapping(None, 0, status, conclusion)]))
  {
    Reply(cell, pcs, t, status, conclusion);
    var first := pcs[t := WriteStatus(None, 0, status, conclusion)];
    Turn(cell, first, t);
    var second := first[t := WriteConclusion(None, 0, status, conclusion)];
    Turn(cell.(status := status), second, t);
    assert second[t := Mapping(None, 0, status, conclusion)] == pcs[t := Mapping(None, 0, status, conclusion)];
  }

  /** It maps the status and is done. */
  lemma {:induction false} ReplyMapped(cell: Run, pcs: map<Tid, Pc>, t: Tid)
    requires Leads(INIT, With7(cell, pcs)) && t in pcs && pcs[t].Mapping? && pcs[t].run == 0 && pcs[t].polled.None?
    ensures Leads(INIT, With7(Turned(pcs[t], cell), pcs[t := Finished]))
  {
    Turn(cell, pcs, t);
    var next := pcs[t := Telling(None, 0)];
    Turn(Turned(pcs[t], cell), next, t);
    assert next[t := Finished] == pcs[t := Finished];
  }

  const DONE: map<Tid, Pc> := map[0 := Finished]
  const SUCCESS := Mapping(None, 0, "completed", "success")
  const OLDER := Mapping(None, 0, "in_progress", "")

  /** The first thread writes status and conclusion of a successful completion, the second those of an older reply. */
  lemma {:induction false} ReachOlder()
    ensures Leads(INIT, With7(Run("in_progress", ""), DONE[1 := SUCCESS][2 := OLDER]))
  {
    ReachPublished();
    assert PUBLISHED == With7(Run("queued", ""), DONE);
    ReplyWritten(Run("queued", ""), DONE, 1, "completed", "success");
    ReplyWritten(Run("completed", "success"), DONE[1 := SUCCESS], 2, "in_progress", "");
  }

  lemma {:induction false} ReachOlderMapped()
    ensures Leads(INIT, With7(Run("in_progress", ""), DONE[1 := SUCCESS][2 := OLDER][2 := Finished]))
  {
    ReachOlder();
    ReplyMapped(Run("in_progress", ""), DONE[1 := SUCCESS][2 := OLDER], 2);
  }

  const WRONG := With7(Run("completed", ""), DONE[1 := SUCCESS][2 := OLDER][2 := Finished][1 := Finished])

  /** With every thread done and both locks free, a run reads completed although no conclusion is recorded. */
  lemma {:induction false} CompletedWithoutSuccess()
    ensures Leads(INIT, WRONG) && WRONG.cells == [Run("completed", "")]
    ensures WRONG.engine == FREE && WRONG.dispatcher == FREE && forall t: Tid :: At(WRONG, t).Finished?
  {
    ReachOlderMapped();
    ReplyMapped(Run("in_progress", ""), DONE[1 := SUCCESS][2 := OLDER][2 := Finished], 1);
  }
}
