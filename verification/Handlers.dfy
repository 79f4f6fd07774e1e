/** The API handlers that join the store and the assembly: push events and the agent runtime. */
module Handlers {
  import opened Wrappers
  import opened Text
  import opened Assembly
  import opened Store

  // ---------- push events ----------

  function ClassifyMessage(toLower: char -> char, msg: string): string {
    var lower := Fold(toLower, msg);
    if Contains(lower, "fix") || Contains(lower, "bug") || Contains(lower, "hotfix") then "mistake"
    else if Contains(lower, "decision") || Contains(lower, "decide") then "adr"
    else if Contains(lower, "decision") || Contains(lower, "refactor") then "adr"
    else if Contains(lower, "sprint") then "sprint"
    else "operational"
  }

  /** Speaks of a decision or a refactoring, and of no fix and no bug. */
  predicate Decides(toLower: char -> char, msg: string) {
    var lower := Fold(toLower, msg);
    && (Contains(lower, "decision") || Contains(lower, "decide") || Contains(lower, "refactor"))
    && !Contains(lower, "fix") && !Contains(lower, "bug")
  }

  lemma HotfixIsFix(lower: string)
    requires Contains(lower, "hotfix")
    ensures Contains(lower, "fix")
  {
    assert At("hotfix", "fix", 3);
    ContainsTransitive(lower, "hotfix", "fix");
  }

  /** A message becomes an ADR exactly when it decides; no message becomes a PDR or a preference. */
  lemma ClassifiedAdrExactly(toLower: char -> char, msg: string)
    ensures ClassifyMessage(toLower, msg) == "adr" <==> Decides(toLower, msg)
    ensures ClassifyMessage(toLower, msg) !in ["pdr", "pref"]
  {
    if Contains(Fold(toLower, msg), "hotfix") {
      HotfixIsFix(Fold(toLower, msg));
    }
  }

  /** The other types, none of which the store knows. */
  lemma {:induction false} ClassifiedExactly(toLower: char -> char, msg: string)
    ensures var lower, kind := Fold(toLower, msg), ClassifyMessage(toLower, msg);
            var wrong := Contains(lower, "fix") || Contains(lower, "bug");
            && (kind == "mistake" <==> wrong)
            && (kind == "sprint" <==> !wrong && !Decides(toLower, msg) && Contains(lower, "sprint"))
            && (kind == "operational" <==> !wrong && !Decides(toLower, msg) && !Contains(lower, "sprint"))
  {
    if Contains(Fold(toLower, msg), "hotfix") {
      HotfixIsFix(Fold(toLower, msg));
    }
  }

  function Truncate(s: string, n: nat): string {
    if |s| <= n then s else s[..n] + "..."
  }

  /** An element of the commits array: something else than an object, or an object with this message ("" if none). */
  datatype Commit = NotAnObject | Commit(message: string)

  function PushEntry(toLower: char -> char, msg: string): Entry {
    Entry(ClassifyMessage(toLower, msg), "Commit: " + Truncate(msg, 50), msg, "")
  }

  /** A commit without a message is skipped; creation errors are ignored. */
  function AfterCommit(f: char -> char, toLower: char -> char, t: Tables, c: Commit, ok: Answers): Tables {
    if c.NotAnObject? || c.message == "" then t else Create(f, t, PushEntry(toLower, c.message), ok).0
  }

  /** The tables after the first n commits. */
  function Pushed(f: char -> char, toLower: char -> char, t: Tables, commits: seq<Commit>, answers: nat -> Answers, n: nat)
    : Tables
    requires n <= |commits|
  {
    if n == 0 then t
    else AfterCommit(f, toLower, Pushed(f, toLower, t, commits, answers, n - 1), commits[n - 1], answers(n - 1))
  }

  /** processPushEvent; None for a payload without a commits array. */
  method ProcessPushEvent(repo: Repository, f: char -> char, toLower: char -> char,
                          commits: Option<seq<Commit>>, answers: nat -> Answers)
    requires repo.Valid()
    modifies repo
    ensures repo.Valid()
    ensures repo.View() == if commits.None? then old(repo.View())
                           else Pushed(f, toLower, old(repo.View()), commits.value, answers, |commits.value|)
  {
    if commits.None? {
      return;
    }
    for i := 0 to |commits.value|
      invariant repo.Valid()
      invariant repo.View() == Pushed(f, toLower, old(repo.View()), commits.value, answers, i)
    {
      ProcessCommit(repo, f, toLower, commits.value[i], answers(i));
    }
  }

  /** The body of that loop. */
  method ProcessCommit(repo: Repository, f: char -> char, toLower: char -> char, c: Commit, ok: Answers)
    requires repo.Valid()
    modifies repo
    ensures repo.Valid() && repo.View() == AfterCommit(f, toLower, old(repo.View()), c, ok)
  {
    if c.NotAnObject? {
      return;
    }
    if c.message == "" {
      return;
    }
    var _ := repo.CreateMemory(f, PushEntry(toLower, c.message), ok);
  }

  /** An ADR that some commit of the payload accounts for. */
  ghost predicate FromCommit(toLower: char -> char, commits: seq<Commit>, a: Adr) {
    exists c | c in commits ::
      && c.Commit? && c.message == a.context && a.title == "Commit: " + Truncate(c.message, 50)
      && Decides(toLower, c.message)
  }

  lemma PushOneCommit(f: char -> char, toLower: char -> char, t: Tables, commits: seq<Commit>, c: Commit, ok: Answers)
    requires c in commits
    ensures var after := AfterCommit(f, toLower, t, c, ok);
            && after.pdrs == t.pdrs && after.prefs == t.prefs
            && (after.adrs == t.adrs
                || exists a | FromCommit(toLower, commits, a) :: after.adrs == t.adrs + [a])
  {
    var after := AfterCommit(f, toLower, t, c, ok);
    if c.Commit? && c.message != "" {
      ClassifiedAdrExactly(toLower, c.message);
      if after.adrs != t.adrs {
        var a := after.adrs[|t.adrs|];
        assert FromCommit(toLower, commits, a) && after.adrs == t.adrs + [a];
      }
    }
  }

  /** Whatever is pushed, PDRs and preferences stay as they are and the ADRs only gain deciding commits. */
  lemma {:induction false} PushAddsOnlyDecisions(f: char -> char, toLower: char -> char, t: Tables,
                                                 commits: seq<Commit>, answers: nat -> Answers, n: nat)
    requires n <= |commits|
    ensures var after := Pushed(f, toLower, t, commits, answers, n);
            && after.pdrs == t.pdrs && after.prefs == t.prefs && t.adrs <= after.adrs
            && forall a | a in after.adrs[|t.adrs|..] :: FromCommit(toLower, commits, a)
  {
    if n > 0 {
      PushAddsOnlyDecisions(f, toLower, t, commits, answers, n - 1);
      PushOneCommit(f, toLower, Pushed(f, toLower, t, commits, answers, n - 1), commits, commits[n - 1], answers(n - 1));
    }
  }

  /** A deciding commit is stored as an ADR with its message, unless it is a duplicate or the insert fails. */
  lemma {:induction false} DecidingCommitIsStored(f: char -> char, toLower: char -> char, t: Tables, c: Commit, ok: Answers)
    requires CaseFolding(f) && ok.pdrSearch && ok.adrSearch && c.Commit? && Decides(toLower, c.message)
    ensures var title := "Commit: " + (if |c.message| <= 50 then c.message else c.message[..50] + "...");
            var known := HasTwin(f, t, title) && (FindsItself(f, title) || TwinMentions(f, t, title));
            AfterCommit(f, toLower, t, c, ok)
            == if known || ok.insert.None? then t
               else t.(adrs := t.adrs + [Adr(ok.insert.value, title, c.message, "", "", "", ok.now)])
  {
    ClassifiedAdrExactly(toLower, c.message);
    CreatedExactly(f, t, PushEntry(toLower, c.message), ok);
    DecidingIsNotEmpty(toLower, c.message);
  }

  lemma {:induction false} DecidingIsNotEmpty(toLower: char -> char, msg: string)
    requires Decides(toLower, msg)
    ensures msg != ""
  {
    var lower := Fold(toLower, msg);
    var p := if Contains(lower, "decision") then "decision" else if Contains(lower, "decide") then "decide" else "refactor";
    var i: nat :| i <= |lower| && At(lower, p, i);
  }

  /** Everything else leaves the tables as they are. */
  lemma {:induction false} OtherCommitsAreNot(f: char -> char, toLower: char -> char, t: Tables, c: Commit, ok: Answers)
    requires c.NotAnObject? || !Decides(toLower, c.message)
    ensures AfterCommit(f, toLower, t, c, ok) == t
  {
    if c.Commit? {
      ClassifiedAdrExactly(toLower, c.message);
    }
  }

  // ---------- the agent runtime over the store ----------

  /** When every ADR found has the same, empty, content. */
  lemma SourcesVary(tag: string -> string, results: seq<SearchResult>, budget: nat)
    requires forall r | r in results && r.kind == "adr" :: r.content == ""
    ensures Varied(Assembled(tag, results, budget).value.sources)
  {
    var ds := Distinct(results);
    var used := ds[..Cut(tag, ds, budget, 0)];
    DistinctHasNoRepeats(results);
    forall r | r in ds
      ensures r in results
    {
      DistinctKeepsFirsts(results, r);
    }
    assert forall i | 0 <= i < |used| :: used[i] in ds && AsSources(used)[i] == AsSource(used[i]);
  }

  /** No two sources share their content, and at most one of them is an ADR. */
  predicate Varied(sources: seq<Source>) {
    forall i, j | 0 <= i < j < |sources| ::
      sources[i].content != sources[j].content && !(sources[i].kind == "adr" && sources[j].kind == "adr")
  }

  /**
   * handleAgentRuntime: search, then assemble. An ADR is stored with its text as context but found by its
   * decision, which is empty; so the content-based deduplication lets at most one ADR through.
   */
  method AgentRuntime(repo: Repository, f: char -> char, task: string, pdrOk: bool, adrOk: bool,
                      recency: int -> real)
    returns (out: Context, ghost results: seq<SearchResult>)
    requires repo.Valid()
    ensures Searched(f, repo.View(), task, 10, pdrOk, adrOk, recency, results)
    ensures Some(out) == Assembled(Plain, results, 8000)
    ensures |out.text| <= 8004 && Varied(out.sources)
  {
    var all := repo.SearchMemory(f, task, 10, pdrOk, adrOk, recency);
    results := all;
    SearchedAdrsAreEmpty(repo, f, task, 10, pdrOk, adrOk, recency, results);
    SourcesVary(Plain, results, 8000);
    TextIsBounded(Plain, results, 8000);
    var answer, seen := Assemble(Plain, all, 8000);
    out := answer.value;
  }

  /** handleBootstrap: 15 results, kinds in upper case, a budget of its own; None is the panic of a negative budget. */
  method Bootstrap(repo: Repository, f: char -> char, toUpper: char -> char, task: string, maxChars: int,
                   pdrOk: bool, adrOk: bool, recency: int -> real)
    returns (out: Option<Context>, ghost results: seq<SearchResult>)
    requires repo.Valid()
    ensures var query := if task == "" then "operational context preparation" else task;
            Searched(f, repo.View(), query, 15, pdrOk, adrOk, recency, results)
    ensures var budget := if maxChars == 0 then 6000 else maxChars;
            && out == Assembled(kind => Fold(toUpper, kind), results, budget)
            && (out.Some? ==> |out.value.text| <= budget + 4)
    ensures out.Some? ==> Varied(out.value.sources)
  {
    var query := task;
    if query == "" {
      query := "operational context preparation";
    }
    var budget := maxChars;
    if budget == 0 {
      budget := 6000;
    }
    var all := repo.SearchMemory(f, query, 15, pdrOk, adrOk, recency);
    results := all;
    SearchedAdrsAreEmpty(repo, f, query, 15, pdrOk, adrOk, recency, results);
    var tag := kind => Fold(toUpper, kind);
    var answer, seen := Assemble(tag, all, budget);
    out := answer;
    if budget >= 0 {
      SourcesVary(tag, results, budget);
      TextIsBounded(tag, results, budget);
    }
  }

  lemma SearchedAdrsAreEmpty(repo: Repository, f: char -> char, query: string, limit: nat, pdrOk: bool, adrOk: bool,
                             recency: int -> real, results: seq<SearchResult>)
    requires repo.Valid()
    requires Searched(f, repo.View(), query, limit, pdrOk, adrOk, recency, results)
    ensures forall r | r in results && r.kind == "adr" :: r.content == ""
  {
    var found, decisions :| FoundAs(f, repo.View(), query, limit, pdrOk, adrOk, recency, results, found, decisions);
    SameMembers(decisions, MatchingAdrs(f, query, repo.adrs, adrOk));
    forall r | r in results && r.kind == "adr"
      ensures r.content == ""
    {
      var all := PdrResults(found, recency) + AdrResults(decisions, recency);
      var i :| 0 <= i < |results| && results[i] == r;
      assert all[i] == r;
      if i >= |found| {
        assert decisions[i - |found|] in decisions;
      }
    }
  }
}
