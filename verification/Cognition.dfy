/** The fallback intent classifier: an ordered cascade of pattern lists over the lower-cased message. */
module Cognition {
  import opened Wrappers
  import opened Text

  datatype IntentType =
    | Unknown | Investigation | Execution | Planning | Prioritization
    | Blocking | Auditing | Clarification | Acknowledgment

  datatype Intent = Intent(
    kind: IntentType, confidence: real, reasoning: string, task: string,
    shouldExecute: bool, shouldStop: bool, urgency: string)

  datatype Lists = Lists(
    blocking: seq<string>, investigation: seq<string>, auditing: seq<string>, execution: seq<string>,
    planning: seq<string>, prioritization: seq<string>, clarification: seq<string>, acknowledgment: seq<string>)

  const BLOCKING := [
    "pare", "pare agora", "pare a execucao", "cancele",
    "interrompa", "nao continue", "pare com isso",
    "stop", "cancel", "halt", "abort", "never mind",
    "forget it", "desista", "abortar"]

  const INVESTIGATION := [
    "investigue", "apenas analise", "nao execute", "nao modifique",
    "nao faca nada", "analise primeiro", "somente analise",
    "understand", "investigate first", "just analyze",
    "don't change anything", "don't modify", "don't execute",
    "only look", "only check", "just check",
    "quiero entender", "analizar", "solo analizar"]

  const AUDITING := [
    "audite", "review", "inspecione", "verifique",
    "revise o codigo", "veja o que tem", "check",
    "what's the state", "current status", "what's wrong"]

  const EXECUTION := [
    "corrija", "correto", "corrigido", "corrigir",
    "execute", "executar", "rode", "rodar",
    "implemente", "implementar", "fa\U{E7}a", "fazer",
    "aplique", "aplicar", "fix", "fix it",
    "make it work", "estabilize", "resolve", "resolva",
    "agora", "imediatamente", "right now", "now",
    "precisa ser", "tem que ser", "must be",
    "pode executar", "can execute", "go ahead"]

  const PLANNING := [
    "como fazer", "como proceder", "roadmap", "estrategia",
    "what should we do", "next steps", "plan", "planning",
    "caminho", "direction", "path forward"]

  const PRIORITIZATION := [
    "prioridade", "o que importa", "mais importante",
    "priority", "what matters", "sequence", "order"]

  const CLARIFICATION := [
    "como", "oq", "o que e", "explique",
    "explain", "what is", "what does",
    "mais detalhes", "more details", "elaborate"]

  const ACKNOWLEDGMENT := [
    "ok", "entendi", "entendido", "confirmado", "sim", "yes",
    "understood", "confirmed", "roger", "got it"]

  const LISTED := Lists(BLOCKING, INVESTIGATION, AUDITING, EXECUTION,
                        PLANNING, PRIORITIZATION, CLARIFICATION, ACKNOWLEDGMENT)

  // ---------- the cascade as a function of the lower-cased text ----------

  predicate Hits(lower: string, patterns: seq<string>) {
    exists p | p in patterns :: Contains(lower, p)
  }

  /** The first listed pattern the text contains, "" when there is none. */
  function First(lower: string, patterns: seq<string>): string {
    if patterns == [] then ""
    else if Contains(lower, patterns[0]) then patterns[0]
    else First(lower, patterns[1..])
  }

  /** The guard inside the execution loop. */
  predicate Negated(lower: string) {
    Contains(lower, "nao ") && !Contains(lower, "nao execute")
  }

  predicate Acks(lower: string, p: string) {
    lower == p || HasPrefix(lower, p + ".") || HasPrefix(lower, p + "!")
  }

  function FirstAck(lower: string, patterns: seq<string>): string {
    if patterns == [] then ""
    else if Acks(lower, patterns[0]) then patterns[0]
    else FirstAck(lower, patterns[1..])
  }

  /** Which step of the cascade decides: 1 blocking .. 7 clarification, 8 acknowledgment, 9 nothing matched. */
  function Rank(ls: Lists, lower: string): nat {
    if Hits(lower, ls.blocking) then 1
    else if Hits(lower, ls.investigation) then 2
    else if Hits(lower, ls.auditing) then 3
    else if Hits(lower, ls.execution) && !Negated(lower) then 4
    else if Hits(lower, ls.planning) then 5
    else if Hits(lower, ls.prioritization) then 6
    else if Hits(lower, ls.clarification) then 7
    else if exists p | p in ls.acknowledgment :: Acks(lower, p) then 8
    else 9
  }

  function Urgency(lower: string): string {
    if Contains(lower, "agora") || Contains(lower, "imediatamente") || Contains(lower, "right now") then "high" else ""
  }

  function KindOf(rank: nat): IntentType {
    match rank
    case 1 => Blocking
    case 2 => Investigation
    case 3 => Auditing
    case 4 => Execution
    case 5 => Planning
    case 6 => Prioritization
    case 8 => Acknowledgment
    case _ => Clarification
  }

  function Because(why: string, pattern: string): string {
    why + ": '" + pattern + "'"
  }

  function Reasoning(ls: Lists, lower: string, rank: nat): string {
    match rank
    case 1 => Because("User explicitly requested to stop", First(lower, ls.blocking))
    case 2 => Because("User explicitly requested analysis only", First(lower, ls.investigation))
    case 3 => Because("User requested inspection", First(lower, ls.auditing))
    case 4 => Because("User requested execution", First(lower, ls.execution))
    case 5 => Because("User requested planning", First(lower, ls.planning))
    case 6 => Because("User requested prioritization", First(lower, ls.prioritization))
    case 7 => Because("User requested clarification", First(lower, ls.clarification))
    case 8 => Because("User acknowledged", FirstAck(lower, ls.acknowledgment))
    case _ => "Intent unclear from message content"
  }

  function Verdict(rank: nat, reasoning: string, urgency: string): Intent {
    Intent(KindOf(rank), if rank == 9 then 0.3 else 0.7, reasoning, "", rank == 4, rank == 1,
           if rank == 4 then urgency else "")
  }

  function Classify(ls: Lists, lower: string): Intent {
    var rank := Rank(ls, lower);
    Verdict(rank, Reasoning(ls, lower, rank), Urgency(lower))
  }

  // ---------- the loops of the source ----------

  method Scan(lower: string, patterns: seq<string>) returns (hit: bool, pattern: string)
    ensures hit == Hits(lower, patterns)
    ensures hit ==> pattern == First(lower, patterns)
  {
    for i := 0 to |patterns|
      invariant forall j | 0 <= j < i :: !Contains(lower, patterns[j])
      invariant First(lower, patterns) == First(lower, patterns[i..])
    {
      if Contains(lower, patterns[i]) {
        return true, patterns[i];
      }
      assert patterns[i..][1..] == patterns[i + 1..];
    }
    return false, "";
  }

  /** The execution loop: a negation makes it skip the matching pattern and go on to the next one. */
  method ScanExecution(lower: string, patterns: seq<string>) returns (hit: bool, pattern: string)
    ensures hit == (Hits(lower, patterns) && !Negated(lower))
    ensures hit ==> pattern == First(lower, patterns)
  {
    for i := 0 to |patterns|
      invariant Negated(lower) || forall j | 0 <= j < i :: !Contains(lower, patterns[j])
      invariant Negated(lower) || First(lower, patterns) == First(lower, patterns[i..])
    {
      if Contains(lower, patterns[i]) {
        if Contains(lower, "nao ") && !Contains(lower, "nao execute") {
          continue;
        }
        return true, patterns[i];
      }
      assert patterns[i..][1..] == patterns[i + 1..];
    }
    return false, "";
  }

  method ScanAcknowledgment(lower: string, patterns: seq<string>) returns (hit: bool, pattern: string)
    ensures hit == exists p | p in patterns :: Acks(lower, p)
    ensures hit ==> pattern == FirstAck(lower, patterns)
  {
    for i := 0 to |patterns|
      invariant forall j | 0 <= j < i :: !Acks(lower, patterns[j])
      invariant FirstAck(lower, patterns) == FirstAck(lower, patterns[i..])
    {
      if lower == patterns[i] || HasPrefix(lower, patterns[i] + ".") || HasPrefix(lower, patterns[i] + "!") {
        return true, patterns[i];
      }
      assert patterns[i..][1..] == patterns[i + 1..];
    }
    return false, "";
  }

  method Cascade(ls: Lists, lower: string) returns (intent: Intent)
    ensures intent == Classify(ls, lower)
  {
    intent := Intent(Unknown, 0.7, "", "", false, false, "");
    var hit, pattern := Scan(lower, ls.blocking);
    if hit {
      return intent.(kind := Blocking, reasoning := Because("User explicitly requested to stop", pattern),
                     shouldStop := true, shouldExecute := false);
    }
    hit, pattern := Scan(lower, ls.investigation);
    if hit {
      return intent.(kind := Investigation, shouldExecute := false, shouldStop := false,
                     reasoning := Because("User explicitly requested analysis only", pattern));
    }
    hit, pattern := Scan(lower, ls.auditing);
    if hit {
      return intent.(kind := Auditing, reasoning := Because("User requested inspection", pattern),
                     shouldExecute := false);
    }
    hit, pattern := ScanExecution(lower, ls.execution);
    if hit {
      intent := intent.(kind := Execution, reasoning := Because("User requested execution", pattern),
                        shouldExecute := true, shouldStop := false);
      if Contains(lower, "agora") || Contains(lower, "imediatamente") || Contains(lower, "right now") {
        intent := intent.(urgency := "high");
      }
      return;
    }
    hit, pattern := Scan(lower, ls.planning);
    if hit {
      return intent.(kind := Planning, reasoning := Because("User requested planning", pattern),
                     shouldExecute := false);
    }
    hit, pattern := Scan(lower, ls.prioritization);
    if hit {
      return intent.(kind := Prioritization, reasoning := Because("User requested prioritization", pattern),
                     shouldExecute := false);
    }
    hit, pattern := Scan(lower, ls.clarification);
    if hit {
      return intent.(kind := Clarification, reasoning := Because("User requested clarification", pattern),
                     shouldExecute := false);
    }
    hit, pattern := ScanAcknowledgment(lower, ls.acknowledgment);
    if hit {
      return intent.(kind := Acknowledgment, reasoning := Because("User acknowledged", pattern),
                     shouldExecute := false);
    }
    return intent.(kind := Clarification, reasoning := "Intent unclear from message content",
                   confidence := 0.3, shouldExecute := false);
  }

  method FallbackAnalysis(toLower: char -> char, message: string) returns (intent: Intent)
    ensures intent == Classify(LISTED, Fold(toLower, message))
  {
    intent := Cascade(LISTED, Fold(toLower, message));
  }

  // ---------- negation ----------

  /** Lists whose investigation step knows the phrase that the negation guard makes an exception for. */
  predicate Guarded(ls: Lists) {
    "nao execute" in ls.investigation
  }

  lemma ListedIsGuarded()
    ensures Guarded(LISTED)
  {
    assert INVESTIGATION[2] == "nao execute";
  }

  /** Execution exactly when no earlier list matches, an execution pattern does, and "nao " does not occur. */
  lemma ExecutionExactly(ls: Lists, lower: string)
    requires Guarded(ls)
    ensures Rank(ls, lower) == 4 <==>
            && !Hits(lower, ls.blocking) && !Hits(lower, ls.investigation) && !Hits(lower, ls.auditing)
            && Hits(lower, ls.execution) && !Contains(lower, "nao ")
  {
    if Contains(lower, "nao execute") {
      assert Hits(lower, ls.investigation);
    }
  }

  lemma {:induction false} NegationExcludesExecution(ls: Lists, lower: string)
    requires Guarded(ls) && Contains(lower, "nao ")
    ensures Classify(ls, lower).kind != Execution
  {
    ExecutionExactly(ls, lower);
  }

  /** No message whose lower-cased text contains "nao " is classified Execution. */
  lemma NegatedNeverExecutes(toLower: char -> char, message: string)
    requires Contains(Fold(toLower, message), "nao ")
    ensures Classify(LISTED, Fold(toLower, message)).kind != Execution
  {
    ListedIsGuarded();
    NegationExcludesExecution(LISTED, Fold(toLower, message));
  }

  /** The flags are a function of the kind: execute for Execution only, stop for Blocking only. */
  lemma FlagsFollowKind(ls: Lists, lower: string)
    ensures var i := Classify(ls, lower);
            && (i.shouldExecute <==> i.kind == Execution)
            && (i.shouldStop <==> i.kind == Blocking)
            && (i.urgency != "" ==> i.kind == Execution)
            && i.kind != Unknown
  {
  }

  // ---------- which lists decide which kind ----------

  /** No stop, analysis or inspection is asked for. */
  predicate Unbarred(ls: Lists, lower: string) {
    !Hits(lower, ls.blocking) && !Hits(lower, ls.investigation) && !Hits(lower, ls.auditing)
  }

  /** Nor is execution, unless it is negated. */
  predicate Unexecuted(ls: Lists, lower: string) {
    Unbarred(ls, lower) && (!Hits(lower, ls.execution) || Contains(lower, "nao "))
  }

  /** Nor planning, nor prioritization. */
  predicate Undecided(ls: Lists, lower: string) {
    Unexecuted(ls, lower) && !Hits(lower, ls.planning) && !Hits(lower, ls.prioritization)
  }

  predicate Acknowledges(ls: Lists, lower: string) {
    exists p | p in ls.acknowledgment :: lower == p || p + "." <= lower || p + "!" <= lower
  }

  /** The first three kinds, for any lists. */
  lemma {:induction false} FirstKindsExactly(ls: Lists, lower: string)
    ensures var kind := Classify(ls, lower).kind;
            && (kind == Blocking <==> Hits(lower, ls.blocking))
            && (kind == Investigation <==> !Hits(lower, ls.blocking) && Hits(lower, ls.investigation))
            && (kind == Auditing <==>
                  !Hits(lower, ls.blocking) && !Hits(lower, ls.investigation) && Hits(lower, ls.auditing))
  {
  }

  /** The other kinds; a clarification by default is told from a listed one by its confidence. */
  lemma {:induction false} KindsExactly(ls: Lists, lower: string)
    requires Guarded(ls)
    ensures var i := Classify(ls, lower);
            && (i.kind == Execution <==> Unbarred(ls, lower) && Hits(lower, ls.execution) && !Contains(lower, "nao "))
            && (i.kind == Planning <==> Unexecuted(ls, lower) && Hits(lower, ls.planning))
            && (i.kind == Prioritization <==>
                  Unexecuted(ls, lower) && !Hits(lower, ls.planning) && Hits(lower, ls.prioritization))
            && (i.kind == Clarification && i.confidence == 0.7 <==> Undecided(ls, lower) && Hits(lower, ls.clarification))
            && (i.kind == Acknowledgment <==>
                  Undecided(ls, lower) && !Hits(lower, ls.clarification) && Acknowledges(ls, lower))
            && (i.kind == Clarification && i.confidence == 0.3 <==>
                  Undecided(ls, lower) && !Hits(lower, ls.clarification) && !Acknowledges(ls, lower))
            && i.confidence in {0.3, 0.7} && (i.confidence == 0.3 ==> i.kind == Clarification)
  {
    ExecutionExactly(ls, lower);
  }

  /** High urgency is an Execution that says now; nothing else is ever set. */
  lemma {:induction false} UrgencyExactly(ls: Lists, lower: string)
    ensures var i := Classify(ls, lower);
            && i.urgency in {"", "high"} && i.task == ""
            && (i.urgency == "high" <==>
                  && i.kind == Execution
                  && (Contains(lower, "agora") || Contains(lower, "imediatamente") || Contains(lower, "right now")))
  {
  }

  /** The list that decides a kind, and what is said about it. */
  function ListFor(ls: Lists, kind: IntentType): seq<string> {
    match kind
    case Blocking => ls.blocking
    case Investigation => ls.investigation
    case Auditing => ls.auditing
    case Execution => ls.execution
    case Planning => ls.planning
    case Prioritization => ls.prioritization
    case Clarification => ls.clarification
    case _ => []
  }

  /** p is the first of the patterns that occurs. */
  ghost predicate Earliest(lower: string, patterns: seq<string>, p: string) {
    exists i | 0 <= i < |patterns| ::
      patterns[i] == p && Contains(lower, p) && forall j | 0 <= j < i :: !Contains(lower, patterns[j])
  }

  lemma {:induction false} FirstIsEarliest(lower: string, patterns: seq<string>)
    requires Hits(lower, patterns)
    ensures Earliest(lower, patterns, First(lower, patterns))
  {
    if !Contains(lower, patterns[0]) {
      FirstIsEarliest(lower, patterns[1..]);
      var i :| 0 <= i < |patterns[1..]| && patterns[1..][i] == First(lower, patterns[1..])
               && forall j | 0 <= j < i :: !Contains(lower, patterns[1..][j]);
      assert patterns[i + 1] == patterns[1..][i];
      assert forall j | 0 < j <= i :: patterns[j] == patterns[1..][j - 1];
    }
  }

  /** The reasoning quotes the first listed pattern that occurs. */
  lemma {:induction false} ReasoningQuotes(ls: Lists, lower: string) returns (why: string, p: string)
    requires Classify(ls, lower).kind != Acknowledgment && Classify(ls, lower).confidence == 0.7
    ensures Classify(ls, lower).reasoning == why + ": '" + p + "'"
    ensures Earliest(lower, ListFor(ls, Classify(ls, lower).kind), p)
  {
    var rank := Rank(ls, lower);
    var lists := [ls.blocking, ls.investigation, ls.auditing, ls.execution, ls.planning, ls.prioritization,
                  ls.clarification];
    FirstIsEarliest(lower, lists[rank - 1]);
    p := First(lower, lists[rank - 1]);
    var whys := ["User explicitly requested to stop", "User explicitly requested analysis only",
                 "User requested inspection", "User requested execution", "User requested planning",
                 "User requested prioritization", "User requested clarification"];
    why := whys[rank - 1];
  }

  // ---------- embedding a message in a longer one ----------

  lemma HitsEmbedded(a: string, m: string, b: string, patterns: seq<string>)
    requires Hits(m, patterns)
    ensures Hits(a + m + b, patterns)
  {
    var p :| p in patterns && Contains(m, p);
    ContainsEmbedded(a, m, b, p);
  }

  lemma RankEmbedded(ls: Lists, a: string, m: string, b: string)
    requires Guarded(ls)
    requires Rank(ls, m) <= 7
    ensures Rank(ls, a + m + b) > Rank(ls, m) <==>
              && Rank(ls, m) == 4 && Contains(a + m + b, "nao ")
              && !Hits(a + m + b, ls.blocking) && !Hits(a + m + b, ls.investigation) && !Hits(a + m + b, ls.auditing)
  {
    var lists := [ls.blocking, ls.investigation, ls.auditing, ls.execution, ls.planning, ls.prioritization,
                  ls.clarification];
    var matched := lists[Rank(ls, m) - 1];
    HitsEmbedded(a, m, b, matched);
    ExecutionExactly(ls, m);
    ExecutionExactly(ls, a + m + b);
  }

  /**
   * Longer text never loses precedence, with one exception: an Execution message falls below its rank
   * exactly when the longer text contains "nao " and matches none of the first three lists.
   */
  lemma EmbeddingKeepsPrecedence(toLower: char -> char, a: string, m: string, b: string)
    requires Rank(LISTED, Fold(toLower, m)) <= 7
    ensures var whole := Fold(toLower, a + m + b);
            var was := Rank(LISTED, Fold(toLower, m));
            Rank(LISTED, whole) > was <==>
              && was == 4 && Contains(whole, "nao ")
              && !Hits(whole, LISTED.blocking) && !Hits(whole, LISTED.investigation) && !Hits(whole, LISTED.auditing)
  {
    FoldConcat(toLower, a, m);
    FoldConcat(toLower, a + m, b);
    ListedIsGuarded();
    RankEmbedded(LISTED, Fold(toLower, a), Fold(toLower, m), Fold(toLower, b));
  }

  lemma ContainedLetter(lower: string, p: string, k: nat)
    requires Contains(lower, p)
    ensures |p| <= |lower| && (k < |p| ==> p[k] in lower)
  {
    var i: nat :| i <= |lower| && At(lower, p, i);
    if k < |p| {
      assert lower[i..i + |p|][k] == lower[i + k];
    }
  }

  /** Each pattern from lo to hi is longer than the text, or has at the position given for it a character that the text lacks. */
  predicate Lacks(lower: string, patterns: seq<string>, at: seq<nat>, lo: nat, hi: nat) {
    && lo <= hi <= |patterns| == |at|
    && forall i | lo <= i < hi :: |patterns[i]| > |lower| || (at[i] < |patterns[i]| && patterns[i][at[i]] !in lower)
  }

  lemma {:induction false} LackingMeansNoHit(lower: string, patterns: seq<string>, at: seq<nat>, mid: nat)
    requires Lacks(lower, patterns, at, 0, mid) && Lacks(lower, patterns, at, mid, |patterns|)
    ensures !Hits(lower, patterns)
  {
    if Hits(lower, patterns) {
      var p :| p in patterns && Contains(lower, p);
      var i :| 0 <= i < |patterns| && patterns[i] == p;
      ContainedLetter(lower, p, at[i]);
    }
  }

  const NAO_FIX := "nao fix"
  const BLOCKING_AT: seq<nat> := [0, 0, 0, 0, 0, 0, 0, 0, 0, 0, 1, 0, 0, 0, 1]

  lemma {:induction false} NaoFixLacksFirst()
    ensures Lacks(NAO_FIX, BLOCKING, BLOCKING_AT, 0, 8)
  {
  }

  lemma {:induction false} NaoFixLacksRest()
    ensures Lacks(NAO_FIX, BLOCKING, BLOCKING_AT, 8, 15)
  {
  }

  lemma {:induction false} NaoFixBlocksNothing()
    ensures !Hits(NAO_FIX, BLOCKING)
  {
    NaoFixLacksFirst();
    NaoFixLacksRest();
    LackingMeansNoHit(NAO_FIX, BLOCKING, BLOCKING_AT, 8);
  }

  lemma {:induction false} NaoFixInvestigatesNothing()
    ensures !Hits(NAO_FIX, INVESTIGATION)
  {
    LackingMeansNoHit(NAO_FIX, INVESTIGATION, [0, 0, 0, 0, 0, 0, 0, 0, 0, 0, 0, 0, 0, 0, 0, 0, 0, 0, 0], 10);
  }

  lemma {:induction false} NaoFixAuditsNothing()
    ensures !Hits(NAO_FIX, AUDITING)
  {
    LackingMeansNoHit(NAO_FIX, AUDITING, [1, 0, 0, 0, 0, 0, 0, 0, 0, 0], 5);
  }

  lemma NegationLowersRank(ls: Lists, a: string, m: string, b: string)
    requires Guarded(ls) && Contains(a + m + b, "nao ") && !Contains(m, "nao ") && Hits(m, ls.execution)
    requires !Hits(a + m + b, ls.blocking) && !Hits(a + m + b, ls.investigation) && !Hits(a + m + b, ls.auditing)
    ensures Rank(ls, m) == 4 && Rank(ls, a + m + b) > 4
  {
    if Hits(m, ls.blocking) { HitsEmbedded(a, m, b, ls.blocking); }
    if Hits(m, ls.investigation) { HitsEmbedded(a, m, b, ls.investigation); }
    if Hits(m, ls.auditing) { HitsEmbedded(a, m, b, ls.auditing); }
    ExecutionExactly(ls, m);
    ExecutionExactly(ls, a + m + b);
  }

  lemma {:induction false} FixHits()
    ensures Hits("fix", EXECUTION) && !Contains("fix", "nao ") && Contains(NAO_FIX, "nao ")
  {
    assert EXECUTION[14] == "fix" && EXECUTION[14] in EXECUTION;
    assert At("fix", "fix", 0);
    assert NAO_FIX[0..4] == "nao " && At(NAO_FIX, "nao ", 0);
  }

  /** The exception is real: "fix" is an Execution message, "nao fix" is not. */
  lemma {:induction false} NegationLowersPrecedence(toLower: char -> char)
    requires forall c | c in NAO_FIX :: toLower(c) == c
    ensures Rank(LISTED, Fold(toLower, "fix")) == 4 && Rank(LISTED, Fold(toLower, NAO_FIX)) > 4
  {
    assert NAO_FIX == "nao " + "fix" + "" && Fold(toLower, NAO_FIX) == NAO_FIX;
    assert Fold(toLower, "fix") == "fix" by {
      assert NAO_FIX[4..] == "fix";
    }
    NaoFixBlocksNothing();
    NaoFixInvestigatesNothing();
    NaoFixAuditsNothing();
    FixHits();
    ListedIsGuarded();
    NegationLowersRank(LISTED, "nao ", "fix", "");
  }

  // ---------- patterns that another pattern of the same list makes redundant ----------

  predicate Redundant(p: string, patterns: seq<string>) {
    exists q | q in patterns :: q != p && Contains(p, q)
  }

  /** What is left of `candidates` without the patterns that contain another pattern of `patterns`. */
  function Essential(candidates: seq<string>, patterns: seq<string>): (kept: seq<string>)
    ensures forall p :: p in kept <==> p in candidates && !Redundant(p, patterns)
  {
    if candidates == [] then []
    else if Redundant(candidates[0], patterns) then Essential(candidates[1..], patterns)
    else [candidates[0]] + Essential(candidates[1..], patterns)
  }

  lemma {:induction false} EssentialCovers(p: string, patterns: seq<string>) returns (q: string)
    requires p in patterns
    ensures q in Essential(patterns, patterns) && Contains(p, q)
    decreases |p|
  {
    if !Redundant(p, patterns) {
      assert At(p, p, 0);
      return p;
    }
    var r :| r in patterns && r != p && Contains(p, r);
    ContainedIsShorter(p, r);
    q := EssentialCovers(r, patterns);
    ContainsTransitive(p, r, q);
  }

  lemma HitsEssential(lower: string, patterns: seq<string>)
    ensures Hits(lower, Essential(patterns, patterns)) <==> Hits(lower, patterns)
  {
    if Hits(lower, patterns) {
      var p :| p in patterns && Contains(lower, p);
      var q := EssentialCovers(p, patterns);
      ContainsTransitive(lower, p, q);
    }
  }

  /** Every substring list reduced; acknowledgments match by equality or prefix and stay. */
  function Reduced(ls: Lists): Lists {
    Lists(Essential(ls.blocking, ls.blocking), Essential(ls.investigation, ls.investigation),
          Essential(ls.auditing, ls.auditing), Essential(ls.execution, ls.execution),
          Essential(ls.planning, ls.planning), Essential(ls.prioritization, ls.prioritization),
          Essential(ls.clarification, ls.clarification), ls.acknowledgment)
  }

  /** For any lists and any text, redundant patterns change nothing but the reasoning text. */
  lemma RedundantPatternsOnlyReword(ls: Lists, lower: string)
    ensures Rank(Reduced(ls), lower) == Rank(ls, lower)
    ensures Classify(Reduced(ls), lower).(reasoning := "") == Classify(ls, lower).(reasoning := "")
  {
    HitsEssential(lower, ls.blocking);
    HitsEssential(lower, ls.investigation);
    HitsEssential(lower, ls.auditing);
    HitsEssential(lower, ls.execution);
    HitsEssential(lower, ls.planning);
    HitsEssential(lower, ls.prioritization);
    HitsEssential(lower, ls.clarification);
  }

  // ---------- dispatch decision ----------

  datatype ExecutionState = ExecutionState(taskId: string, status: string)

  function Name(kind: IntentType): string {
    match kind
    case Investigation => "INVESTIGATION"
    case Execution => "EXECUTION"
    case Planning => "PLANNING"
    case Prioritization => "PRIORITIZATION"
    case Blocking => "BLOCKING"
    case Auditing => "AUDITING"
    case Clarification => "CLARIFICATION"
    case Acknowledgment => "ACKNOWLEDGMENT"
    case Unknown => "UNKNOWN"
  }

  predicate Live(e: ExecutionState) {
    e.status == "RUNNING" || e.status == "IN_PROGRESS"
  }

  function Decision(intent: Option<Intent>, busy: bool): (bool, string) {
    if intent.None? then (false, "no intent inferred")
    else
      var i := intent.value;
      if i.shouldStop then (false, "user requested blocking")
      else if !i.shouldExecute then (false, "intent is " + Name(i.kind) + ", not execution")
      else if busy && i.kind == Blocking then (true, "stopping active execution")
      else if busy then (false, "execution already in progress")
      else (true, if i.task == "" then "Execute the requested operational task" else i.task)
  }

  method ShouldDispatchOpenHands(intent: Option<Intent>, executions: seq<ExecutionState>)
    returns (go: bool, reason: string)
    ensures (go, reason) == Decision(intent, exists e | e in executions :: Live(e))
  {
    if intent.None? {
      return false, "no intent inferred";
    }
    var i := intent.value;
    if i.shouldStop {
      return false, "user requested blocking";
    }
    if !i.shouldExecute {
      return false, "intent is " + Name(i.kind) + ", not execution";
    }
    for k := 0 to |executions|
      invariant forall j | 0 <= j < k :: !Live(executions[j])
    {
      if executions[k].status == "RUNNING" || executions[k].status == "IN_PROGRESS" {
        assert executions[k] in executions && Live(executions[k]);
        if i.kind == Blocking {
          return true, "stopping active execution";
        }
        return false, "execution already in progress";
      }
    }
    return true, if i.task == "" then "Execute the requested operational task" else i.task;
  }

  /** For a classified message: dispatch exactly for Execution with nothing live, and never in order to stop. */
  lemma ClassifiedDispatch(ls: Lists, lower: string, busy: bool)
    ensures var d := Decision(Some(Classify(ls, lower)), busy);
            && (d.0 <==> Classify(ls, lower).kind == Execution && !busy)
            && d.1 != "stopping active execution"
  {
    FlagsFollowKind(ls, lower);
    assert "intent is "[0] == 'i';
  }

  /** For any intent: when it goes ahead, and that it then carries the task. */
  lemma {:induction false} DecisionExactly(intent: Option<Intent>, busy: bool)
    ensures var d := Decision(intent, busy);
            && (d.0 <==> intent.Some? && !intent.value.shouldStop && intent.value.shouldExecute
                         && (!busy || intent.value.kind == Blocking))
            && (d.0 && !busy && intent.value.task != "" ==> d.1 == intent.value.task)
            && (d.0 && !busy && intent.value.task == "" ==> d.1 == "Execute the requested operational task")
            && (!d.0 && intent.Some? && !intent.value.shouldStop && intent.value.shouldExecute ==>
                  d.1 == "execution already in progress")
  {
  }

  datatype Message = Message(role: string, content: string)

  /** The recent history is analysed and the outcome discarded: context never changes the verdict. */
  method InferWithContext(toLower: char -> char, message: string, history: seq<Message>) returns (intent: Intent)
    ensures intent == Classify(LISTED, Fold(toLower, message))
  {
    var recent := history;
    if |recent| > 3 {
      recent := recent[|recent| - 3..];
    }
    for k := 0 to |recent| {
      if recent[k].role == "user" {
        var _ := FallbackAnalysis(toLower, recent[k].content);
      }
    }
    intent := FallbackAnalysis(toLower, message);
  }
}
