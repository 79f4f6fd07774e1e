/**
 * Context assembly for agents: deduplicate, render, stop early on a budget, trim, truncate.
 * A Go string is a sequence of bytes; here each character stands for one byte.
 */
module Assembly {
  import opened Wrappers

  datatype SearchResult = SearchResult(id: string, kind: string, title: string, content: string, score: real)

  datatype Source = Source(kind: string, title: string, content: string, score: real)

  function AsSource(r: SearchResult): Source {
    Source(r.kind, r.title, r.content, r.score)
  }

  function AsSources(rs: seq<SearchResult>): (r: seq<Source>)
    ensures |r| == |rs| && forall i | 0 <= i < |rs| :: r[i] == AsSource(rs[i])
  {
    seq(|rs|, i requires 0 <= i < |rs| => AsSource(rs[i]))
  }

  // ---------- strings.TrimSpace ----------

  /** The UTF-8 encodings of the characters with property White_Space. */
  predicate Blank1(b: char) {
    b in ['\t', '\n', '\U{B}', '\U{C}', '\r', ' ']
  }

  predicate Blank2(a: char, b: char) {
    a == '\U{C2}' && b in ['\U{85}', '\U{A0}']
  }

  predicate Blank3(a: char, b: char, c: char) {
    || (a == '\U{E1}' && b == '\U{9A}' && c == '\U{80}')
    || (a == '\U{E2}' && b == '\U{80}' && ('\U{80}' <= c <= '\U{8A}' || c in ['\U{A8}', '\U{A9}', '\U{AF}']))
    || (a == '\U{E2}' && b == '\U{81}' && c == '\U{9F}')
    || (a == '\U{E3}' && b == '\U{80}' && c == '\U{80}')
  }

  /** The number of bytes of the white space character at the end, 0 if there is none. */
  function BlankEnd(s: string): (n: nat)
    ensures n <= |s|
  {
    var k := |s|;
    if k >= 1 && Blank1(s[k - 1]) then 1
    else if k >= 2 && Blank2(s[k - 2], s[k - 1]) then 2
    else if k >= 3 && Blank3(s[k - 3], s[k - 2], s[k - 1]) then 3
    else 0
  }

  function BlankStart(s: string): (n: nat)
    ensures n <= |s|
  {
    if |s| >= 1 && Blank1(s[0]) then 1
    else if |s| >= 2 && Blank2(s[0], s[1]) then 2
    else if |s| >= 3 && Blank3(s[0], s[1], s[2]) then 3
    else 0
  }

  function TrimRight(s: string): string {
    var n := BlankEnd(s);
    if n == 0 then s else TrimRight(s[..|s| - n])
  }

  function TrimLeft(s: string): string {
    var n := BlankStart(s);
    if n == 0 then s else TrimLeft(s[n..])
  }

  function TrimSpace(s: string): string {
    TrimRight(TrimLeft(s))
  }

  /** White space only. */
  predicate Blank(w: string) {
    TrimRight(w) == ""
  }

  lemma {:induction false} BlankEndOfSuffix(s: string, k: nat)
    requires 0 < BlankEnd(s) <= |s| - k
    ensures BlankEnd(s[k..]) == BlankEnd(s)
  {
    var w := s[k..];
    assert forall i | 0 <= i < |w| :: w[i] == s[k + i];
  }

  lemma {:induction false} BlankContinues(s: string, t: nat)
    requires 0 < BlankEnd(s) <= |s| - t
    requires Blank(s[..|s| - BlankEnd(s)][t..])
    ensures Blank(s[t..])
  {
    BlankEndOfSuffix(s, t);
    assert s[t..][..|s| - t - BlankEnd(s)] == s[..|s| - BlankEnd(s)][t..];
  }

  lemma {:induction false} TrimRightSplits(s: string)
    ensures TrimRight(s) <= s && Blank(s[|TrimRight(s)|..])
    ensures BlankEnd(TrimRight(s)) == 0
  {
    var n := BlankEnd(s);
    if n > 0 {
      TrimRightSplits(s[..|s| - n]);
      BlankContinues(s, |TrimRight(s)|);
    }
  }

  // ---------- what is assembled ----------

  /** One entry; `tag` is the identity for the agent runtime and an upper-casing for the bootstrap. */
  function Render(tag: string -> string, r: SearchResult): string {
    "[" + tag(r.kind) + ": " + r.title + "]\n" + r.content + "\n\n"
  }

  function Rendering(tag: string -> string, rs: seq<SearchResult>): string {
    if rs == [] then "" else Rendering(tag, rs[..|rs| - 1]) + Render(tag, rs[|rs| - 1])
  }

  function Contents(rs: seq<SearchResult>): set<string> {
    set r | r in rs :: r.content
  }

  /** The first result for each content, in order. */
  function Distinct(rs: seq<SearchResult>): seq<SearchResult> {
    if rs == [] then []
    else
      var before := Distinct(rs[..|rs| - 1]);
      var last := rs[|rs| - 1];
      if last.content in Contents(before) then before else before + [last]
  }

  /** How many entries are used: up to and including the first that takes the rendering beyond the budget. */
  function Cut(tag: string -> string, ds: seq<SearchResult>, budget: int, k: nat): (n: nat)
    requires k <= |ds|
    ensures k <= n <= |ds|
    decreases |ds| - k
  {
    if k == |ds| then k
    else if |Rendering(tag, ds[..k + 1])| > budget then k + 1
    else Cut(tag, ds, budget, k + 1)
  }

  /** The entries used. */
  function Used(tag: string -> string, results: seq<SearchResult>, budget: int): seq<SearchResult> {
    var ds := Distinct(results);
    ds[..Cut(tag, ds, budget, 0)]
  }

  function Truncated(text: string, budget: nat): string {
    if |text| > budget then text[..budget] + "\n..." else text
  }

  datatype Context = Context(sources: seq<Source>, text: string)

  /** The specification: None is the slice panic of a negative budget. */
  function Assembled(tag: string -> string, results: seq<SearchResult>, budget: int): Option<Context> {
    var used := Used(tag, results, budget);
    if budget < 0 then None
    else Some(Context(AsSources(used), Truncated(TrimSpace(Rendering(tag, used)), budget)))
  }

  lemma {:induction false} DistinctPrefix(rs: seq<SearchResult>, i: nat)
    requires i <= |rs|
    ensures Distinct(rs[..i]) <= Distinct(rs)
    decreases |rs|
  {
    if i == |rs| {
      assert rs[..i] == rs;
    } else {
      DistinctPrefix(rs[..|rs| - 1], i);
      assert rs[..|rs| - 1][..i] == rs[..i];
    }
  }

  lemma {:induction false} DistinctStep(rs: seq<SearchResult>, i: nat)
    requires i < |rs|
    ensures var before := Distinct(rs[..i]);
            Distinct(rs[..i + 1]) == if rs[i].content in Contents(before) then before else before + [rs[i]]
    ensures Distinct(rs[..i + 1]) <= Distinct(rs)
  {
    assert rs[..i + 1][..i] == rs[..i];
    DistinctPrefix(rs, i + 1);
  }

  lemma {:induction false} RenderingStep(tag: string -> string, used: seq<SearchResult>, r: SearchResult)
    ensures Rendering(tag, used + [r]) == Rendering(tag, used) + Render(tag, r)
    ensures Contents(used + [r]) == Contents(used) + {r.content}
    ensures AsSources(used + [r]) == AsSources(used) + [AsSource(r)]
  {
    assert (used + [r])[..|used|] == used;
  }

  /** Cut moves past an entry exactly when the budget is not yet exceeded. */
  lemma {:induction false} CutStep(tag: string -> string, ds: seq<SearchResult>, used: seq<SearchResult>, r: SearchResult,
                                   budget: int)
    requires used + [r] <= ds
    ensures Cut(tag, ds, budget, |used|) == if |Rendering(tag, used + [r])| > budget then |used| + 1
                                            else Cut(tag, ds, budget, |used| + 1)
  {
    assert ds[..|used| + 1] == used + [r];
  }

  /** What the loop has built: the parallel representations of the entries used. */
  ghost predicate Collected(tag: string -> string, used: seq<SearchResult>,
                            ctx: string, sources: seq<Source>, known: set<string>) {
    ctx == Rendering(tag, used) && sources == AsSources(used) && known == Contents(used)
  }

  /** After i results nothing has been cut off, and the cut lies ahead. */
  ghost predicate Reached(tag: string -> string, results: seq<SearchResult>, budget: int, i: nat, used: seq<SearchResult>) {
    var ds := Distinct(results);
    && i <= |results| && used == Distinct(results[..i]) && used <= ds
    && Cut(tag, ds, budget, 0) == Cut(tag, ds, budget, |used|)
  }

  lemma {:induction false} Turn(tag: string -> string, results: seq<SearchResult>, budget: int, i: nat, used: seq<SearchResult>)
    requires i < |results| && Reached(tag, results, budget, i, used)
    ensures var next := if results[i].content in Contents(used) then used else used + [results[i]];
            if next == used || |Rendering(tag, next)| <= budget then Reached(tag, results, budget, i + 1, next)
            else next == Used(tag, results, budget)
  {
    DistinctStep(results, i);
    if results[i].content !in Contents(used) {
      CutStep(tag, Distinct(results), used, results[i], budget);
    }
  }

  lemma {:induction false} LastTurn(tag: string -> string, results: seq<SearchResult>, budget: int, used: seq<SearchResult>)
    requires Reached(tag, results, budget, |results|, used)
    ensures used == Used(tag, results, budget)
  {
    assert results[..|results|] == results;
  }

  /** The loop of handleAgentRuntime and handleBootstrap. */
  method Collect(tag: string -> string, results: seq<SearchResult>, budget: int)
    returns (ctx: string, sources: seq<Source>, known: set<string>)
    ensures Collected(tag, Used(tag, results, budget), ctx, sources, known)
  {
    ctx, sources, known := "", [], {};
    ghost var used: seq<SearchResult> := [];
    for i := 0 to |results|
      invariant Reached(tag, results, budget, i, used)
      invariant Collected(tag, used, ctx, sources, known)
    {
      var res := results[i];
      Turn(tag, results, budget, i, used);
      if res.content in known {
        continue;
      }
      RenderingStep(tag, used, res);
      known := known + {res.content};
      sources := sources + [AsSource(res)];
      ctx := ctx + Render(tag, res);
      used := used + [res];
      if |ctx| > budget {
        return;
      }
    }
    LastTurn(tag, results, budget, used);
  }

  /** The rest of both handlers: trim, truncate, answer; a negative budget panics in the slice expression. */
  method Assemble(tag: string -> string, results: seq<SearchResult>, budget: int)
    returns (out: Option<Context>, ghost seen: set<string>)
    ensures out == Assembled(tag, results, budget)
    ensures out.Some? ==> seen == set s | s in out.value.sources :: s.content
  {
    var ctx, sources, known := Collect(tag, results, budget);
    SourcesShowContents(Used(tag, results, budget));
    var text := TrimSpace(ctx);
    if |text| > budget {
      if budget < 0 {
        return None, known;
      }
      text := text[..budget] + "\n...";
    }
    return Some(Context(sources, text)), known;
  }

  lemma {:induction false} SourcesShowContents(used: seq<SearchResult>)
    ensures Contents(used) == set s | s in AsSources(used) :: s.content
  {
    var sources := AsSources(used);
    forall c | c in Contents(used)
      ensures c in set s | s in sources :: s.content
    {
      var i :| 0 <= i < |used| && used[i].content == c;
      assert sources[i] in sources;
    }
    forall s | s in sources
      ensures s.content in Contents(used)
    {
      var i :| 0 <= i < |sources| && sources[i] == s;
      assert used[i] in used;
    }
  }

  // ---------- the parts of the specification mean what they say ----------

  ghost predicate FirstOfItsContent(rs: seq<SearchResult>, r: SearchResult) {
    exists i | 0 <= i < |rs| :: rs[i] == r && r.content !in Contents(rs[..i])
  }

  lemma {:induction false} FirstStep(rs: seq<SearchResult>, last: SearchResult, r: SearchResult)
    ensures FirstOfItsContent(rs + [last], r) <==>
              FirstOfItsContent(rs, r) || (r == last && r.content !in Contents(rs))
  {
    var all := rs + [last];
    assert forall i | 0 <= i <= |rs| :: all[..i] == rs[..i];
    assert rs[..|rs|] == rs && all[|rs|] == last;
    assert forall i | 0 <= i < |rs| :: all[i] == rs[i];
  }

  lemma {:induction false} ContentsStep(rs: seq<SearchResult>, last: SearchResult)
    ensures Contents(rs + [last]) == Contents(rs) + {last.content}
  {
  }

  lemma {:induction false} DistinctContents(rs: seq<SearchResult>)
    ensures Contents(Distinct(rs)) == Contents(rs)
  {
    if rs != [] {
      var front, last := rs[..|rs| - 1], rs[|rs| - 1];
      DistinctContents(front);
      ContentsStep(front, last);
      ContentsStep(Distinct(front), last);
      assert rs == front + [last];
    }
  }

  /** Distinct keeps exactly the first result of each content. */
  lemma {:induction false} DistinctKeepsFirsts(rs: seq<SearchResult>, r: SearchResult)
    ensures r in Distinct(rs) <==> FirstOfItsContent(rs, r)
  {
    if rs != [] {
      var front, last := rs[..|rs| - 1], rs[|rs| - 1];
      DistinctKeepsFirsts(front, r);
      DistinctContents(front);
      FirstStep(front, last, r);
      assert rs == front + [last];
    }
  }

  predicate NoRepeats(rs: seq<SearchResult>) {
    forall i, j | 0 <= i < j < |rs| :: rs[i].content != rs[j].content
  }

  lemma {:induction false} DistinctHasNoRepeats(rs: seq<SearchResult>)
    ensures NoRepeats(Distinct(rs))
  {
    if rs != [] {
      DistinctHasNoRepeats(rs[..|rs| - 1]);
    }
  }

  lemma {:induction false} NoRepeatsStep(front: seq<SearchResult>, last: SearchResult)
    requires NoRepeats(front + [last])
    ensures NoRepeats(front) && last.content !in Contents(front)
  {
    var rs := front + [last];
    assert rs[|front|] == last && forall i | 0 <= i < |front| :: rs[i] == front[i];
  }

  lemma {:induction false} DistinctOfDistinct(rs: seq<SearchResult>)
    ensures Distinct(rs) == rs <==> NoRepeats(rs)
  {
    if Distinct(rs) == rs {
      DistinctHasNoRepeats(rs);
    } else if NoRepeats(rs) && rs != [] {
      var front, last := rs[..|rs| - 1], rs[|rs| - 1];
      assert rs == front + [last];
      NoRepeatsStep(front, last);
      DistinctOfDistinct(front);
    }
  }

  /** The sources are the shortest prefix whose rendering exceeds the budget, or everything. */
  ghost predicate Shortest(tag: string -> string, ds: seq<SearchResult>, budget: int, k: nat) {
    && k <= |ds|
    && (k == |ds| || (k > 0 && |Rendering(tag, ds[..k])| > budget))
    && forall j | 0 < j < k :: |Rendering(tag, ds[..j])| <= budget
  }

  lemma {:induction false} CutIsShortest(tag: string -> string, ds: seq<SearchResult>, budget: int, k: nat)
    requires k <= |ds| && forall j | 0 < j <= k :: |Rendering(tag, ds[..j])| <= budget
    ensures Shortest(tag, ds, budget, Cut(tag, ds, budget, k))
    decreases |ds| - k
  {
    if k < |ds| && |Rendering(tag, ds[..k + 1])| <= budget {
      CutIsShortest(tag, ds, budget, k + 1);
    }
  }

  lemma {:induction false} ShortestIsUnique(tag: string -> string, ds: seq<SearchResult>, budget: int, k: nat, n: nat)
    requires Shortest(tag, ds, budget, k) && Shortest(tag, ds, budget, n)
    ensures k == n
  {
  }

  // ---------- what a rendering holds ----------

  /** The part of a text between two positions. */
  function Part(text: string, lo: nat, hi: nat): string {
    if lo <= hi <= |text| then text[lo..hi] else ""
  }

  /** Where entry i begins. */
  function EntryAt(tag: string -> string, rs: seq<SearchResult>, i: nat): nat {
    |Rendering(tag, rs[..if i <= |rs| then i else |rs|])|
  }

  /** The entry of one result: its kind, title and content, set apart. */
  ghost predicate EntryShows(tag: string -> string, text: string, kind: string, title: string, content: string) {
    text == "[" + tag(kind) + ": " + title + "]\n" + content + "\n\n"
  }

  /** The entries of a rendering stand one behind the other, each with the kind, title and content of its result. */
  lemma {:induction false} RenderingShows(tag: string -> string, rs: seq<SearchResult>, i: nat)
    requires i < |rs|
    ensures EntryAt(tag, rs, 0) == 0 && EntryAt(tag, rs, |rs|) == |Rendering(tag, rs)|
    ensures EntryAt(tag, rs, i) < EntryAt(tag, rs, i + 1) <= |Rendering(tag, rs)|
    ensures EntryShows(tag, Part(Rendering(tag, rs), EntryAt(tag, rs, i), EntryAt(tag, rs, i + 1)),
                  rs[i].kind, rs[i].title, rs[i].content)
  {
    assert rs[..|rs|] == rs && rs[..i + 1][..i] == rs[..i];
    RenderingPrefix(tag, rs, i + 1);
    var before, upTo := Rendering(tag, rs[..i]), Rendering(tag, rs[..i + 1]);
    assert upTo == before + Render(tag, rs[i]);
    assert Rendering(tag, rs)[..|upTo|] == upTo;
    assert Rendering(tag, rs)[|before|..|upTo|] == upTo[|before|..];
  }

  lemma {:induction false} BlankEndNoBracket(w: string, i: nat)
    requires |w| - BlankEnd(w) <= i < |w|
    ensures w[i] != ']'
  {
  }

  /** White space contains no bracket. */
  lemma {:induction false} BlankHasNoBracket(w: string, i: nat)
    requires Blank(w) && i < |w|
    ensures w[i] != ']'
  {
    var n := BlankEnd(w);
    if i < |w| - n {
      BlankHasNoBracket(w[..|w| - n], i);
    } else {
      BlankEndNoBracket(w, i);
    }
  }

  /** So a bracket is not trimmed away. */
  lemma {:induction false} BracketIsKept(r: string, text: string, i: nat)
    requires text <= r && Blank(r[|text|..]) && i < |r| && r[i] == ']'
    ensures i < |text|
  {
    forall k | |text| <= k < |r|
      ensures r[k] != ']'
    {
      BlankHasNoBracket(r[|text|..], k - |text|);
    }
  }

  /** What an answer shows of source i: the whole entry; the last one at least up to the title, the rest white space. */
  ghost predicate Answers(tag: string -> string, rs: seq<SearchResult>, text: string, w: string, i: nat)
    requires i < |rs|
  {
    var lo, hi := EntryAt(tag, rs, i), EntryAt(tag, rs, i + 1);
    var head := "[" + tag(rs[i].kind) + ": " + rs[i].title + "]";
    && EntryShows(tag, Part(text + w, lo, hi), rs[i].kind, rs[i].title, rs[i].content)
    && (i + 1 < |rs| ==> hi <= |text|)
    && lo + |head| <= |text| && text[lo..lo + |head|] == head
  }

  function Head(tag: string -> string, x: SearchResult): (head: string)
    ensures head != "" && head[|head| - 1] == ']'
  {
    "[" + tag(x.kind) + ": " + x.title + "]"
  }

  lemma {:induction false} HeadOfPart(r: string, lo: nat, hi: nat, head: string, rest: string)
    requires lo <= hi <= |r| && r[lo..hi] == head + rest && rest != ""
    ensures lo + |head| < hi && r[lo..lo + |head|] == head
  {
    assert r[lo..lo + |head|] == r[lo..hi][..|head|];
  }

  lemma {:induction false} EntrySplits(tag: string -> string, x: SearchResult)
    ensures "[" + tag(x.kind) + ": " + x.title + "]\n" + x.content + "\n\n" == Head(tag, x) + ("\n" + x.content + "\n\n")
  {
  }

  /** The head of entry i stands where the entry begins. */
  lemma {:induction false} HeadStands(tag: string -> string, rs: seq<SearchResult>, i: nat)
    requires i < |rs|
    ensures var r, lo, n := Rendering(tag, rs), EntryAt(tag, rs, i), |Head(tag, rs[i])|;
            lo + n < EntryAt(tag, rs, i + 1) <= |r| && r[lo..lo + n] == Head(tag, rs[i])
  {
    RenderingShows(tag, rs, i);
    EntrySplits(tag, rs[i]);
    HeadOfPart(Rendering(tag, rs), EntryAt(tag, rs, i), EntryAt(tag, rs, i + 1), Head(tag, rs[i]),
               "\n" + rs[i].content + "\n\n");
  }

  /** Trimming leaves the head of every entry. */
  lemma {:induction false} HeadIsKept(tag: string -> string, rs: seq<SearchResult>, i: nat)
    requires i < |rs|
    ensures EntryAt(tag, rs, i) + |Head(tag, rs[i])| <= |TrimSpace(Rendering(tag, rs))|
  {
    var r, end := Rendering(tag, rs), EntryAt(tag, rs, i) + |Head(tag, rs[i])|;
    TrimmedRendering(tag, rs);
    HeadStands(tag, rs, i);
    LastOfPart(r, EntryAt(tag, rs, i), end);
    BracketIsKept(r, TrimSpace(r), end - 1);
  }

  lemma {:induction false} LastOfPart(r: string, lo: nat, end: nat)
    requires lo < end <= |r|
    ensures r[lo..end][end - lo - 1] == r[end - 1]
  {
  }

  /** It leaves every entry but the last in full. */
  lemma {:induction false} EntryIsKept(tag: string -> string, rs: seq<SearchResult>, i: nat)
    requires i + 1 < |rs|
    ensures EntryAt(tag, rs, i + 1) <= |TrimSpace(Rendering(tag, rs))|
  {
    HeadIsKept(tag, rs, i + 1);
  }

  lemma {:induction false} TrimmedKeepsHeads(tag: string -> string, rs: seq<SearchResult>, i: nat)
    requires i < |rs|
    ensures var r := Rendering(tag, rs);
            var text := TrimSpace(r);
            text <= r && Blank(r[|text|..]) && text + r[|text|..] == r && Answers(tag, rs, text, r[|text|..], i)
  {
    var r := Rendering(tag, rs);
    var text := TrimSpace(r);
    TrimmedRendering(tag, rs);
    assert text + r[|text|..] == r;
    RenderingShows(tag, rs, i);
    HeadStands(tag, rs, i);
    HeadIsKept(tag, rs, i);
    if i + 1 < |rs| {
      EntryIsKept(tag, rs, i);
    }
    SamePart(r, text, EntryAt(tag, rs, i), EntryAt(tag, rs, i) + |Head(tag, rs[i])|);
  }

  lemma {:induction false} SamePart(r: string, text: string, lo: nat, hi: nat)
    requires text <= r && lo <= hi <= |text|
    ensures text[lo..hi] == r[lo..hi]
  {
  }

  /** The answer of the agent runtime or bootstrap, when it is not truncated, shows every source in order. */
  lemma {:induction false} AnswerShows(tag: string -> string, results: seq<SearchResult>, budget: nat, i: nat)
    returns (w: string)
    requires var out := Assembled(tag, results, budget).value;
             i < |out.sources| && |TrimSpace(Rendering(tag, Used(tag, results, budget)))| <= budget
    ensures var out, used := Assembled(tag, results, budget).value, Used(tag, results, budget);
            && |used| == |out.sources| && out.sources[i].title == used[i].title
            && out.sources[i].content == used[i].content && out.sources[i].kind == used[i].kind
            && Blank(w) && out.text + w == Rendering(tag, used) && Answers(tag, used, out.text, w, i)
  {
    var used := Used(tag, results, budget);
    TrimmedKeepsHeads(tag, used, i);
    w := Rendering(tag, used)[|TrimSpace(Rendering(tag, used))|..];
  }

  // ---------- nothing but white space is lost ----------

  lemma {:induction false} RenderingPrefix(tag: string -> string, rs: seq<SearchResult>, k: nat)
    requires k <= |rs|
    ensures Rendering(tag, rs[..k]) <= Rendering(tag, rs)
    decreases |rs|
  {
    if k == |rs| {
      assert rs[..k] == rs;
    } else {
      RenderingPrefix(tag, rs[..|rs| - 1], k);
      assert rs[..|rs| - 1][..k] == rs[..k];
    }
  }

  lemma {:induction false} RenderingStarts(tag: string -> string, rs: seq<SearchResult>)
    requires rs != []
    ensures Rendering(tag, rs) != "" && Rendering(tag, rs)[0] == '['
  {
    if |rs| > 1 {
      RenderingStarts(tag, rs[..|rs| - 1]);
    } else {
      assert Rendering(tag, rs[..0]) == "";
    }
  }

  lemma {:induction false} TrimmedRendering(tag: string -> string, rs: seq<SearchResult>)
    ensures var r := Rendering(tag, rs);
            TrimSpace(r) <= r && Blank(r[|TrimSpace(r)|..])
  {
    var r := Rendering(tag, rs);
    if rs != [] {
      RenderingStarts(tag, rs);
    }
    TrimRightSplits(r);
  }

  /** The text is the start of `all` up to the budget, marked; or it and the white space w make up enough of `all`. */
  ghost predicate LosesOnly(all: string, budget: nat, text: string, w: string) {
    || (|all| >= budget && text == all[..budget] + "\n...")
    || (|text| <= budget && text + w <= all && Blank(w) && (text + w == all || |text + w| > budget))
  }

  lemma {:induction false} TruncatedLosesOnly(all: string, part: string, trimmed: string, budget: nat)
    requires part <= all && (part == all || |part| > budget)
    requires trimmed <= part && Blank(part[|trimmed|..])
    ensures LosesOnly(all, budget, Truncated(trimmed, budget), part[|trimmed|..])
  {
    assert trimmed + part[|trimmed|..] == part;
    if |trimmed| > budget {
      assert trimmed[..budget] == all[..budget];
    }
  }

  /**
   * The text against the rendering R of every distinct result: when truncated it is R's first `budget` bytes
   * and the marker; otherwise the text, followed by white space only, is all of R or more than the budget of it.
   */
  lemma {:induction false} NothingLost(tag: string -> string, results: seq<SearchResult>, budget: nat) returns (w: string)
    ensures LosesOnly(Rendering(tag, Distinct(results)), budget, Assembled(tag, results, budget).value.text, w)
  {
    var ds := Distinct(results);
    var used := ds[..Cut(tag, ds, budget, 0)];
    var part := Rendering(tag, used);
    CutIsShortest(tag, ds, budget, 0);
    RenderingPrefix(tag, ds, |used|);
    TrimmedRendering(tag, used);
    assert ds[..|ds|] == ds;
    w := part[|TrimSpace(part)|..];
    TruncatedLosesOnly(Rendering(tag, ds), part, TrimSpace(part), budget);
  }

  lemma {:induction false} TextIsBounded(tag: string -> string, results: seq<SearchResult>, budget: nat)
    ensures |Assembled(tag, results, budget).value.text| <= budget + 4
  {
  }

  // ---------- assembling the sources again ----------

  /** A source taken as a search result; its id was dropped. */
  function AsResult(s: Source): SearchResult {
    SearchResult("", s.kind, s.title, s.content, s.score)
  }

  function AsResults(ss: seq<Source>): (r: seq<SearchResult>)
    ensures |r| == |ss| && forall i | 0 <= i < |ss| :: r[i] == AsResult(ss[i])
  {
    seq(|ss|, i requires 0 <= i < |ss| => AsResult(ss[i]))
  }

  lemma {:induction false} SameSourcesSameRendering(tag: string -> string, xs: seq<SearchResult>, ys: seq<SearchResult>)
    requires |xs| == |ys| && forall i | 0 <= i < |xs| :: AsSource(xs[i]) == AsSource(ys[i])
    ensures Rendering(tag, xs) == Rendering(tag, ys)
  {
    if xs != [] {
      var n := |xs| - 1;
      SameSourcesSameRendering(tag, xs[..n], ys[..n]);
      assert AsSource(xs[n]) == AsSource(ys[n]);
    }
  }

  lemma {:induction false} CutOfUsed(tag: string -> string, ds: seq<SearchResult>, again: seq<SearchResult>, budget: int)
    requires var used := ds[..Cut(tag, ds, budget, 0)];
             |again| == |used| && forall i | 0 <= i < |again| :: AsSource(again[i]) == AsSource(used[i])
    ensures Cut(tag, again, budget, 0) == |again|
  {
    var used := ds[..Cut(tag, ds, budget, 0)];
    CutIsShortest(tag, ds, budget, 0);
    CutIsShortest(tag, again, budget, 0);
    forall j | 0 < j < |again|
      ensures |Rendering(tag, again[..j])| <= budget
    {
      SameSourcesSameRendering(tag, again[..j], used[..j]);
      assert used[..j] == ds[..j];
    }
    ShortestIsUnique(tag, again, budget, Cut(tag, again, budget, 0), |again|);
  }

  /** Assembling the sources of an answer again gives the same answer. */
  lemma {:induction false} Reassembled(tag: string -> string, results: seq<SearchResult>, budget: nat)
    ensures var out := Assembled(tag, results, budget).value;
            Assembled(tag, AsResults(out.sources), budget) == Some(out)
  {
    var ds := Distinct(results);
    var used := ds[..Cut(tag, ds, budget, 0)];
    var again := AsResults(AsSources(used));
    DistinctHasNoRepeats(results);
    DistinctOfDistinct(again);
    CutOfUsed(tag, ds, again, budget);
    SameSourcesSameRendering(tag, again, used);
    assert again[..|again|] == again;
    assert AsSources(again) == AsSources(used);
  }

  // ---------- the two handlers compared ----------

  function Plain(kind: string): string {
    kind
  }

  function Built(results: seq<SearchResult>): Context {
    Context(AsSources(results), TrimSpace(Rendering(Plain, results)))
  }

  /** The loop of handleBuildContext: no deduplication, no budget. */
  method BuildContext(results: seq<SearchResult>) returns (out: Context)
    ensures out == Built(results)
  {
    var ctx := "";
    var sources := [];
    for i := 0 to |results|
      invariant ctx == Rendering(Plain, results[..i]) && sources == AsSources(results[..i])
    {
      assert results[..i + 1] == results[..i] + [results[i]];
      RenderingStep(Plain, results[..i], results[i]);
      sources := sources + [AsSource(results[i])];
      ctx := ctx + Render(Plain, results[i]);
    }
    assert results[..|results|] == results;
    return Context(sources, TrimSpace(ctx));
  }

  /** Only the last result may take the rendering beyond the budget. */
  ghost predicate FitsButLast(results: seq<SearchResult>, budget: int) {
    forall j | 0 < j < |results| :: |Rendering(Plain, results[..j])| <= budget
  }

  lemma {:induction false} CutIsAll(results: seq<SearchResult>, budget: int)
    ensures Cut(Plain, results, budget, 0) == |results| <==> FitsButLast(results, budget)
  {
    CutIsShortest(Plain, results, budget, 0);
    if FitsButLast(results, budget) {
      ShortestIsUnique(Plain, results, budget, Cut(Plain, results, budget, 0), |results|);
    }
  }

  /** Runtime and build-context list the same sources exactly when contents differ and only the last may pass the budget. */
  lemma {:induction false} SameSources(results: seq<SearchResult>, budget: nat)
    ensures Assembled(Plain, results, budget).value.sources == Built(results).sources <==>
              NoRepeats(results) && FitsButLast(results, budget)
  {
    var ds := Distinct(results);
    var k := Cut(Plain, ds, budget, 0);
    DistinctIsShorter(results);
    DistinctOfDistinct(results);
    CutIsAll(results, budget);
    assert |AsSources(ds[..k])| == k && |AsSources(results)| == |results|;
    if ds == results && k == |results| {
      assert ds[..k] == results;
    }
  }

  lemma {:induction false} DistinctIsShorter(rs: seq<SearchResult>)
    ensures |Distinct(rs)| <= |rs| && (|Distinct(rs)| == |rs| ==> Distinct(rs) == rs)
  {
    if rs != [] {
      DistinctIsShorter(rs[..|rs| - 1]);
    }
  }

  /** With the same sources, the texts are the same exactly when truncation has nothing to do or cuts off its own marker. */
  lemma {:induction false} SameText(results: seq<SearchResult>, budget: nat)
    requires Assembled(Plain, results, budget).value.sources == Built(results).sources
    ensures var text := Built(results).text;
            Assembled(Plain, results, budget).value.text == text <==>
              |text| <= budget || (|text| == budget + 4 && text[budget..] == "\n...")
  {
    var ds := Distinct(results);
    var used := ds[..Cut(Plain, ds, budget, 0)];
    SameSourcesSameRendering(Plain, used, results) by {
      forall i | 0 <= i < |used|
        ensures AsSource(used[i]) == AsSource(results[i])
      {
        assert AsSources(used)[i] == AsSources(results)[i];
      }
      assert |AsSources(used)| == |AsSources(results)|;
    }
    var text := Built(results).text;
    if |text| > budget {
      assert text == text[..budget] + text[budget..];
    }
  }

  /** The plain answer shows every result in order. */
  lemma {:induction false} BuiltShows(results: seq<SearchResult>, i: nat) returns (w: string)
    requires i < |results|
    ensures var out := Built(results);
            && |out.sources| == |results| && out.sources[i].title == results[i].title
            && out.sources[i].content == results[i].content && out.sources[i].kind == results[i].kind
            && Blank(w) && out.text + w == Rendering(Plain, results) && Answers(Plain, results, out.text, w, i)
  {
    TrimmedKeepsHeads(Plain, results, i);
    w := Rendering(Plain, results)[|TrimSpace(Rendering(Plain, results))|..];
  }

  /** Pairwise different contents that render within the budget: both handlers give the same answer. */
  lemma {:induction false} SameAnswer(results: seq<SearchResult>, budget: nat)
    requires NoRepeats(results) && |Rendering(Plain, results)| <= budget
    ensures Assembled(Plain, results, budget) == Some(Built(results))
  {
    forall j | 0 < j < |results|
      ensures |Rendering(Plain, results[..j])| <= budget
    {
      RenderingPrefix(Plain, results, j);
    }
    SameSources(results, budget);
    TrimmedRendering(Plain, results);
    SameText(results, budget);
  }
}
