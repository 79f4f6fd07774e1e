/** The address of a status request, as the dispatcher formats it, and when net/url accepts it. */
module Urls {
  import opened Text

  // ---------- url.Parse, behind the scheme and host ----------

  /** What stands before the first c, everything when there is none. */
  function Before(s: string, c: char): string {
    if s == "" || s[0] == c then "" else [s[0]] + Before(s[1..], c)
  }

  /** What stands behind the first c, nothing when there is none. */
  function Behind(s: string, c: char): string {
    if s == "" then "" else if s[0] == c then s[1..] else Behind(s[1..], c)
  }

  predicate Hex(c: char) {
    '0' <= c <= '9' || 'a' <= c <= 'f' || 'A' <= c <= 'F'
  }

  /** Every percent sign begins an escape. */
  predicate WellEscaped(s: string) {
    if s == "" then true
    else if s[0] == '%' then |s| > 2 && Hex(s[1]) && Hex(s[2]) && WellEscaped(s[3..])
    else WellEscaped(s[1..])
  }

  predicate NoControl(s: string) {
    forall c | c in s :: ' ' <= c && c != '\U{7F}'
  }

  /** Whether an address with this path, query and fragment parses: the query is not unescaped. */
  predicate Parses(tail: string) {
    var u := Before(tail, '#');
    NoControl(u) && WellEscaped(Before(u, '?')) && WellEscaped(Behind(tail, '#'))
  }

  // ---------- the status request ----------

  /** What the verb %s makes of an int. */
  function BadVerb(n: int): string {
    "%!s(int=" + Decimal(n) + ")"
  }

  function StatusTail(owner: string, repo: string, runId: int): string {
    "/repos/" + owner + "/" + repo + "/actions/runs/" + BadVerb(runId)
  }

  /** The run id ends up in the query of an address that is otherwise in order. */
  predicate Queried(owner: string, repo: string) {
    var name := owner + "/" + repo;
    '#' !in name && '?' in name && NoControl(name) && WellEscaped(Before(name, '?'))
  }

  lemma {:induction false} CutBefore(a: string, b: string, c: char)
    ensures Before(a + b, c) == if c in a then Before(a, c) else a + Before(b, c)
  {
    if a == "" {
      assert a + b == b;
    } else {
      assert (a + b)[1..] == a[1..] + b;
      if a[0] != c {
        CutBefore(a[1..], b, c);
        assert a == [a[0]] + a[1..];
      }
    }
  }

  lemma {:induction false} CutBehind(a: string, b: string, c: char)
    ensures Behind(a + b, c) == if c in a then Behind(a, c) + b else Behind(b, c)
  {
    if a == "" {
      assert a + b == b;
    } else {
      assert (a + b)[1..] == a[1..] + b;
      if a[0] != c {
        CutBehind(a[1..], b, c);
        assert a == [a[0]] + a[1..];
      }
    }
  }

  lemma {:induction false} Uncut(s: string, c: char)
    requires c !in s
    ensures Before(s, c) == s && Behind(s, c) == ""
  {
    if s != "" {
      Uncut(s[1..], c);
    }
  }

  /** An escape that is none is found wherever it stands. */
  lemma {:induction false} BadEscape(a: string, b: string)
    ensures !WellEscaped(a + "%!" + b)
  {
    var s := a + "%!" + b;
    if a == "" {
      assert s[1] == '!';
    } else if a[0] != '%' {
      assert s[1..] == a[1..] + "%!" + b;
      BadEscape(a[1..], b);
    } else if |a| > 2 {
      assert s[3..] == a[3..] + "%!" + b;
      BadEscape(a[3..], b);
    } else {
      assert s[|a|] == '%';
    }
  }

  lemma {:induction false} BadVerbEscape(a: string, n: int)
    ensures !WellEscaped(a + BadVerb(n))
  {
    BadEscape(a, "s(int=" + Decimal(n) + ")");
    assert BadVerb(n) == "%!" + ("s(int=" + Decimal(n) + ")");
    assert a + "%!" + ("s(int=" + Decimal(n) + ")") == a + BadVerb(n);
  }

  lemma {:induction false} PlainPrefix(a: string, s: string)
    requires '%' !in a
    ensures WellEscaped(a + s) == WellEscaped(s)
  {
    if a == "" {
      assert a + s == s;
    } else {
      assert (a + s)[1..] == a[1..] + s;
      PlainPrefix(a[1..], s);
    }
  }

  /** What follows the name in the address. */
  function Following(runId: int): string {
    "/actions/runs/" + BadVerb(runId)
  }

  lemma {:induction false} FollowingLetters(runId: int)
    ensures NoControl(Following(runId)) && '#' !in Following(runId) && '?' !in Following(runId)
  {
    DecimalLetters(runId);
  }

  lemma {:induction false} FollowingEscape(a: string, runId: int)
    ensures !WellEscaped(a + Following(runId))
  {
    BadVerbEscape(a + "/actions/runs/", runId);
    assert a + Following(runId) == a + "/actions/runs/" + BadVerb(runId);
  }

  lemma {:induction false} InFragment(front: string, runId: int)
    requires '#' in front
    ensures !Parses(front + Following(runId))
  {
    CutBehind(front, Following(runId), '#');
    FollowingEscape(Behind(front, '#'), runId);
  }

  lemma {:induction false} NotInFragment(front: string, runId: int)
    requires '#' !in front
    ensures var tail := front + Following(runId);
            Parses(tail) <==> NoControl(tail) && WellEscaped(Before(tail, '?'))
  {
    var tail := front + Following(runId);
    FollowingLetters(runId);
    Uncut(tail, '#');
  }

  lemma {:induction false} InPath(front: string, runId: int)
    requires '#' !in front && '?' !in front
    ensures !Parses(front + Following(runId))
  {
    NotInFragment(front, runId);
    FollowingLetters(runId);
    Uncut(front + Following(runId), '?');
    FollowingEscape(front, runId);
  }

  lemma {:induction false} NoControlParts(a: string, b: string)
    ensures NoControl(a + b) <==> NoControl(a) && NoControl(b)
  {
    if NoControl(a + b) {
      assert forall c | c in a :: c in a + b;
      assert forall c | c in b :: c in a + b;
    }
  }

  lemma {:induction false} InQuery(front: string, runId: int)
    requires '#' !in front && '?' in front
    ensures Parses(front + Following(runId)) <==> NoControl(front) && WellEscaped(Before(front, '?'))
  {
    NotInFragment(front, runId);
    FollowingLetters(runId);
    NoControlParts(front, Following(runId));
    CutBefore(front, Following(runId), '?');
  }

  lemma {:induction false} NameInQuery(name: string)
    requires '?' in name
    ensures WellEscaped(Before("/repos/" + name, '?')) == WellEscaped(Before(name, '?'))
  {
    CutBefore("/repos/", name, '?');
    PlainPrefix("/repos/", Before(name, '?'));
  }

  /** A status request can be built exactly when owner and repository push the run id into the query. */
  lemma {:induction false} StatusRequestBuilds(owner: string, repo: string, runId: int)
    ensures Parses(StatusTail(owner, repo, runId)) <==> Queried(owner, repo)
  {
    var name := owner + "/" + repo;
    var front := "/repos/" + name;
    assert StatusTail(owner, repo, runId) == front + Following(runId);
    if '#' in name {
      InFragment(front, runId);
    } else if '?' in name {
      InQuery(front, runId);
      NameInQuery(name);
      NoControlParts("/repos/", name);
    } else {
      InPath(front, runId);
    }
  }

  /** With ordinary names, without question marks, no status request is ever built. */
  lemma {:induction false} NoStatusRequest(owner: string, repo: string, runId: int)
    requires '?' !in owner && '?' !in repo
    ensures !Parses(StatusTail(owner, repo, runId))
  {
    StatusRequestBuilds(owner, repo, runId);
  }

  /** For instance with the owner "a?b". */
  lemma {:induction false} QuestionMarkQueries()
    ensures Queried("a?b", "c")
  {
    var name := "a?b/c";
    assert "a?b" + "/" + "c" == name;
    assert name[1] == '?' && name[1..][0] == '?';
    assert Before(name, '?') == "a" by {
      assert Before(name[1..], '?') == "";
    }
    assert WellEscaped("a") by {
      assert "a"[1..] == "";
    }
    assert |name| == 5;
    assert forall c | c in name :: c in ['a', '?', 'b', '/', 'c'];
  }

  lemma {:induction false} QuestionMarkBuilds(runId: int)
    ensures Parses(StatusTail("a?b", "c", runId))
  {
    QuestionMarkQueries();
    StatusRequestBuilds("a?b", "c", runId);
  }

  lemma {:induction false} PlainIsEscaped(s: string)
    requires '%' !in s
    ensures WellEscaped(s)
  {
    if s != "" {
      PlainIsEscaped(s[1..]);
    }
  }

  lemma {:induction false} CutsAreParts(s: string, c: char)
    ensures forall x | x in Before(s, c) || x in Behind(s, c) :: x in s
  {
    if s != "" {
      assert forall x | x in s[1..] :: x in s;
      if s[0] != c {
        CutsAreParts(s[1..], c);
        assert Before(s, c) == [s[0]] + Before(s[1..], c);
      }
    }
  }

  /** Addresses without percent signs and control characters parse; with the id as digits this would be one. */
  lemma {:induction false} PlainParses(tail: string)
    requires '%' !in tail && NoControl(tail)
    ensures Parses(tail)
  {
    CutsAreParts(tail, '#');
    CutsAreParts(Before(tail, '#'), '?');
    PlainIsEscaped(Before(Before(tail, '#'), '?'));
    PlainIsEscaped(Behind(tail, '#'));
  }
}
