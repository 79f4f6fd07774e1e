/** The memory store: three tables behind one interface, with an ILIKE prefilter and a fold comparison against duplicates. */
module Store {
  import opened Wrappers
  import opened Text
  import opened Assembly

  // ---------- LIKE, as section 9.7.1 of the PostgreSQL documentation defines it ----------

  function Like(p: string, s: string): bool
    decreases |p| + |s|
  {
    if p == "" then s == ""
    else if p[0] == '%' then Like(p[1..], s) || (s != "" && Like(p, s[1..]))
    else if p[0] == '_' then s != "" && Like(p[1..], s[1..])
    else if p[0] == '\\' then |p| > 1 && s != "" && s[0] == p[1] && Like(p[2..], s[1..])
    else s != "" && s[0] == p[0] && Like(p[1..], s[1..])
  }

  /** ILIKE compares case-folded texts. */
  predicate ILike(f: char -> char, p: string, s: string) {
    Like(Fold(f, p), Fold(f, s))
  }

  /** strings.EqualFold, by the same folding. */
  predicate EqualFold(f: char -> char, a: string, b: string) {
    Fold(f, a) == Fold(f, b)
  }

  function Around(query: string): string {
    "%" + query + "%"
  }

  /** A case folding: it leaves the percent sign alone and creates no escape character. */
  ghost predicate CaseFolding(f: char -> char) {
    f('%') == '%' && f('\\') == '\\' && forall c :: f(c) == '\\' ==> c == '\\'
  }

  lemma {:induction false} LikesItself(q: string)
    requires '\\' !in q
    ensures Like(q, q) && Like(q + "%", q)
  {
    if q != "" {
      LikesItself(q[1..]);
      assert (q + "%")[1..] == q[1..] + "%";
      if q[0] == '%' {
        assert Like(q, q[1..]);
        assert Like(q + "%", q[1..]);
      }
    }
  }

  lemma FoldAround(f: char -> char, t: string)
    requires CaseFolding(f)
    ensures Fold(f, Around(t)) == Around(Fold(f, t))
    ensures '\\' in Fold(f, t) <==> '\\' in t
  {
    FoldConcat(f, "%", t);
    FoldConcat(f, "%" + t, "%");
    if '\\' in t {
      var i :| 0 <= i < |t| && t[i] == '\\';
      assert Fold(f, t)[i] == '\\';
    }
    if '\\' in Fold(f, t) {
      var i :| 0 <= i < |t| && Fold(f, t)[i] == '\\';
      assert t[i] == '\\';
    }
  }

  // ---------- LIKE, element by element ----------

  /** The elements of a pattern on their own: anything, any one character, and one given character. */
  lemma {:induction false} LikeElements(c: char, s: string)
    ensures Like("", s) <==> s == ""
    ensures Like("%", s)
    ensures Like("_", s) <==> |s| == 1
    ensures c !in {'%', '_', '\\'} ==> (Like([c], s) <==> s == [c])
    ensures Like(['\\', c], s) <==> s == [c]
    ensures !Like("\\", s)
  {
    AnythingFollows(s);
    assert "_"[1..] == "" && [c][1..] == "" && ['\\', c][2..] == "";
    if s != "" {
      assert s == [s[0]] + s[1..];
    }
  }

  /** A text consists of a part for p and a part for q. */
  ghost predicate Joined(p: string, q: string, s: string) {
    exists i | 0 <= i <= |s| :: Like(p, s[..i]) && Like(q, s[i..])
  }

  lemma {:induction false} JoinedOne(p: string, q: string, s: string)
    requires p != "" && p[0] != '%' && !Dangling(p) && Width(p) <= |p|
    ensures Joined(p, q, s) <==> s != "" && First(p, s[0]) && Joined(p[Width(p)..], q, s[1..])
  {
    if i :| 0 <= i <= |s| && Like(p, s[..i]) && Like(q, s[i..]) {
      assert s[..i][1..] == s[1..][..i - 1] && s[i..] == s[1..][i - 1..];
    }
    if s != "" && First(p, s[0]) && Joined(p[Width(p)..], q, s[1..]) {
      var i :| 0 <= i <= |s[1..]| && Like(p[Width(p)..], s[1..][..i]) && Like(q, s[1..][i..]);
      assert s[..i + 1][1..] == s[1..][..i] && s[i + 1..] == s[1..][i..];
      assert Like(p, s[..i + 1]);
    }
  }

  lemma {:induction false} JoinedMany(p: string, q: string, s: string)
    requires p != "" && p[0] == '%'
    ensures Joined(p, q, s) <==> Joined(p[1..], q, s) || (s != "" && Joined(p, q, s[1..]))
  {
    if i :| 0 <= i <= |s| && Like(p, s[..i]) && Like(q, s[i..]) {
      if !Like(p[1..], s[..i]) {
        assert s[..i][1..] == s[1..][..i - 1] && s[i..] == s[1..][i - 1..];
      }
    }
    if i :| 0 <= i <= |s| && Like(p[1..], s[..i]) && Like(q, s[i..]) {
      assert Like(p, s[..i]);
    }
    if s != "" && Joined(p, q, s[1..]) {
      var i :| 0 <= i <= |s[1..]| && Like(p, s[1..][..i]) && Like(q, s[1..][i..]);
      assert s[..i + 1][1..] == s[1..][..i] && s[i + 1..] == s[1..][i..];
      assert Like(p, s[..i + 1]);
    }
  }

  /** Patterns may be put together element by element, except after a dangling escape. */
  lemma {:induction false} LikeJoins(p: string, q: string, s: string)
    requires !Dangling(p)
    ensures Like(p + q, s) <==> Joined(p, q, s)
    decreases |p| + |s|
  {
    if p == "" {
      assert p + q == q && s[0..] == s && s[..0] == "";
      assert forall i | 0 < i <= |s| :: !Like(p, s[..i]);
    } else if p[0] == '%' {
      LikeMany(p, q, s);
      JoinedMany(p, q, s);
      LikeJoins(p[1..], q, s);
      if s != "" {
        LikeJoins(p, q, s[1..]);
      }
    } else {
      LikeOne(p, q, s);
      JoinedOne(p, q, s);
      if s != "" {
        LikeJoins(p[Width(p)..], q, s[1..]);
      }
    }
  }

  // ---------- titles with backslashes ----------

  /** Every % and _ is escaped and no escape dangles: the pattern stands for one text. */
  predicate Literal(t: string) {
    if t == "" then true
    else if t[0] == '\\' then |t| > 1 && Literal(t[2..])
    else t[0] != '%' && t[0] != '_' && Literal(t[1..])
  }

  function Unescaped(t: string): string {
    if t == "" then ""
    else if t[0] == '\\' && |t| > 1 then [t[1]] + Unescaped(t[2..])
    else [t[0]] + Unescaped(t[1..])
  }

  lemma {:induction false} AnythingFollows(s: string)
    ensures Like("%", s)
  {
    if s != "" {
      AnythingFollows(s[1..]);
    }
  }

  /** The first character of a literal pattern stands for one character of the text. */
  lemma {:induction false} LiteralStep(t: string, rest: string, s: string)
    requires t != "" && Literal(t)
    ensures var k := if t[0] == '\\' then 2 else 1;
            && k <= |t| && Literal(t[k..]) && Unescaped(t) == [t[k - 1]] + Unescaped(t[k..])
            && (Like(t + rest, s) <==> s != "" && s[0] == t[k - 1] && Like(t[k..] + rest, s[1..]))
  {
    var k := if t[0] == '\\' then 2 else 1;
    assert (t + rest)[k..] == t[k..] + rest;
  }

  lemma PrefixStep(x: char, u: string, s: string)
    ensures [x] + u <= s <==> s != "" && s[0] == x && u <= s[1..]
  {
    if s != "" {
      assert s == [s[0]] + s[1..];
    }
  }

  lemma {:induction false} LiteralPrefix(t: string, s: string)
    requires Literal(t)
    ensures Like(t + "%", s) <==> Unescaped(t) <= s
  {
    if t == "" {
      AnythingFollows(s);
      assert t + "%" == "%";
    } else {
      var k := if t[0] == '\\' then 2 else 1;
      LiteralStep(t, "%", s);
      PrefixStep(t[k - 1], Unescaped(t[k..]), s);
      if s != "" {
        LiteralPrefix(t[k..], s[1..]);
      }
    }
  }

  lemma {:induction false} LiteralInside(t: string, s: string)
    requires Literal(t)
    ensures Like(Around(t), s) <==> Contains(s, Unescaped(t))
  {
    LiteralPrefix(t, s);
    assert Around(t)[1..] == t + "%";
    if Unescaped(t) <= s {
      assert At(s, Unescaped(t), 0);
    }
    if s != "" {
      LiteralInside(t, s[1..]);
      if Contains(s[1..], Unescaped(t)) {
        ContainsTail(s, Unescaped(t));
      }
      if Contains(s, Unescaped(t)) {
        var i: nat :| i <= |s| && At(s, Unescaped(t), i);
        if i > 0 {
          assert s[1..][i - 1..i - 1 + |Unescaped(t)|] == s[i..i + |Unescaped(t)|];
          assert At(s[1..], Unescaped(t), i - 1);
        }
      }
    }
  }

  // ---------- what any title finds ----------

  /** An escape at the end that escapes nothing. */
  predicate Dangling(t: string) {
    if t == "" then false
    else if t[0] == '\\' then |t| == 1 || Dangling(t[2..])
    else Dangling(t[1..])
  }

  /** How many characters of a pattern its first element takes. */
  function Width(t: string): nat {
    if t != "" && t[0] == '\\' then 2 else 1
  }

  /** The first element of a pattern, other than a percent sign, describes this character. */
  predicate First(t: string, c: char)
    requires t != ""
  {
    if t[0] == '\\' then |t| > 1 && c == t[1] else t[0] == '_' || c == t[0]
  }

  lemma {:induction false} LikeOne(t: string, rest: string, x: string)
    requires t != "" && t[0] != '%' && !Dangling(t)
    ensures Width(t) <= |t| && !Dangling(t[Width(t)..])
    ensures Like(t + rest, x) <==> x != "" && First(t, x[0]) && Like(t[Width(t)..] + rest, x[1..])
  {
    assert (t + rest)[Width(t)..] == t[Width(t)..] + rest;
  }

  lemma {:induction false} LikeMany(t: string, rest: string, x: string)
    requires t != "" && t[0] == '%'
    ensures Like(t + rest, x) <==> Like(t[1..] + rest, x) || (x != "" && Like(t + rest, x[1..]))
  {
    assert (t + rest)[1..] == t[1..] + rest;
  }

  /** Some beginning of x is described by t. */
  ghost predicate Begins(t: string, x: string) {
    exists j | 0 <= j <= |x| :: Like(t, x[..j])
  }

  lemma {:induction false} BeginsOne(t: string, x: string)
    requires t != "" && t[0] != '%' && !Dangling(t) && Width(t) <= |t|
    ensures Begins(t, x) <==> x != "" && First(t, x[0]) && Begins(t[Width(t)..], x[1..])
  {
    if j :| 0 <= j <= |x| && Like(t, x[..j]) {
      assert x[..j][1..] == x[1..][..j - 1];
    }
    if x != "" && First(t, x[0]) && Begins(t[Width(t)..], x[1..]) {
      var j :| 0 <= j <= |x[1..]| && Like(t[Width(t)..], x[1..][..j]);
      assert x[..j + 1][1..] == x[1..][..j];
      assert Like(t, x[..j + 1]);
    }
  }

  lemma {:induction false} BeginsMany(t: string, x: string)
    requires t != "" && t[0] == '%'
    ensures Begins(t, x) <==> Begins(t[1..], x) || (x != "" && Begins(t, x[1..]))
  {
    if j :| 0 <= j <= |x| && Like(t, x[..j]) {
      if !Like(t[1..], x[..j]) {
        assert x[..j][1..] == x[1..][..j - 1];
      }
    }
    if j :| 0 <= j <= |x| && Like(t[1..], x[..j]) {
      assert Like(t, x[..j]);
    }
    if x != "" && Begins(t, x[1..]) {
      var j :| 0 <= j <= |x[1..]| && Like(t, x[1..][..j]);
      assert x[..j + 1][1..] == x[1..][..j];
      assert Like(t, x[..j + 1]);
    }
  }

  /** A percent sign that is not escaped lets anything follow. */
  lemma {:induction false} AnyEnd(t: string, x: string)
    requires !Dangling(t)
    ensures Like(t + "%", x) <==> Begins(t, x)
    decreases |t| + |x|
  {
    if t == "" {
      AnythingFollows(x);
      assert t + "%" == "%" && Like(t, x[..0]);
    } else if t[0] == '%' {
      LikeMany(t, "%", x);
      BeginsMany(t, x);
      AnyEnd(t[1..], x);
      if x != "" {
        AnyEnd(t, x[1..]);
      }
    } else {
      LikeOne(t, "%", x);
      BeginsOne(t, x);
      if x != "" {
        AnyEnd(t[Width(t)..], x[1..]);
      }
    }
  }

  /** x ends in a percent sign, and u describes what stands before it. */
  predicate EndsPercent(u: string, x: string) {
    x != "" && x[|x| - 1] == '%' && Like(u, x[..|x| - 1])
  }

  lemma {:induction false} EscapedEnd(u: string, x: string)
    requires !Dangling(u)
    ensures Like(u + "\\%", x) <==> EndsPercent(u, x)
    decreases |u| + |x|
  {
    if x != "" {
      assert |x| > 1 ==> x[..|x| - 1][1..] == x[1..][..|x| - 2];
    }
    if u == "" {
      assert u + "\\%" == "\\%" && "\\%"[2..] == "";
    } else if u[0] == '%' {
      LikeMany(u, "\\%", x);
      EscapedEnd(u[1..], x);
      if x != "" {
        EscapedEnd(u, x[1..]);
      }
    } else {
      LikeOne(u, "\\%", x);
      if x != "" {
        EscapedEnd(u[Width(u)..], x[1..]);
      }
    }
  }

  lemma {:induction false} AnyStart(q: string, x: string)
    ensures Like("%" + q, x) <==> exists i | 0 <= i <= |x| :: Like(q, x[i..])
  {
    assert ("%" + q)[1..] == q && x[0..] == x;
    if x != "" {
      AnyStart(q, x[1..]);
      forall i | 0 <= i <= |x|
        ensures i > 0 ==> x[1..][i - 1..] == x[i..]
      {
      }
    }
  }

  lemma {:induction false} DanglingEnd(t: string)
    requires Dangling(t)
    ensures t != "" && t[|t| - 1] == '\\' && !Dangling(t[..|t| - 1])
  {
    var k := Width(t);
    if k < |t| {
      DanglingEnd(t[k..]);
      assert t[..|t| - 1][k..] == t[k..][..|t| - k - 1];
    }
  }

  /**
   * The texts that the prefilter finds for a title: some part of them is described by it; with a dangling escape,
   * the part ends in a percent sign at the very end.
   */
  ghost predicate Fits(t: string, x: string) {
    exists i | 0 <= i <= |x| :: if Dangling(t) then EndsPercent(t[..|t| - 1], x[i..]) else Begins(t, x[i..])
  }

  lemma {:induction false} AroundFits(t: string, x: string)
    ensures Like(Around(t), x) <==> Fits(t, x)
  {
    AnyStart(t + "%", x);
    assert Around(t) == "%" + (t + "%");
    forall i | 0 <= i <= |x|
      ensures Like(t + "%", x[i..]) <==>
                if Dangling(t) then EndsPercent(t[..|t| - 1], x[i..]) else Begins(t, x[i..])
    {
      if Dangling(t) {
        DanglingEnd(t);
        EscapedEnd(t[..|t| - 1], x[i..]);
        assert t + "%" == t[..|t| - 1] + "\\%";
      } else {
        AnyEnd(t, x[i..]);
      }
    }
  }

  /** A title that its own pattern finds: without a backslash always, with a dangling escape never. */
  lemma {:induction false} SelfFits(t: string)
    ensures '\\' !in t ==> Fits(t, t)
    ensures Dangling(t) ==> !Fits(t, t)
    ensures Literal(t) ==> (Fits(t, t) <==> Contains(t, Unescaped(t)))
  {
    AroundFits(t, t);
    if '\\' !in t {
      LikesItself(t);
      assert Around(t)[1..] == t + "%";
    }
    if Dangling(t) {
      DanglingEnd(t);
    }
    if Literal(t) {
      LiteralInside(t, t);
    }
  }

  lemma {:induction false} LiteralFits(t: string, x: string)
    requires Literal(t)
    ensures Fits(t, x) <==> Contains(x, Unescaped(t))
  {
    AroundFits(t, x);
    LiteralInside(t, x);
  }

  // ---------- the tables ----------

  datatype Pdr = Pdr(id: string, title: string, content: string, createdAt: int)

  datatype Adr = Adr(id: string, title: string, context: string, decision: string, consequences: string, tags: string,
                     createdAt: int)

  datatype Preference = Preference(id: string, category: string, rule: string, example: string, createdAt: int)

  datatype Tables = Tables(pdrs: seq<Pdr>, adrs: seq<Adr>, prefs: seq<Preference>)

  datatype Entry = Entry(kind: string, title: string, content: string, data: string)

  /** What the database answers during one create: the two searches, and the insert with the new id. */
  datatype Answers = Answers(pdrSearch: bool, adrSearch: bool, insert: Option<string>, now: int)

  datatype Created = Stored | Duplicate | UnknownType | InsertFailed

  predicate PdrMatches(f: char -> char, query: string, p: Pdr) {
    ILike(f, Around(query), p.title) || ILike(f, Around(query), p.content)
  }

  predicate AdrMatches(f: char -> char, query: string, a: Adr) {
    ILike(f, Around(query), a.title) || ILike(f, Around(query), a.context) || ILike(f, Around(query), a.decision)
  }

  predicate IsDuplicate(f: char -> char, t: Tables, title: string, ok: Answers) {
    || (ok.pdrSearch && exists p | p in t.pdrs :: PdrMatches(f, title, p) && EqualFold(f, p.title, title))
    || (ok.adrSearch && exists a | a in t.adrs :: AdrMatches(f, title, a) && EqualFold(f, a.title, title))
  }

  function Create(f: char -> char, t: Tables, e: Entry, ok: Answers): (Tables, Created) {
    if IsDuplicate(f, t, e.title, ok) then (t, Duplicate)
    else if e.kind !in ["pdr", "adr", "pref"] then (t, UnknownType)
    else if ok.insert.None? then (t, InsertFailed)
    else
      var id := ok.insert.value;
      (if e.kind == "pdr" then t.(pdrs := t.pdrs + [Pdr(id, e.title, e.content, ok.now)])
       else if e.kind == "adr" then t.(adrs := t.adrs + [Adr(id, e.title, e.content, "", "", "", ok.now)])
       else t.(prefs := t.prefs + [Preference(id, e.data, e.title, e.content, ok.now)]),
       Stored)
  }

  /** A PDR or ADR title that the duplicate check is meant to keep unique. */
  predicate Titled(t: Tables, title: string) {
    (exists p | p in t.pdrs :: p.title == title) || (exists a | a in t.adrs :: a.title == title)
  }

  /** The column with value x makes the prefilter find this title. */
  ghost predicate Shows(f: char -> char, title: string, x: string) {
    Fits(Fold(f, title), Fold(f, x))
  }

  lemma {:induction false} ColumnShows(f: char -> char, title: string, x: string)
    requires CaseFolding(f)
    ensures ILike(f, Around(title), x) <==> Shows(f, title, x)
  {
    FoldAround(f, title);
    AroundFits(Fold(f, title), Fold(f, x));
  }

  ghost predicate HasTwin(f: char -> char, t: Tables, title: string) {
    exists other | Titled(t, other) :: EqualFold(f, other, title)
  }

  /** A fold-equal title stands beside another column that shows the title. */
  ghost predicate TwinMentions(f: char -> char, t: Tables, title: string) {
    || (exists p | p in t.pdrs :: EqualFold(f, p.title, title) && Shows(f, title, p.content))
    || (exists a | a in t.adrs ::
          EqualFold(f, a.title, title) && (Shows(f, title, a.context) || Shows(f, title, a.decision)))
  }

  /** The pattern of the title finds the title. */
  ghost predicate FindsItself(f: char -> char, title: string) {
    Shows(f, title, title)
  }

  lemma {:induction false} PdrRejects(f: char -> char, title: string, p: Pdr)
    requires CaseFolding(f) && EqualFold(f, p.title, title)
    ensures PdrMatches(f, title, p) <==> FindsItself(f, title) || Shows(f, title, p.content)
  {
    ColumnShows(f, title, p.title);
    ColumnShows(f, title, p.content);
  }

  lemma {:induction false} AdrRejects(f: char -> char, title: string, a: Adr)
    requires CaseFolding(f) && EqualFold(f, a.title, title)
    ensures AdrMatches(f, title, a) <==>
              FindsItself(f, title) || Shows(f, title, a.context) || Shows(f, title, a.decision)
  {
    ColumnShows(f, title, a.title);
    ColumnShows(f, title, a.context);
    ColumnShows(f, title, a.decision);
  }

  /**
   * With working searches any title is rejected exactly when some stored title folds to the same and the prefilter
   * gets to see it: by the title, or by another column of such a row.
   */
  lemma {:induction false} RejectedExactly(f: char -> char, t: Tables, title: string, ok: Answers)
    requires CaseFolding(f) && ok.pdrSearch && ok.adrSearch
    ensures IsDuplicate(f, t, title, ok) <==>
              HasTwin(f, t, title) && (FindsItself(f, title) || TwinMentions(f, t, title))
  {
    forall p | p in t.pdrs && EqualFold(f, p.title, title)
      ensures PdrMatches(f, title, p) <==> FindsItself(f, title) || Shows(f, title, p.content)
      ensures Titled(t, p.title)
    {
      PdrRejects(f, title, p);
    }
    forall a | a in t.adrs && EqualFold(f, a.title, title)
      ensures AdrMatches(f, title, a) <==>
                FindsItself(f, title) || Shows(f, title, a.context) || Shows(f, title, a.decision)
      ensures Titled(t, a.title)
    {
      AdrRejects(f, title, a);
    }
  }

  /** Whether a title finds itself: always without a backslash, never with a dangling one. */
  lemma {:induction false} FindsItselfWhen(f: char -> char, title: string)
    requires CaseFolding(f)
    ensures '\\' !in title ==> FindsItself(f, title)
    ensures Dangling(Fold(f, title)) ==> !FindsItself(f, title)
    ensures Literal(Fold(f, title)) ==>
              (FindsItself(f, title) <==> Contains(Fold(f, title), Unescaped(Fold(f, title))))
  {
    FoldAround(f, title);
    SelfFits(Fold(f, title));
  }

  /** The prefilter lets every fold-equal title through, even when the title contains % or _. */
  lemma {:induction false} PatternFindsTwin(f: char -> char, t: string, s: string)
    requires CaseFolding(f) && '\\' !in t && EqualFold(f, s, t)
    ensures ILike(f, Around(t), s)
  {
    FindsItselfWhen(f, t);
    ColumnShows(f, t, s);
  }

  /** The folded column contains the folded title without its escapes. */
  predicate Quotes(f: char -> char, title: string, x: string) {
    Contains(Fold(f, x), Unescaped(Fold(f, title)))
  }

  lemma {:induction false} LiteralColumn(f: char -> char, title: string, x: string)
    requires CaseFolding(f) && Literal(Fold(f, title))
    ensures ILike(f, Around(title), x) <==> Quotes(f, title, x)
  {
    ColumnShows(f, title, x);
    LiteralFits(Fold(f, title), Fold(f, x));
  }

  /** The check itself for literal titles: a fold-equal title in a row with a column that contains the unescaped title. */
  lemma {:induction false} LiteralRejectedExactly(f: char -> char, t: Tables, title: string, ok: Answers)
    requires CaseFolding(f) && Literal(Fold(f, title)) && ok.pdrSearch && ok.adrSearch
    ensures IsDuplicate(f, t, title, ok) <==>
              || (exists p | p in t.pdrs ::
                    EqualFold(f, p.title, title) && (Quotes(f, title, p.title) || Quotes(f, title, p.content)))
              || (exists a | a in t.adrs ::
                    && EqualFold(f, a.title, title)
                    && (Quotes(f, title, a.title) || Quotes(f, title, a.context) || Quotes(f, title, a.decision)))
  {
    forall x
      ensures ILike(f, Around(title), x) <==> Quotes(f, title, x)
    {
      LiteralColumn(f, title, x);
    }
  }

  /** A create adds a PDR or ADR beside a fold-equal one exactly when the insert works and the prefilter overlooks that one. */
  lemma {:induction false} TwinAddedExactly(f: char -> char, t: Tables, e: Entry, ok: Answers)
    requires CaseFolding(f) && ok.pdrSearch && ok.adrSearch && HasTwin(f, t, e.title)
    ensures var after := Create(f, t, e, ok).0;
            |after.pdrs| + |after.adrs| > |t.pdrs| + |t.adrs| <==>
              e.kind in ["pdr", "adr"] && ok.insert.Some? && !FindsItself(f, e.title) && !TwinMentions(f, t, e.title)
  {
    RejectedExactly(f, t, e.title, ok);
  }

  /** The outcome of a create, and that nothing changes unless it is Stored. */
  lemma {:induction false} CreatedExactly(f: char -> char, t: Tables, e: Entry, ok: Answers)
    requires CaseFolding(f) && ok.pdrSearch && ok.adrSearch
    ensures var r := Create(f, t, e, ok);
            var known := HasTwin(f, t, e.title) && (FindsItself(f, e.title) || TwinMentions(f, t, e.title));
            && (r.1 == Duplicate <==> known)
            && (r.1 == UnknownType <==> !known && e.kind !in ["pdr", "adr", "pref"])
            && (r.1 == InsertFailed <==> !known && e.kind in ["pdr", "adr", "pref"] && ok.insert.None?)
            && (r.1 != Stored ==> r.0 == t)
  {
    RejectedExactly(f, t, e.title, ok);
  }

  // ---------- whole runs of creates ----------

  datatype Request = Request(entry: Entry, answers: Answers)

  const EMPTY := Tables([], [], [])

  function Run(f: char -> char, rs: seq<Request>): Tables {
    if rs == [] then EMPTY
    else Create(f, Run(f, rs[..|rs| - 1]), rs[|rs| - 1].entry, rs[|rs| - 1].answers).0
  }

  /** The entries stored along the way, in order. */
  function Accepted(f: char -> char, rs: seq<Request>): seq<Entry> {
    if rs == [] then []
    else
      var before, last := rs[..|rs| - 1], rs[|rs| - 1];
      Accepted(f, before)
      + if Create(f, Run(f, before), last.entry, last.answers).1.Stored? then [last.entry] else []
  }

  ghost predicate Twins(f: char -> char, a: string, b: string) {
    EqualFold(f, a, b) && FindsItself(f, a)
  }

  /** No two titles of the PDR and ADR tables are equal under folding, if they find themselves. */
  ghost predicate NoTwins(f: char -> char, t: Tables) {
    && (forall i, j | 0 <= i < j < |t.pdrs| :: !Twins(f, t.pdrs[i].title, t.pdrs[j].title))
    && (forall i, j | 0 <= i < j < |t.adrs| :: !Twins(f, t.adrs[i].title, t.adrs[j].title))
    && (forall p, a | p in t.pdrs && a in t.adrs :: !Twins(f, p.title, a.title))
  }

  lemma {:induction false} NewTitleHasNoTwin(f: char -> char, t: Tables, title: string, ok: Answers, other: string)
    requires CaseFolding(f) && ok.pdrSearch && ok.adrSearch && !IsDuplicate(f, t, title, ok)
    requires Titled(t, other)
    ensures !Twins(f, other, title) && !Twins(f, title, other)
  {
    RejectedExactly(f, t, title, ok);
  }

  /** Neither this title nor a stored one is a twin of the other. */
  ghost predicate Apart(f: char -> char, t: Tables, title: string) {
    forall other | Titled(t, other) :: !Twins(f, other, title) && !Twins(f, title, other)
  }

  lemma {:induction false} PdrKeepsNoTwins(f: char -> char, t: Tables, p: Pdr)
    requires NoTwins(f, t) && Apart(f, t, p.title)
    ensures NoTwins(f, t.(pdrs := t.pdrs + [p]))
  {
    assert forall q | q in t.pdrs :: Titled(t, q.title);
    assert forall a | a in t.adrs :: Titled(t, a.title);
  }

  lemma {:induction false} AdrKeepsNoTwins(f: char -> char, t: Tables, a: Adr)
    requires NoTwins(f, t) && Apart(f, t, a.title)
    ensures NoTwins(f, t.(adrs := t.adrs + [a]))
  {
    assert forall q | q in t.pdrs :: Titled(t, q.title);
    assert forall b | b in t.adrs :: Titled(t, b.title);
  }

  lemma {:induction false} CreateKeepsNoTwins(f: char -> char, t: Tables, e: Entry, ok: Answers)
    requires CaseFolding(f) && ok.pdrSearch && ok.adrSearch && NoTwins(f, t)
    ensures NoTwins(f, Create(f, t, e, ok).0)
  {
    if Create(f, t, e, ok).1.Stored? {
      forall other | Titled(t, other)
        ensures !Twins(f, other, e.title) && !Twins(f, e.title, other)
      {
        NewTitleHasNoTwin(f, t, e.title, ok, other);
      }
      if e.kind == "pdr" {
        PdrKeepsNoTwins(f, t, Pdr(ok.insert.value, e.title, e.content, ok.now));
      } else if e.kind == "adr" {
        AdrKeepsNoTwins(f, t, Adr(ok.insert.value, e.title, e.content, "", "", "", ok.now));
      }
    }
  }

  /** Every search of the run succeeds. */
  predicate Working(rs: seq<Request>) {
    forall r | r in rs :: r.answers.pdrSearch && r.answers.adrSearch
  }

  /** Over every sequential run whose searches succeed, titles that find themselves stay unique across both tables. */
  lemma {:induction false} TitlesStayUnique(f: char -> char, rs: seq<Request>)
    requires CaseFolding(f) && Working(rs)
    ensures NoTwins(f, Run(f, rs))
  {
    if rs != [] {
      TitlesStayUnique(f, rs[..|rs| - 1]);
      CreateKeepsNoTwins(f, Run(f, rs[..|rs| - 1]), rs[|rs| - 1].entry, rs[|rs| - 1].answers);
    }
  }

  /** Two rows with this title, up to folding. */
  ghost predicate Twice(f: char -> char, t: Tables, title: string) {
    || (exists i, j | 0 <= i < j < |t.pdrs| :: EqualFold(f, t.pdrs[i].title, title) && EqualFold(f, t.pdrs[j].title, title))
    || (exists i, j | 0 <= i < j < |t.adrs| :: EqualFold(f, t.adrs[i].title, title) && EqualFold(f, t.adrs[j].title, title))
    || (exists p, a | p in t.pdrs && a in t.adrs :: EqualFold(f, p.title, title) && EqualFold(f, a.title, title))
  }

  lemma {:induction false} EmptyFitsPercents(t: string)
    requires Like(t, "")
    ensures '\\' !in t
  {
    if t != "" {
      EmptyFitsPercents(t[1..]);
    }
  }

  lemma {:induction false} EmptyShowsNothing(f: char -> char, title: string)
    requires CaseFolding(f) && !FindsItself(f, title)
    ensures !Shows(f, title, "")
  {
    var t := Fold(f, title);
    assert Fold(f, "") == "";
    FoldAround(f, title);
    FindsItselfWhen(f, title);
    if Fits(t, "") {
      assert ""[0..] == "" && Begins(t, "");
      var j :| 0 <= j <= 0 && Like(t, ""[..j]);
      assert ""[..j] == "";
      EmptyFitsPercents(t);
    }
  }

  const ANSWERED := Answers(true, true, Some("id"), 0)

  /** The same document without content, submitted twice. */
  function Again(title: string): seq<Request> {
    [Request(Entry("pdr", title, "", ""), ANSWERED), Request(Entry("pdr", title, "", ""), ANSWERED)]
  }

  lemma {:induction false} RunTwo(f: char -> char, r: Request)
    ensures Run(f, [r, r]) == Create(f, Create(f, EMPTY, r.entry, r.answers).0, r.entry, r.answers).0
  {
    var rs := [r, r];
    assert rs[..1] == [r] && rs[..1][..0] == [];
    assert Run(f, [r]) == Create(f, EMPTY, r.entry, r.answers).0;
  }

  lemma {:induction false} AgainStoresTwice(f: char -> char, title: string)
    requires CaseFolding(f) && !FindsItself(f, title)
    ensures Working(Again(title)) && Run(f, Again(title)).pdrs == [Pdr("id", title, "", 0), Pdr("id", title, "", 0)]
  {
    var e, p := Entry("pdr", title, "", ""), Pdr("id", title, "", 0);
    RunTwo(f, Request(e, ANSWERED));
    assert !IsDuplicate(f, EMPTY, title, ANSWERED);
    EmptyShowsNothing(f, title);
    RejectedExactly(f, Tables([p], [], []), title, ANSWERED);
  }

  lemma {:induction false} SameTitleTwice(f: char -> char, t: Tables, title: string, p: Pdr)
    requires t.pdrs == [p, p] && p.title == title
    ensures Twice(f, t, title)
  {
    assert t.pdrs[0].title == title && t.pdrs[1].title == title;
  }

  /** A title is stored at most once by every run whose searches succeed exactly when it finds itself. */
  lemma {:induction false} UniqueExactly(f: char -> char, title: string)
    requires CaseFolding(f)
    ensures (forall rs | Working(rs) :: !Twice(f, Run(f, rs), title)) <==> FindsItself(f, title)
  {
    if FindsItself(f, title) {
      forall rs | Working(rs)
        ensures !Twice(f, Run(f, rs), title)
      {
        TitlesStayUnique(f, rs);
        NoTwinsNotTwice(f, Run(f, rs), title);
      }
    } else {
      AgainStoresTwice(f, title);
      SameTitleTwice(f, Run(f, Again(title)), title, Pdr("id", title, "", 0));
    }
  }

  lemma {:induction false} NoTwinsNotTwice(f: char -> char, t: Tables, title: string)
    requires NoTwins(f, t) && FindsItself(f, title)
    ensures !Twice(f, t, title)
  {
    forall other: string, another: string | EqualFold(f, other, title) && EqualFold(f, another, title)
      ensures Twins(f, other, another)
    {
    }
  }

  /** In particular a title with a backslash before a letter can be stored twice. */
  lemma {:induction false} BackslashStoredTwice(f: char -> char)
    requires CaseFolding(f) && f('a') == 'a' && f('b') == 'b'
    ensures Working(Again("a\\b")) && Twice(f, Run(f, Again("a\\b")), "a\\b")
  {
    var title := "a\\b";
    assert Fold(f, title) == title;
    assert title[1..] == "\\b" && title[1..][2..] == "";
    assert Literal(title) && Unescaped(title) == "ab" && !Contains(title, "ab");
    FindsItselfWhen(f, title);
    AgainStoresTwice(f, title);
    SameTitleTwice(f, Run(f, Again(title)), title, Pdr("id", title, "", 0));
  }

  // ---------- what listing shows ----------

  /** What comes back of an entry: title, content, and the data of preferences. */
  datatype Shown = Shown(title: string, content: string, data: string)

  function Submitted(accepted: seq<Entry>, kind: string): seq<Shown> {
    if accepted == [] then []
    else
      var e := accepted[|accepted| - 1];
      Submitted(accepted[..|accepted| - 1], kind)
      + if e.kind == kind then [Shown(e.title, e.content, if kind == "pref" then e.data else "")] else []
  }

  datatype Listed = Listed(id: string, kind: string, title: string, content: string, data: string, createdAt: int)

  function ListedPdr(p: Pdr): Listed {
    Listed(p.id, "pdr", p.title, p.content, "", p.createdAt)
  }

  function ListedAdr(a: Adr): Listed {
    Listed(a.id, "adr", a.title, a.context, "", a.createdAt)
  }

  function ListedPreference(p: Preference): Listed {
    Listed(p.id, "pref", p.rule, p.example, p.category, p.createdAt)
  }

  function AsShown(l: Listed): Shown {
    Shown(l.title, l.content, l.data)
  }

  function Map<A, B>(g: A -> B, s: seq<A>): (r: seq<B>)
    ensures |r| == |s| && forall i | 0 <= i < |s| :: r[i] == g(s[i])
  {
    seq(|s|, i requires 0 <= i < |s| => g(s[i]))
  }

  /** The rows of one kind, as listed. */
  function Rows(t: Tables, kind: string): seq<Listed> {
    if kind == "pdr" then Map(ListedPdr, t.pdrs)
    else if kind == "adr" then Map(ListedAdr, t.adrs)
    else if kind == "pref" then Map(ListedPreference, t.prefs)
    else []
  }

  lemma CreateShows(f: char -> char, t: Tables, e: Entry, ok: Answers, kind: string)
    requires kind in ["pdr", "adr", "pref"]
    ensures var r := Create(f, t, e, ok);
            Map(AsShown, Rows(r.0, kind))
            == Map(AsShown, Rows(t, kind))
               + if r.1.Stored? && e.kind == kind
                 then [Shown(e.title, e.content, if kind == "pref" then e.data else "")] else []
  {
  }

  /** Stored is: one more row of its kind at the end, with the new id and time; the other tables stay. */
  lemma {:induction false} StoredAppends(f: char -> char, t: Tables, e: Entry, ok: Answers, kind: string)
    requires Create(f, t, e, ok).1 == Stored && kind in ["pdr", "adr", "pref"]
    ensures var after := Create(f, t, e, ok).0;
            if kind == e.kind then
              && ok.insert.Some?
              && Rows(after, kind) == Rows(t, kind)
                 + [Listed(ok.insert.value, kind, e.title, e.content, if kind == "pref" then e.data else "", ok.now)]
            else Rows(after, kind) == Rows(t, kind)
  {
  }

  lemma SubmittedStep(accepted: seq<Entry>, e: Entry, kind: string)
    ensures Submitted(accepted + [e], kind)
         == Submitted(accepted, kind)
            + if e.kind == kind then [Shown(e.title, e.content, if kind == "pref" then e.data else "")] else []
  {
    assert (accepted + [e])[..|accepted|] == accepted;
  }

  /** The rows of each kind show exactly the accepted entries of that kind. */
  lemma {:induction false} RowsShowAccepted(f: char -> char, rs: seq<Request>, kind: string)
    requires kind in ["pdr", "adr", "pref"]
    ensures Map(AsShown, Rows(Run(f, rs), kind)) == Submitted(Accepted(f, rs), kind)
  {
    if rs != [] {
      var before, last := rs[..|rs| - 1], rs[|rs| - 1];
      RowsShowAccepted(f, before, kind);
      CreateShows(f, Run(f, before), last.entry, last.answers, kind);
      var accepted := Accepted(f, before);
      SubmittedStep(accepted, last.entry, kind);
      assert accepted + [] == accepted;
      assert Submitted(accepted, kind) + [] == Submitted(accepted, kind);
    }
  }

  // ---------- the repository object ----------

  ghost predicate NewestFirst<T>(rows: seq<T>, at: T -> int) {
    rows == [] || ((forall r | r in rows[1..] :: at(rows[0]) >= at(r)) && NewestFirst(rows[1..], at))
  }

  function Where<T(!new)>(keep: T -> bool, rows: seq<T>): (kept: seq<T>)
    ensures forall r :: r in kept <==> r in rows && keep(r)
  {
    if rows == [] then []
    else Where(keep, rows[..|rows| - 1]) + if keep(rows[|rows| - 1]) then [rows[|rows| - 1]] else []
  }

  function InsertNewest<T>(row: T, sorted: seq<T>, at: T -> int): seq<T> {
    if sorted == [] || at(sorted[0]) < at(row) then [row] + sorted
    else [sorted[0]] + InsertNewest(row, sorted[1..], at)
  }

  lemma {:induction false} InsertKeepsRows<T>(row: T, sorted: seq<T>, at: T -> int)
    ensures multiset(InsertNewest(row, sorted, at)) == multiset(sorted) + multiset{row}
  {
    if sorted != [] && at(sorted[0]) >= at(row) {
      InsertKeepsRows(row, sorted[1..], at);
      assert sorted == [sorted[0]] + sorted[1..];
    }
  }

  lemma {:induction false} InsertKeepsOrder<T>(row: T, sorted: seq<T>, at: T -> int)
    requires NewestFirst(sorted, at)
    ensures NewestFirst(InsertNewest(row, sorted, at), at)
  {
    if sorted != [] && at(sorted[0]) >= at(row) {
      var rest := InsertNewest(row, sorted[1..], at);
      InsertKeepsOrder(row, sorted[1..], at);
      InsertKeepsRows(row, sorted[1..], at);
      SameMembers(rest, sorted[1..] + [row]);
      assert ([sorted[0]] + rest)[1..] == rest;
    } else {
      assert ([row] + sorted)[1..] == sorted;
    }
  }

  /** ORDER BY created_at DESC; nothing below depends on the order of equal times. */
  function Ordered<T>(rows: seq<T>, at: T -> int): (r: seq<T>)
    ensures multiset(r) == multiset(rows)
    ensures NewestFirst(r, at)
  {
    if rows == [] then []
    else
      var rest := Ordered(rows[1..], at);
      assert rows == [rows[0]] + rows[1..];
      InsertKeepsRows(rows[0], rest, at);
      InsertKeepsOrder(rows[0], rest, at);
      InsertNewest(rows[0], rest, at)
  }

  lemma SameMembers<T>(xs: seq<T>, ys: seq<T>)
    requires multiset(xs) == multiset(ys)
    ensures forall x | x in xs :: x in ys
    ensures forall y | y in ys :: y in xs
  {
    assert forall x | x in xs :: x in multiset(xs);
    assert forall y | y in ys :: y in multiset(ys);
  }

  lemma FirstAndRest<A>(xs: seq<A>)
    requires xs != []
    ensures multiset(xs) == multiset{xs[0]} + multiset(xs[1..])
  {
    assert xs == [xs[0]] + xs[1..];
  }

  lemma OneAndRest<A>(ys: seq<A>, k: nat)
    requires k < |ys|
    ensures multiset(ys) == multiset{ys[k]} + multiset(ys[..k] + ys[k + 1..])
  {
    assert ys == ys[..k] + [ys[k]] + ys[k + 1..];
  }

  lemma WithoutFirst<A>(xs: seq<A>, ys: seq<A>) returns (k: nat)
    requires xs != [] && multiset(xs) == multiset(ys)
    ensures k < |ys| && ys[k] == xs[0]
    ensures multiset(xs[1..]) == multiset(ys[..k] + ys[k + 1..])
  {
    SameMembers(xs, ys);
    assert xs[0] in ys;
    k :| 0 <= k < |ys| && ys[k] == xs[0];
    FirstAndRest(xs);
    OneAndRest(ys, k);
    var rest := multiset(ys[..k] + ys[k + 1..]);
    assert multiset{xs[0]} + multiset(xs[1..]) == multiset{xs[0]} + rest;
    SameSum(multiset{xs[0]}, multiset(xs[1..]), rest);
  }

  lemma SameSum<A>(a: multiset<A>, b: multiset<A>, c: multiset<A>)
    requires a + b == a + c
    ensures b == c
  {
    assert b == (a + b) - a;
    assert c == (a + c) - a;
  }

  lemma MapAround<A, B>(g: A -> B, ys: seq<A>, k: nat)
    requires k < |ys|
    ensures multiset(Map(g, ys)) == multiset(Map(g, ys[..k] + ys[k + 1..])) + multiset{g(ys[k])}
  {
    assert Map(g, ys) == Map(g, ys[..k]) + [g(ys[k])] + Map(g, ys[k + 1..]);
    assert Map(g, ys[..k] + ys[k + 1..]) == Map(g, ys[..k]) + Map(g, ys[k + 1..]);
  }

  lemma MapFirst<A, B>(g: A -> B, xs: seq<A>)
    requires xs != []
    ensures multiset(Map(g, xs)) == multiset(Map(g, xs[1..])) + multiset{g(xs[0])}
  {
    assert Map(g, xs) == [g(xs[0])] + Map(g, xs[1..]);
  }

  lemma {:induction false} MapKeepsMultiset<A, B>(g: A -> B, xs: seq<A>, ys: seq<A>)
    requires multiset(xs) == multiset(ys)
    ensures multiset(Map(g, xs)) == multiset(Map(g, ys))
  {
    if xs == [] {
      assert |multiset(ys)| == |ys|;
    } else {
      var k := WithoutFirst(xs, ys);
      MapKeepsMultiset(g, xs[1..], ys[..k] + ys[k + 1..]);
      MapAround(g, ys, k);
      MapFirst(g, xs);
    }
  }

  function PdrResult(p: Pdr, recency: int -> real): SearchResult {
    SearchResult(p.id, "pdr", p.title, p.content, recency(p.createdAt) + 0.5)
  }

  /** An ADR is found with its decision as the content. */
  function AdrResult(a: Adr, recency: int -> real): SearchResult {
    SearchResult(a.id, "adr", a.title, a.decision, recency(a.createdAt) + 0.2)
  }

  function PdrResults(rows: seq<Pdr>, recency: int -> real): (r: seq<SearchResult>)
    ensures |r| == |rows| && forall i | 0 <= i < |rows| :: r[i] == PdrResult(rows[i], recency)
  {
    seq(|rows|, i requires 0 <= i < |rows| => PdrResult(rows[i], recency))
  }

  function AdrResults(rows: seq<Adr>, recency: int -> real): (r: seq<SearchResult>)
    ensures |r| == |rows| && forall i | 0 <= i < |rows| :: r[i] == AdrResult(rows[i], recency)
  {
    seq(|rows|, i requires 0 <= i < |rows| => AdrResult(rows[i], recency))
  }

  function MatchingPdrs(f: char -> char, query: string, rows: seq<Pdr>, ok: bool): (r: seq<Pdr>)
    ensures forall p :: p in r <==> ok && p in rows && PdrMatches(f, query, p)
  {
    if ok then Where(p => PdrMatches(f, query, p), rows) else []
  }

  function MatchingAdrs(f: char -> char, query: string, rows: seq<Adr>, ok: bool): (r: seq<Adr>)
    ensures forall a :: a in r <==> ok && a in rows && AdrMatches(f, query, a)
  {
    if ok then Where(a => AdrMatches(f, query, a), rows) else []
  }

  function Limited(all: seq<SearchResult>, limit: nat): seq<SearchResult> {
    if |all| > limit then all[..limit] else all
  }

  function PdrTime(p: Pdr): int {
    p.createdAt
  }

  function AdrTime(a: Adr): int {
    a.createdAt
  }

  /** The matching rows of both tables, newest first, and the results made of them. */
  ghost predicate FoundAs(f: char -> char, t: Tables, query: string, limit: nat, pdrOk: bool, adrOk: bool,
                          recency: int -> real, results: seq<SearchResult>, found: seq<Pdr>, decisions: seq<Adr>) {
    && multiset(found) == multiset(MatchingPdrs(f, query, t.pdrs, pdrOk)) && NewestFirst(found, PdrTime)
    && multiset(decisions) == multiset(MatchingAdrs(f, query, t.adrs, adrOk)) && NewestFirst(decisions, AdrTime)
    && results == Limited(PdrResults(found, recency) + AdrResults(decisions, recency), limit)
  }

  /** Up to `limit` results: matching PDRs first, then matching ADRs, each newest first. */
  ghost predicate Searched(f: char -> char, t: Tables, query: string, limit: nat, pdrOk: bool, adrOk: bool,
                           recency: int -> real, results: seq<SearchResult>) {
    exists found, decisions :: FoundAs(f, t, query, limit, pdrOk, adrOk, recency, results, found, decisions)
  }

  // ---------- what a search finds ----------

  /** A row is found exactly when its title or its content shows the query. */
  lemma {:induction false} PdrsFoundExactly(f: char -> char, query: string, rows: seq<Pdr>, p: Pdr)
    requires CaseFolding(f)
    ensures p in MatchingPdrs(f, query, rows, true) <==>
              p in rows && (Shows(f, query, p.title) || Shows(f, query, p.content))
  {
    ColumnShows(f, query, p.title);
    ColumnShows(f, query, p.content);
  }

  lemma {:induction false} AdrsFoundExactly(f: char -> char, query: string, rows: seq<Adr>, a: Adr)
    requires CaseFolding(f)
    ensures a in MatchingAdrs(f, query, rows, true) <==>
              a in rows && (Shows(f, query, a.title) || Shows(f, query, a.context) || Shows(f, query, a.decision))
  {
    ColumnShows(f, query, a.title);
    ColumnShows(f, query, a.context);
    ColumnShows(f, query, a.decision);
  }

  /** For a query without unescaped wildcards: when a column contains it, folded and without its escapes. */
  lemma {:induction false} LiteralFoundExactly(f: char -> char, query: string, t: Tables, p: Pdr, a: Adr)
    requires CaseFolding(f) && Literal(Fold(f, query))
    ensures var q := Unescaped(Fold(f, query));
            && (p in MatchingPdrs(f, query, t.pdrs, true) <==>
                  p in t.pdrs && (Contains(Fold(f, p.title), q) || Contains(Fold(f, p.content), q)))
            && (a in MatchingAdrs(f, query, t.adrs, true) <==>
                  && a in t.adrs
                  && (Contains(Fold(f, a.title), q) || Contains(Fold(f, a.context), q) || Contains(Fold(f, a.decision), q)))
  {
    LiteralColumn(f, query, p.title);
    LiteralColumn(f, query, p.content);
    LiteralColumn(f, query, a.title);
    LiteralColumn(f, query, a.context);
    LiteralColumn(f, query, a.decision);
  }

  /** Filtering keeps each row as often as it was there. */
  lemma {:induction false} WhereKeepsCount<T(!new)>(keep: T -> bool, rows: seq<T>, r: T)
    ensures multiset(Where(keep, rows))[r] == if keep(r) then multiset(rows)[r] else 0
  {
    if rows != [] {
      var n := |rows| - 1;
      WhereKeepsCount(keep, rows[..n], r);
      assert rows == rows[..n] + [rows[n]];
      assert multiset(rows) == multiset(rows[..n]) + multiset{rows[n]};
    }
  }

  /** The result that stands for a document, and the one that stands for a decision. */
  ghost predicate StandsForPdr(r: SearchResult, p: Pdr, recency: int -> real) {
    r == SearchResult(p.id, "pdr", p.title, p.content, recency(p.createdAt) + 0.5)
  }

  ghost predicate StandsForAdr(r: SearchResult, a: Adr, recency: int -> real) {
    r == SearchResult(a.id, "adr", a.title, a.decision, recency(a.createdAt) + 0.2)
  }

  ghost predicate FoundPdr(f: char -> char, t: Tables, query: string, recency: int -> real, r: SearchResult) {
    exists p | p in t.pdrs ::
      StandsForPdr(r, p, recency) && (Shows(f, query, p.title) || Shows(f, query, p.content))
  }

  ghost predicate FoundAdr(f: char -> char, t: Tables, query: string, recency: int -> real, r: SearchResult) {
    exists a | a in t.adrs ::
      StandsForAdr(r, a, recency) && (Shows(f, query, a.title) || Shows(f, query, a.context) || Shows(f, query, a.decision))
  }

  lemma {:induction false} PdrResultsExactly(f: char -> char, t: Tables, query: string, recency: int -> real,
                                             found: seq<Pdr>, r: SearchResult)
    requires CaseFolding(f) && multiset(found) == multiset(MatchingPdrs(f, query, t.pdrs, true))
    ensures r in PdrResults(found, recency) <==> FoundPdr(f, t, query, recency, r)
  {
    SameMembers(found, MatchingPdrs(f, query, t.pdrs, true));
    forall p
      ensures p in found <==> p in t.pdrs && (Shows(f, query, p.title) || Shows(f, query, p.content))
    {
      PdrsFoundExactly(f, query, t.pdrs, p);
    }
    if r in PdrResults(found, recency) {
      var i :| 0 <= i < |found| && PdrResults(found, recency)[i] == r;
      assert found[i] in found && StandsForPdr(r, found[i], recency);
    }
    if FoundPdr(f, t, query, recency, r) {
      var p :| p in t.pdrs && StandsForPdr(r, p, recency) && (Shows(f, query, p.title) || Shows(f, query, p.content));
      var i :| 0 <= i < |found| && found[i] == p;
      assert PdrResults(found, recency)[i] == r;
    }
  }

  lemma {:induction false} AdrResultsExactly(f: char -> char, t: Tables, query: string, recency: int -> real,
                                             found: seq<Adr>, r: SearchResult)
    requires CaseFolding(f) && multiset(found) == multiset(MatchingAdrs(f, query, t.adrs, true))
    ensures r in AdrResults(found, recency) <==> FoundAdr(f, t, query, recency, r)
  {
    SameMembers(found, MatchingAdrs(f, query, t.adrs, true));
    forall a
      ensures a in found <==>
                a in t.adrs && (Shows(f, query, a.title) || Shows(f, query, a.context) || Shows(f, query, a.decision))
    {
      AdrsFoundExactly(f, query, t.adrs, a);
    }
    if r in AdrResults(found, recency) {
      var i :| 0 <= i < |found| && AdrResults(found, recency)[i] == r;
      assert found[i] in found && StandsForAdr(r, found[i], recency);
    }
    if FoundAdr(f, t, query, recency, r) {
      var a :| a in t.adrs && StandsForAdr(r, a, recency)
               && (Shows(f, query, a.title) || Shows(f, query, a.context) || Shows(f, query, a.decision));
      var i :| 0 <= i < |found| && found[i] == a;
      assert AdrResults(found, recency)[i] == r;
    }
  }

  /** A search never gives more than the limit; below it, it gives exactly the rows that show the query, as they are. */
  lemma {:induction false} SearchedExactly(f: char -> char, t: Tables, query: string, limit: nat, recency: int -> real,
                                           results: seq<SearchResult>, r: SearchResult)
    requires CaseFolding(f) && Searched(f, t, query, limit, true, true, recency, results)
    ensures |results| <= limit
    ensures |results| < limit ==>
              (r in results <==> FoundPdr(f, t, query, recency, r) || FoundAdr(f, t, query, recency, r))
    ensures r in results ==> FoundPdr(f, t, query, recency, r) || FoundAdr(f, t, query, recency, r)
  {
    var found, decisions :| FoundAs(f, t, query, limit, true, true, recency, results, found, decisions);
    PdrResultsExactly(f, t, query, recency, found, r);
    AdrResultsExactly(f, t, query, recency, decisions, r);
    var all := PdrResults(found, recency) + AdrResults(decisions, recency);
    assert r in all <==> r in PdrResults(found, recency) || r in AdrResults(decisions, recency);
  }

  class Repository {
    var pdrs: seq<Pdr>
    var adrs: seq<Adr>
    var prefs: seq<Preference>

    function View(): Tables
      reads this
    {
      Tables(pdrs, adrs, prefs)
    }

    /** Only CreateMemory writes the tables, and it leaves the decision of an ADR empty. */
    ghost predicate Valid()
      reads this
    {
      forall a | a in adrs :: a.decision == ""
    }

    constructor ()
      ensures Valid() && View() == EMPTY
    {
      pdrs, adrs, prefs := [], [], [];
    }

    /** No rows when the query fails: every caller ignores the error. */
    method SearchPDRs(f: char -> char, query: string, ok: bool) returns (rows: seq<Pdr>)
      ensures multiset(rows) == multiset(MatchingPdrs(f, query, pdrs, ok))
      ensures NewestFirst(rows, PdrTime)
      ensures !ok ==> rows == []
      ensures ok && CaseFolding(f) ==>
                forall p :: p in rows <==> p in pdrs && (Shows(f, query, p.title) || Shows(f, query, p.content))
    {
      rows := Ordered(MatchingPdrs(f, query, pdrs, ok), PdrTime);
      SameMembers(rows, MatchingPdrs(f, query, pdrs, ok));
      if CaseFolding(f) {
        forall p
          ensures p in MatchingPdrs(f, query, pdrs, true) <==>
                    p in pdrs && (Shows(f, query, p.title) || Shows(f, query, p.content))
        {
          PdrsFoundExactly(f, query, pdrs, p);
        }
      }
    }

    method SearchADRs(f: char -> char, query: string, ok: bool) returns (rows: seq<Adr>)
      ensures multiset(rows) == multiset(MatchingAdrs(f, query, adrs, ok))
      ensures NewestFirst(rows, AdrTime)
      ensures !ok ==> rows == []
      ensures ok && CaseFolding(f) ==>
                forall a :: a in rows <==>
                  a in adrs && (Shows(f, query, a.title) || Shows(f, query, a.context) || Shows(f, query, a.decision))
    {
      rows := Ordered(MatchingAdrs(f, query, adrs, ok), AdrTime);
      SameMembers(rows, MatchingAdrs(f, query, adrs, ok));
      if CaseFolding(f) {
        forall a
          ensures a in MatchingAdrs(f, query, adrs, true) <==>
                    a in adrs && (Shows(f, query, a.title) || Shows(f, query, a.context) || Shows(f, query, a.decision))
        {
          AdrsFoundExactly(f, query, adrs, a);
        }
      }
    }

    method CheckDuplicate(f: char -> char, title: string, ok: Answers) returns (duplicate: bool)
      ensures duplicate == IsDuplicate(f, View(), title, ok)
    {
      var found := SearchPDRs(f, title, ok.pdrSearch);
      SameMembers(found, MatchingPdrs(f, title, pdrs, ok.pdrSearch));
      for i := 0 to |found|
        invariant forall j | 0 <= j < i :: !EqualFold(f, found[j].title, title)
      {
        if EqualFold(f, found[i].title, title) {
          assert found[i] in found;
          return true;
        }
      }
      assert !(ok.pdrSearch && exists p | p in pdrs :: PdrMatches(f, title, p) && EqualFold(f, p.title, title));
      duplicate := CheckDecisions(f, title, ok);
    }

    method CheckDecisions(f: char -> char, title: string, ok: Answers) returns (duplicate: bool)
      ensures duplicate ==
              (ok.adrSearch && exists a | a in adrs :: AdrMatches(f, title, a) && EqualFold(f, a.title, title))
    {
      var found := SearchADRs(f, title, ok.adrSearch);
      SameMembers(found, MatchingAdrs(f, title, adrs, ok.adrSearch));
      for i := 0 to |found|
        invariant forall j | 0 <= j < i :: !EqualFold(f, found[j].title, title)
      {
        if EqualFold(f, found[i].title, title) {
          assert found[i] in found;
          return true;
        }
      }
      return false;
    }

    method CreateMemory(f: char -> char, e: Entry, ok: Answers) returns (r: Created)
      requires Valid()
      modifies this
      ensures Valid() && (View(), r) == Create(f, old(View()), e, ok)
    {
      var duplicate := CheckDuplicate(f, e.title, ok);
      if duplicate {
        return Duplicate;
      }
      match e.kind {
        case "pdr" =>
          if ok.insert.None? {
            return InsertFailed;
          }
          pdrs := pdrs + [Pdr(ok.insert.value, e.title, e.content, ok.now)];
        case "adr" =>
          if ok.insert.None? {
            return InsertFailed;
          }
          adrs := adrs + [Adr(ok.insert.value, e.title, e.content, "", "", "", ok.now)];
        case "pref" =>
          if ok.insert.None? {
            return InsertFailed;
          }
          prefs := prefs + [Preference(ok.insert.value, e.data, e.title, e.content, ok.now)];
        case _ => return UnknownType;
      }
      return Stored;
    }

    /** None for an unknown type or a failed query. */
    method ListMemory(kind: string, ok: bool) returns (entries: Option<seq<Listed>>)
      ensures entries.Some? <==> ok && kind in ["pdr", "adr", "pref"]
      ensures entries.Some? ==>
                && multiset(entries.value) == multiset(Rows(View(), kind))
                && multiset(Map(AsShown, entries.value)) == multiset(Map(AsShown, Rows(View(), kind)))
    {
      if !ok || kind !in ["pdr", "adr", "pref"] {
        return None;
      }
      var listed: seq<Listed>;
      match kind {
        case "pdr" =>
          var rows := Ordered(pdrs, PdrTime);
          MapKeepsMultiset(ListedPdr, rows, pdrs);
          listed := Map(ListedPdr, rows);
        case "adr" =>
          var rows := Ordered(adrs, AdrTime);
          MapKeepsMultiset(ListedAdr, rows, adrs);
          listed := Map(ListedAdr, rows);
        case _ =>
          var rows := Ordered(prefs, (p: Preference) => p.createdAt);
          MapKeepsMultiset(ListedPreference, rows, prefs);
          listed := Map(ListedPreference, rows);
      }
      MapKeepsMultiset(AsShown, listed, Rows(View(), kind));
      return Some(listed);
    }

    /** Matching PDRs, then matching ADRs, cut to the limit. */
    method SearchMemory(f: char -> char, query: string, limit: nat, pdrOk: bool, adrOk: bool, recency: int -> real)
      returns (results: seq<SearchResult>)
      ensures Searched(f, View(), query, limit, pdrOk, adrOk, recency, results)
    {
      var found := SearchPDRs(f, query, pdrOk);
      results := CollectPdrs(found, recency);
      var decisions := SearchADRs(f, query, adrOk);
      results := CollectAdrs(results, decisions, recency);
      if |results| > limit {
        results := results[..limit];
      }
      assert FoundAs(f, View(), query, limit, pdrOk, adrOk, recency, results, found, decisions);
    }
  }

  method CollectPdrs(rows: seq<Pdr>, recency: int -> real) returns (results: seq<SearchResult>)
    ensures results == PdrResults(rows, recency)
  {
    results := [];
    for i := 0 to |rows|
      invariant |results| == i && forall j | 0 <= j < i :: results[j] == PdrResult(rows[j], recency)
    {
      results := results + [PdrResult(rows[i], recency)];
    }
  }

  method CollectAdrs(before: seq<SearchResult>, rows: seq<Adr>, recency: int -> real) returns (results: seq<SearchResult>)
    ensures results == before + AdrResults(rows, recency)
  {
    results := before;
    for i := 0 to |rows|
      invariant |results| == |before| + i && before <= results
      invariant forall j | 0 <= j < i :: results[|before| + j] == AdrResult(rows[j], recency)
    {
      results := results + [AdrResult(rows[i], recency)];
    }
  }
}
