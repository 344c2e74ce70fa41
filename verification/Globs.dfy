/** Glob paths keep their meaning through quoting, substitution, anchoring and regular-expression matching. */
module Globs {
  import opened Wrappers
  import opened Text
  import opened Sources
  import opened PromQL

  // ----- The substitution touches exactly the images of `*` ---------------------------

  /** The pattern a reader would write: one character of the path at a time. */
  function Pattern(path: string): string {
    if path == [] then []
    else
      (if path[0] == '*' then "[^/]*" else if RegexMeta(path[0]) then ['\\', path[0]] else [path[0]])
      + Pattern(path[1..])
  }

  lemma QuoteNeverStartsWithStar(s: string)
    ensures QuoteMeta(s) != [] ==> QuoteMeta(s)[0] != '*'
  {
    assert '*' in "\\.+*?()|[]{}^$";
  }

  /** A character other than a backslash in front of `q`, or a backslash not followed by `*`, is copied. */
  lemma CopiedAhead(c: char, q: string)
    requires c == '\\' ==> q == [] || q[0] != '*'
    ensures ReplaceAll([c] + q, "\\*", "[^/]*") == [c] + ReplaceAll(q, "\\*", "[^/]*")
  {
    var s := [c] + q;
    assert s[1..] == q;
    if |q| > 0 {
      assert "\\*"[0] == '\\' && "\\*"[1] == '*';
      assert s[0] == c && s[1] == q[0];
      assert !("\\*" <= s);
    }
  }

  lemma SubstituteStar(q: string)
    ensures ReplaceAll("\\*" + q, "\\*", "[^/]*") == "[^/]*" + ReplaceAll(q, "\\*", "[^/]*")
  {
    assert ("\\*" + q)[2..] == q;
  }

  lemma MarksAreMeta()
    ensures RegexMeta('*') && RegexMeta('\\')
  {
    assert '*' in "\\.+*?()|[]{}^$" && '\\' in "\\.+*?()|[]{}^$";
  }

  /** The substitution on the quoted image of one character and the rest of a quoted text. */
  lemma SubstituteStep(c: char, q: string)
    requires q == [] || q[0] != '*'
    ensures ReplaceAll((if RegexMeta(c) then ['\\', c] else [c]) + q, "\\*", "[^/]*")
            == (if c == '*' then "[^/]*" else if RegexMeta(c) then ['\\', c] else [c]) + ReplaceAll(q, "\\*", "[^/]*")
  {
    hide ReplaceAll, RegexMeta;
    MarksAreMeta();
    if c == '*' {
      SubstituteStar(q);
      assert ['\\', c] == "\\*";
    } else if RegexMeta(c) {
      assert ['\\', c] + q == ['\\'] + ([c] + q);
      CopiedAhead(c, q);
      CopiedAhead('\\', [c] + q);
      assert ['\\'] + ([c] + ReplaceAll(q, "\\*", "[^/]*")) == ['\\', c] + ReplaceAll(q, "\\*", "[^/]*");
    } else {
      CopiedAhead(c, q);
    }
  }

  lemma {:induction false} SubstitutionHitsOnlyStars(path: string)
    ensures ReplaceAll(QuoteMeta(path), "\\*", "[^/]*") == Pattern(path)
  {
    hide RegexMeta;
    if path != [] {
      SubstitutionHitsOnlyStars(path[1..]);
      QuoteNeverStartsWithStar(path[1..]);
      SubstituteStep(path[0], QuoteMeta(path[1..]));
    }
  }

  // ----- The pattern parses to one item per character ---------------------------------

  function Items(path: string): seq<Item> {
    if path == [] then []
    else [if path[0] == '*' then Item(NotSlash, true) else Item(Lit(path[0]), false)] + Items(path[1..])
  }

  lemma PatternNeverStartsWithStar(path: string)
    ensures Pattern(path) != [] ==> Pattern(path)[0] != '*'
  {
  }

  /** An unstarred atom in front of a text that does not open with `*`. */
  lemma ParseUnstarred(p: string, atom: Atom, rest: string)
    requires p != [] && ParseAtom(p) == Some((atom, rest))
    requires rest == [] || rest[0] != '*'
    ensures ParseRegex(p) == match ParseRegex(rest)
                             case None => None
                             case Some(items) => Some([Item(atom, false)] + items)
  {
    assert !("*" <= rest);
  }

  lemma ParseLiteral(c: char, rest: string)
    requires c != '*' && (rest == [] || rest[0] != '*')
    ensures var image := if RegexMeta(c) then ['\\', c] else [c];
            ParseRegex(image + rest) == match ParseRegex(rest)
                                        case None => None
                                        case Some(items) => Some([Item(Lit(c), false)] + items)
  {
    var image := if RegexMeta(c) then ['\\', c] else [c];
    var p := image + rest;
    assert p[|image|..] == rest;
    if RegexMeta(c) {
      assert p[0] == '\\' && p[1] == c;
    } else {
      assert forall m :: m in "\\[.^$" ==> RegexMeta(m);
      assert p[0] == c && c !in "\\[.^$";
      assert !("[^/]" <= p);
    }
    ParseUnstarred(p, Lit(c), rest);
  }

  lemma ParseStar(rest: string)
    ensures ParseRegex("[^/]*" + rest) == match ParseRegex(rest)
                                          case None => None
                                          case Some(items) => Some([Item(NotSlash, true)] + items)
  {
    var p := "[^/]*" + rest;
    assert p[..4] == "[^/]";
    assert p[4..] == "*" + rest;
    assert p[4..][1..] == rest;
    assert p[0] == '[';
    assert ParseAtom(p) == Some((NotSlash, p[4..]));
  }

  lemma {:induction false} PatternParses(path: string)
    ensures ParseRegex(Pattern(path) + "$") == Some(Items(path) + [Item(End, false)])
  {
    if path == [] {
      assert Pattern(path) + "$" == "$";
      assert !("[^/]" <= "$");
      assert "$"[1..] == [];
      ParseUnstarred("$", End, []);
      assert [Item(End, false)] + [] == Items(path) + [Item(End, false)];
    } else {
      PatternParses(path[1..]);
      PatternNeverStartsWithStar(path[1..]);
      var rest := Pattern(path[1..]) + "$";
      var items := Items(path[1..]) + [Item(End, false)];
      if path[0] == '*' {
        assert Pattern(path) + "$" == "[^/]*" + rest;
        ParseStar(rest);
        assert [Item(NotSlash, true)] + items == Items(path) + [Item(End, false)];
      } else {
        assert Pattern(path) + "$" == (if RegexMeta(path[0]) then ['\\', path[0]] else [path[0]]) + rest;
        ParseLiteral(path[0], rest);
        assert [Item(Lit(path[0]), false)] + items == Items(path) + [Item(End, false)];
      }
    }
  }

  // ----- The items match what the glob matches ----------------------------------------

  /** A starred `[^/]` consumes some run without a slash and leaves the rest to the rest. */
  lemma {:induction false} StarIsSomeRun(items: seq<Item>, t: string, i: nat)
    requires i <= |t|
    requires items != [] && items[0] == Item(NotSlash, true)
    ensures MatchFrom(items, t, i)
            <==> exists k :: i <= k <= |t| && '/' !in t[i..k] && MatchFrom(items[1..], t, k)
    decreases |t| - i
  {
    if i < |t| {
      StarIsSomeRun(items, t, i + 1);
    }
    if MatchFrom(items, t, i) {
      if MatchFrom(items[1..], t, i) {
        assert t[i..i] == [];
      } else {
        var k :| i + 1 <= k <= |t| && '/' !in t[i + 1..k] && MatchFrom(items[1..], t, k);
        assert t[i..k] == [t[i]] + t[i + 1..k];
      }
    }
    if k :| i <= k <= |t| && '/' !in t[i..k] && MatchFrom(items[1..], t, k) {
      if k > i {
        assert t[i..k] == [t[i]] + t[i + 1..k];
        assert t[i] in t[i..k];
      }
    }
  }

  lemma {:induction false} ItemsMatchGlob(path: string, t: string, i: nat)
    requires i <= |t|
    ensures MatchFrom(Items(path) + [Item(End, false)], t, i) <==> GlobMatch(path, t[i..])
    decreases |path|
  {
    var items := Items(path) + [Item(End, false)];
    if path == [] {
      assert items == [Item(End, false)] && items[1..] == [];
    } else {
      assert items[1..] == Items(path[1..]) + [Item(End, false)];
      if path[0] == '*' {
        StarIsSomeRun(items, t, i);
        forall k | i <= k <= |t|
          ensures MatchFrom(items[1..], t, k) <==> GlobMatch(path[1..], t[i..][k - i..])
          ensures t[i..k] == t[i..][..k - i]
        {
          ItemsMatchGlob(path[1..], t, k);
          assert t[i..][k - i..] == t[k..];
        }
        if GlobMatch(path, t[i..]) {
          var n :| 0 <= n <= |t[i..]| && '/' !in t[i..][..n] && GlobMatch(path[1..], t[i..][n..]);
          assert t[i..][(i + n) - i..] == t[i..][n..];
          assert t[i..i + n] == t[i..][..n];
          assert MatchFrom(items[1..], t, i + n);
        }
        if k :| i <= k <= |t| && '/' !in t[i..k] && MatchFrom(items[1..], t, k) {
          assert t[i..k] == t[i..][..k - i];
          assert GlobMatch(path[1..], t[i..][k - i..]);
        }
      } else if i < |t| {
        ItemsMatchGlob(path[1..], t, i + 1);
        assert t[i..][1..] == t[i + 1..];
      }
    }
  }

  /** For every path and every id, the generated expression accepts the id exactly when the glob matches it. */
  lemma GlobPatternMeaning(path: string, id: string)
    ensures RegexAccepts(GlobPattern(path), id) <==> GlobMatch(path, id)
  {
    SubstitutionHitsOnlyStars(path);
    PatternParses(path);
    PatternNeverStartsWithStar(path);
    var rest := Pattern(path) + "$";
    var p := "^" + rest;
    assert GlobPattern(path) == p;
    assert p[1..] == rest && p[0] == '^';
    assert !("[^/]" <= p);
    ParseUnstarred(p, Begin, rest);
    var tail := Items(path) + [Item(End, false)];
    var items := [Item(Begin, false)] + tail;
    assert items[1..] == tail;
    ItemsMatchGlob(path, id, 0);
    assert id[0..] == id;
  }

  /** A glob never crosses a path segment: what it matches has exactly the path's slashes. */
  lemma {:induction false} GlobKeepsSlashes(path: string, id: string)
    requires GlobMatch(path, id)
    ensures CountChar(id, '/') == CountChar(path, '/')
    decreases |path|
  {
    if path != [] {
      if path[0] == '*' {
        var k :| 0 <= k <= |id| && '/' !in id[..k] && GlobMatch(path[1..], id[k..]);
        GlobKeepsSlashes(path[1..], id[k..]);
        CountCharConcat(id[..k], id[k..], '/');
        CountCharAbsent(id[..k], '/');
        assert id[..k] + id[k..] == id;
      } else {
        GlobKeepsSlashes(path[1..], id[1..]);
      }
    }
  }

  /** Without a star the glob is the id itself, which is why such paths compile to an equality matcher. */
  lemma {:induction false} StarlessGlobIsEquality(path: string, id: string)
    requires '*' !in path
    ensures GlobMatch(path, id) <==> id == path
    decreases |path|
  {
    if path != [] && id != [] {
      StarlessGlobIsEquality(path[1..], id[1..]);
      assert path == [path[0]] + path[1..] && id == [id[0]] + id[1..];
    }
  }

  // ----- The docker pattern -----------------------------------------------------------

  predicate Plain(run: string) {
    forall i :: 0 <= i < |run| ==> !RegexMeta(run[i])
  }

  lemma {:induction false} PlainRunParses(run: string, rest: string, items: seq<Item>)
    requires Plain(run) && (rest == [] || rest[0] != '*')
    requires ParseRegex(rest) == Some(items)
    ensures ParseRegex(run + rest) == Some(Items(run) + items)
  {
    hide ParseRegex, RegexMeta, Plain;
    if run == [] {
      assert run + rest == rest;
      assert Items(run) + items == items;
    } else {
      var tail := run[1..] + rest;
      PlainHead(run, rest);
      PlainRunParses(run[1..], rest, items);
      hide Items;
      ParseLiteral(run[0], tail);
      assert run + rest == [run[0]] + tail;
      assert Items(run) + items == [Item(Lit(run[0]), false)] + (Items(run[1..]) + items);
    }
  }

  /** A plain run opens with a literal, and what follows it is plain and opens with no star. */
  lemma PlainHead(run: string, rest: string)
    requires Plain(run) && run != [] && (rest == [] || rest[0] != '*')
    ensures Plain(run[1..]) && !RegexMeta(run[0]) && run[0] != '*'
    ensures run[1..] + rest == [] || (run[1..] + rest)[0] != '*'
    ensures Items(run) == [Item(Lit(run[0]), false)] + Items(run[1..])
  {
    hide RegexMeta;
    MarksAreMeta();
    assert forall i :: 0 <= i < |run[1..]| ==> run[1..][i] == run[i + 1];
  }

  /** `run` stands in `t` at position `i`. */
  predicate At(t: string, i: nat, run: string) {
    i + |run| <= |t| && t[i..i + |run|] == run
  }

  lemma {:induction false} PlainRunMatches(run: string, items: seq<Item>, t: string, i: nat)
    requires '*' !in run && i <= |t|
    ensures MatchFrom(Items(run) + items, t, i)
            <==> At(t, i, run) && MatchFrom(items, t, i + |run|)
    decreases |run|
  {
    var all := Items(run) + items;
    if run == [] {
      assert all == items;
    } else {
      assert all[1..] == Items(run[1..]) + items;
      if i < |t| {
        PlainRunMatches(run[1..], items, t, i + 1);
        if i + |run| <= |t| {
          assert t[i..i + |run|] == [t[i]] + t[i + 1..i + |run|];
          assert run == [run[0]] + run[1..];
        }
      }
    }
  }

  lemma {:induction false} AnyStarMatchesAll(t: string, i: nat)
    requires i <= |t|
    ensures MatchFrom([Item(Any, true)], t, i)
    decreases |t| - i
  {
    if i < |t| {
      AnyStarMatchesAll(t, i + 1);
    }
  }

  /** `.` in front of text that does not open with a star. */
  lemma DotParses(rest: string, items: seq<Item>)
    requires ParseRegex(rest) == Some(items) && (rest == [] || rest[0] != '*')
    ensures ParseRegex("." + rest) == Some([Item(Any, false)] + items)
  {
    var p := "." + rest;
    assert p[1..] == rest && p[0] == '.';
    assert !("[^/]" <= p);
    ParseUnstarred(p, Any, rest);
  }

  lemma DotStarParses()
    ensures ParseRegex(".*") == Some([Item(Any, true)])
  {
    var p := ".*";
    assert p[1..] == "*" && p[1..][1..] == [];
    assert !("[^/]" <= p);
    assert "*" <= p[1..];
    assert ParseAtom(p) == Some((Any, p[1..]));
    assert ParseRegex(p[1..][1..]) == Some([]);
    assert [Item(Any, true)] + [] == [Item(Any, true)];
  }

  lemma FreeDotParses(a: string, b: string)
    requires Plain(a) && Plain(b) && b != []
    ensures ParseRegex(a + ("." + (b + ".*")))
            == Some(Items(a) + ([Item(Any, false)] + (Items(b) + [Item(Any, true)])))
  {
    assert RegexMeta('*') by { assert '*' in "\\.+*?()|[]{}^$"; }
    DotStarParses();
    PlainRunParses(b, ".*", [Item(Any, true)]);
    DotParses(b + ".*", Items(b) + [Item(Any, true)]);
    PlainRunParses(a, "." + (b + ".*"), [Item(Any, false)] + (Items(b) + [Item(Any, true)]));
  }

  lemma AnyMatchesOne(items: seq<Item>, t: string, i: nat)
    requires i <= |t|
    ensures MatchFrom([Item(Any, false)] + items, t, i) <==> i < |t| && MatchFrom(items, t, i + 1)
  {
    assert ([Item(Any, false)] + items)[1..] == items;
  }

  /** A plain run, one free character, another plain run, and then anything. */
  lemma FreeDotMatches(a: string, b: string, id: string)
    requires '*' !in a && '*' !in b
    ensures MatchFrom(Items(a) + ([Item(Any, false)] + (Items(b) + [Item(Any, true)])), id, 0)
            <==> At(id, 0, a) && At(id, |a| + 1, b)
  {
    var last := [Item(Any, true)];
    var mid := Items(b) + last;
    PlainRunMatches(a, [Item(Any, false)] + mid, id, 0);
    if |a| <= |id| {
      AnyMatchesOne(mid, id, |a|);
    }
    if |a| < |id| {
      PlainRunMatches(b, last, id, |a| + 1);
      if |a| + 1 + |b| <= |id| {
        AnyStarMatchesAll(id, |a| + 1 + |b|);
      }
    }
  }

  lemma PlainParts()
    ensures Plain("/system") && Plain("slice/docker-")
  {
  }

  lemma DockerPatternSplits()
    ensures DOCKER_ID_PATTERN == "/system" + ("." + ("slice/docker-" + ".*"))
  {
  }

  lemma DockerPatternParses()
    ensures ParseRegex(DOCKER_ID_PATTERN)
            == Some(Items("/system") + ([Item(Any, false)] + (Items("slice/docker-") + [Item(Any, true)])))
  {
    hide ParseRegex, Items, Plain, DOCKER_ID_PATTERN;
    PlainParts();
    DockerPatternSplits();
    FreeDotParses("/system", "slice/docker-");
  }

  /**
   * What the docker selector really picks.  Its first dot is not escaped, so the eighth character is
   * free: every id under `/system.slice/docker-` is picked, and so is one under `/systemXslice/docker-`.
   */
  lemma DockerPatternMeaning(id: string)
    ensures RegexAccepts(DOCKER_ID_PATTERN, id)
            <==> |id| >= 21 && id[..7] == "/system" && id[8..21] == "slice/docker-"
  {
    hide ParseRegex, MatchFrom, Items, DOCKER_ID_PATTERN;
    DockerPatternParses();
    FreeDotMatches("/system", "slice/docker-", id);
  }
}
