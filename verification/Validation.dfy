/** What the source compiler admits, told as grammars: windows, unit names, cgroup paths, and which sources resolve. */
module Validation {
  import opened Wrappers
  import opened Text
  import opened Api
  import opened Sources

  // ----- Windows -----------------------------------------------------------------------------

  /** One count of a window: digits, perhaps a point and more digits, and a unit. */
  datatype Count = Count(whole: string, fraction: Option<string>, unit: string)

  predicate Good(c: Count) {
    && AllDigits(c.whole) && (c.fraction.Some? ==> AllDigits(c.fraction.value))
    && (c.unit == "ms" || c.unit == "s" || c.unit == "m" || c.unit == "h")
  }

  function NumberText(c: Count): string {
    c.whole + (if c.fraction.Some? then "." + c.fraction.value else "")
  }

  function WindowText(counts: seq<Count>): string {
    if counts == [] then "" else NumberText(counts[0]) + (counts[0].unit + WindowText(counts[1..]))
  }

  ghost predicate GoodCounts(counts: seq<Count>) {
    counts != [] && forall i :: 0 <= i < |counts| ==> Good(counts[i])
  }

  /** The text is one or more counts in a row. */
  ghost predicate IsWindow(s: string) {
    exists counts :: GoodCounts(counts) && WindowText(counts) == s
  }

  lemma {:induction false} DigitsOf(digits: string, rest: string)
    requires forall i :: 0 <= i < |digits| ==> IsDigit(digits[i])
    requires rest == "" || !IsDigit(rest[0])
    ensures Digits(digits + rest) == |digits|
  {
    if digits == "" {
      assert digits + rest == rest;
    } else {
      DigitsOf(digits[1..], rest);
      assert (digits + rest)[1..] == digits[1..] + rest;
    }
  }

  lemma {:induction false} DigitsAreDigits(s: string)
    ensures forall i :: 0 <= i < Digits(s) ==> IsDigit(s[i])
    ensures Digits(s) < |s| ==> !IsDigit(s[Digits(s)])
  {
    if s != "" && IsDigit(s[0]) {
      DigitsAreDigits(s[1..]);
      forall i | 0 <= i < Digits(s)
        ensures IsDigit(s[i])
      {
        if i > 0 { assert s[i] == s[1..][i - 1]; }
      }
    }
  }

  predicate IsUnitName(unit: string) {
    unit == "ms" || unit == "s" || unit == "m" || unit == "h"
  }

  /** A unit in front of the end or of the next count. */
  lemma UnitReads(unit: string, rest: string)
    requires IsUnitName(unit) && (rest == "" || IsDigit(rest[0]))
    ensures var tail := unit + rest;
            && UnitLength(tail) == |unit| && |unit| > 0 && tail[|unit|..] == rest && !IsDigit(tail[0])
            && !("." <= tail)
  {
    var tail := unit + rest;
    assert tail[0] == unit[0] && unit[0] in "smh";
    assert tail[|unit|..] == rest;
    if rest != "" {
      assert tail[|unit|] == rest[0];
    }
  }

  lemma ReadsWhole(whole: string, unit: string, rest: string)
    requires AllDigits(whole) && IsUnitName(unit) && (rest == "" || IsDigit(rest[0]))
    ensures ValidWindow(whole + (unit + rest)) <==> rest == "" || ValidWindow(rest)
  {
    hide Digits, UnitLength, IsUnitName;
    var tail := unit + rest;
    UnitReads(unit, rest);
    DigitsOf(whole, tail);
    assert (whole + tail)[|whole|..] == tail;
  }

  lemma ReadsFraction(whole: string, fraction: string, unit: string, rest: string)
    requires AllDigits(whole) && AllDigits(fraction) && IsUnitName(unit) && (rest == "" || IsDigit(rest[0]))
    ensures ValidWindow(whole + ("." + (fraction + (unit + rest)))) <==> rest == "" || ValidWindow(rest)
  {
    hide Digits, UnitLength, IsUnitName;
    var tail := unit + rest;
    var decimals := fraction + tail;
    var point := "." + decimals;
    UnitReads(unit, rest);
    DigitsOf(fraction, tail);
    assert point[1..] == decimals && point[0] == '.' && !IsDigit('.');
    DigitsOf(whole, point);
    assert (whole + point)[|whole|..] == point;
    assert point[1 + |fraction|..] == tail;
  }

  /** What the window check makes of one good count and whatever follows it. */
  lemma ReadsCount(c: Count, rest: string)
    requires Good(c) && (rest == "" || IsDigit(rest[0]))
    ensures ValidWindow(NumberText(c) + (c.unit + rest)) <==> rest == "" || ValidWindow(rest)
  {
    hide ValidWindow, AllDigits;
    if c.fraction.None? {
      ReadsWhole(c.whole, c.unit, rest);
      assert NumberText(c) + (c.unit + rest) == c.whole + (c.unit + rest);
    } else {
      ReadsFraction(c.whole, c.fraction.value, c.unit, rest);
      Regroup(c.whole, c.fraction.value, c.unit + rest);
      assert NumberText(c) == c.whole + ("." + c.fraction.value);
    }
  }

  lemma StartsWithDigit(counts: seq<Count>)
    requires forall i :: 0 <= i < |counts| ==> Good(counts[i])
    ensures WindowText(counts) == "" <==> counts == []
    ensures counts != [] ==> IsDigit(WindowText(counts)[0])
  {
  }

  lemma {:induction false} CountsAreValid(counts: seq<Count>)
    requires GoodCounts(counts)
    ensures ValidWindow(WindowText(counts))
    decreases |counts|
  {
    hide ValidWindow;
    StartsWithDigit(counts[1..]);
    ReadsCount(counts[0], WindowText(counts[1..]));
    if |counts| > 1 {
      CountsAreValid(counts[1..]);
    }
  }

  /** The digits at the front, and the rest. */
  lemma SplitDigits(s: string) returns (digits: string, rest: string)
    ensures digits == s[..Digits(s)] && rest == s[Digits(s)..] && s == digits + rest
    ensures Digits(s) > 0 ==> AllDigits(digits)
  {
    DigitsAreDigits(s);
    digits, rest := s[..Digits(s)], s[Digits(s)..];
  }

  lemma SplitUnit(s: string) returns (unit: string, rest: string)
    requires UnitLength(s) > 0
    ensures unit == s[..UnitLength(s)] && rest == s[UnitLength(s)..] && s == unit + rest && unit != ""
    ensures unit == "ms" || unit == "s" || unit == "m" || unit == "h"
  {
    unit, rest := s[..UnitLength(s)], s[UnitLength(s)..];
    assert "ms" <= s ==> s[..2] == "ms";
    assert s[..1] == [s[0]];
  }

  /** The first count of a valid window, and what is left of it. */
  lemma FirstCount(s: string) returns (c: Count, rest: string)
    requires ValidWindow(s)
    ensures Good(c) && s == NumberText(c) + (c.unit + rest) && (rest == "" || ValidWindow(rest)) && |rest| < |s|
  {
    hide Digits, UnitLength, AllDigits;
    var whole, after := SplitDigits(s);
    if "." <= after {
      var fraction, tail := SplitDigits(after[1..]);
      assert after[1 + Digits(after[1..])..] == tail;
      var unit, left := SplitUnit(tail);
      c, rest := Count(whole, Some(fraction), unit), left;
      assert after == "." + after[1..];
      assert s == whole + ("." + (fraction + (unit + rest)));
      Regroup(whole, fraction, unit + rest);
    } else {
      var unit, left := SplitUnit(after);
      c, rest := Count(whole, None, unit), left;
      assert whole + "" == whole;
    }
  }

  lemma Regroup(a: string, b: string, c: string)
    ensures a + ("." + (b + c)) == a + ("." + b) + c
  {
  }

  lemma {:induction false} ValidIsCounts(s: string) returns (counts: seq<Count>)
    requires ValidWindow(s)
    ensures GoodCounts(counts) && WindowText(counts) == s
    decreases |s|
  {
    hide ValidWindow;
    var c, rest := FirstCount(s);
    if rest == "" {
      counts := [c];
      assert WindowText([]) == "";
    } else {
      var more := ValidIsCounts(rest);
      counts := [c] + more;
      assert counts[1..] == more;
    }
  }

  /** The window check accepts exactly the texts of the grammar. */
  lemma WindowGrammar(s: string)
    ensures ValidWindow(s) <==> IsWindow(s)
  {
    hide ValidWindow, WindowText;
    if ValidWindow(s) {
      var counts := ValidIsCounts(s);
    }
    if IsWindow(s) {
      var counts :| GoodCounts(counts) && WindowText(counts) == s;
      CountsAreValid(counts);
    }
  }

  // ----- Units and paths -----------------------------------------------------------------------

  predicate LetterOrDigit(c: char) {
    'a' <= c <= 'z' || 'A' <= c <= 'Z' || '0' <= c <= '9'
  }

  /** A stem of letters, digits, `_`, `.`, `:` and `-`, and then `.service` or `.scope`. */
  ghost predicate IsUnit(s: string) {
    exists stem: string ::
      && (s == stem + ".service" || s == stem + ".scope")
      && stem != "" && StemChars(stem)
  }

  /** A slash, then letters, digits, `_ . : @ - / *`, at least one of them, and no two slashes in a row. */
  predicate IsPath(s: string) {
    && |s| >= 2 && s[0] == '/'
    && (forall i :: 1 <= i < |s| ==> LetterOrDigit(s[i]) || s[i] in {'_', '.', ':', '@', '-', '/', '*'})
    && forall i :: 1 <= i < |s| ==> !(s[i - 1] == '/' && s[i] == '/')
  }

  lemma CharClasses(c: char)
    ensures UnitChar(c) <==> LetterOrDigit(c) || c in {'_', '.', ':', '-'}
    ensures PathChar(c) <==> LetterOrDigit(c) || c in {'_', '.', ':', '@', '-', '/', '*'}
  {
    assert "_.:-" == ['_', '.', ':', '-'] && "_.:@-/*" == ['_', '.', ':', '@', '-', '/', '*'];
  }

  lemma SuffixSplits(s: string, suffix: string)
    ensures HasSuffix(s, suffix) ==> s == s[..|s| - |suffix|] + suffix
    ensures forall stem: string :: s == stem + suffix ==> HasSuffix(s, suffix) && stem == s[..|s| - |suffix|]
  {
    forall stem: string | s == stem + suffix
      ensures HasSuffix(s, suffix) && stem == s[..|s| - |suffix|]
    {
      assert s[|stem|..] == suffix && s[..|stem|] == stem;
    }
  }

  predicate StemChars(stem: string) {
    forall i :: 0 <= i < |stem| ==> LetterOrDigit(stem[i]) || stem[i] in {'_', '.', ':', '-'}
  }

  predicate UnitChars(s: string) {
    forall i :: 0 <= i < |s| ==> UnitChar(s[i])
  }

  lemma StemIsUnitChars(stem: string, suffix: string)
    requires UnitChars(suffix)
    ensures UnitChars(stem + suffix) <==> StemChars(stem)
  {
    forall c: char
      ensures UnitChar(c) <==> LetterOrDigit(c) || c in {'_', '.', ':', '-'}
    {
      CharClasses(c);
    }
    hide UnitChar, LetterOrDigit;
    forall i | 0 <= i < |stem|
      ensures (stem + suffix)[i] == stem[i]
    {
    }
    forall i | |stem| <= i < |stem + suffix|
      ensures (stem + suffix)[i] == suffix[i - |stem|]
    {
    }
  }

  /** One of the two suffixes on a stem. */
  lemma SuffixedUnit(s: string, suffix: string)
    requires UnitChars(suffix)
    ensures UnitChars(s) && HasSuffix(s, suffix) && |s| > |suffix|
            <==> exists stem: string :: s == stem + suffix && stem != "" && StemChars(stem)
  {
    hide UnitChars, StemChars;
    SuffixSplits(s, suffix);
    if HasSuffix(s, suffix) {
      StemIsUnitChars(s[..|s| - |suffix|], suffix);
    }
  }

  lemma UnitGrammar(s: string)
    ensures ValidUnit(s) <==> IsUnit(s)
  {
    hide UnitChar, HasSuffix;
    ServiceChars();
    SuffixedUnit(s, ".service");
    SuffixedUnit(s, ".scope");
    assert ValidUnit(s) <==> UnitChars(s) && ((HasSuffix(s, ".service") && |s| > |".service"|)
                                              || (HasSuffix(s, ".scope") && |s| > |".scope"|));
    hide UnitChars, StemChars, ValidUnit;
  }

  lemma ServiceChars()
    ensures UnitChars(".service") && UnitChars(".scope")
  {
    CharClasses('.');
  }

  lemma {:induction false} ContainsPair(s: string, c: char)
    ensures Contains(s, [c, c]) <==> exists i :: 1 <= i < |s| && s[i - 1] == c && s[i] == c
  {
    if s != "" {
      ContainsPair(s[1..], c);
      assert [c, c] <= s <==> |s| >= 2 && s[0] == c && s[1] == c by {
        if |s| >= 2 && s[0] == c && s[1] == c { assert s[..2] == [c, c]; }
      }
      if i: int :| 1 <= i < |s| && s[i - 1] == c && s[i] == c && i > 1 {
        assert s[1..][i - 2] == c && s[1..][i - 1] == c;
      }
      if i: int :| 1 <= i < |s[1..]| && s[1..][i - 1] == c && s[1..][i] == c {
        assert s[i] == c && s[i + 1] == c;
      }
    }
  }

  lemma PathGrammar(s: string)
    ensures ValidPath(s) <==> IsPath(s)
  {
    ContainsPair(s, '/');
    assert "//" == ['/', '/'];
    forall c: char
      ensures PathChar(c) <==> LetterOrDigit(c) || c in {'_', '.', ':', '@', '-', '/', '*'}
    {
      CharClasses(c);
    }
    hide PathChar, LetterOrDigit, Contains;
  }

  // ----- Which sources resolve -------------------------------------------------------------------

  /**
   * A source resolves exactly when the block of its type is there and its window, its unit or path, and its target are
   * what the grammars ask for; a raw PromQL source needs nothing more than its block.
   */
  lemma ResolvesIff(spec: Spec)
    ensures var s, window := spec.source, spec.metrics.window;
            Resolve(spec).Ok?
            <==> match s.kind
                 case Docker => s.docker.Some? && IsWindow(window) && s.docker.value.cadvisorInstance != ""
                 case PromQL => s.promql.Some?
                 case Cgroup => s.cgroup.Some? && IsPath(s.cgroup.value.path) && IsWindow(window)
                                && s.cgroup.value.cadvisorInstance != ""
                 case Systemd => s.systemd.Some? && IsUnit(s.systemd.value.unit) && IsWindow(window)
                                 && s.systemd.value.cadvisorInstance != ""
                 case Unsupported(_) => false
  {
    hide ValidWindow, ValidPath, ValidUnit, IsWindow, IsPath, IsUnit, HostQueries, IdMatcher, Contains;
    WindowGrammar(spec.metrics.window);
    if spec.source.cgroup.Some? { PathGrammar(spec.source.cgroup.value.path); }
    if spec.source.systemd.Some? { UnitGrammar(spec.source.systemd.value.unit); }
  }

  /** What is wrong with a source that does not resolve: block, type, unit or path, window, target. */
  lemma RejectedFor(spec: Spec)
    ensures var s, window, error := spec.source, spec.metrics.window, Resolve(spec);
            match s.kind
            case Docker => s.docker.Some? && error.Err? ==>
                             error.error == if !IsWindow(window) then InvalidWindow else MissingInstance
            case PromQL => error.Err? ==> error.error == MissingBlock
            case Cgroup => s.cgroup.Some? && error.Err? ==>
                             error.error == if !IsPath(s.cgroup.value.path) then InvalidPath
                                            else if !IsWindow(window) then InvalidWindow else MissingInstance
            case Systemd => s.systemd.Some? && error.Err? ==>
                              error.error == if !IsUnit(s.systemd.value.unit) then InvalidUnit
                                             else if !IsWindow(window) then InvalidWindow else MissingInstance
            case Unsupported(_) => error == Err(UnsupportedType)
    ensures var s := spec.source;
            && (s.kind == Docker && s.docker.None? ==> Resolve(spec) == Err(MissingBlock))
            && (s.kind == Cgroup && s.cgroup.None? ==> Resolve(spec) == Err(MissingBlock))
            && (s.kind == Systemd && s.systemd.None? ==> Resolve(spec) == Err(MissingBlock))
  {
    hide ValidWindow, ValidPath, ValidUnit, IsWindow, IsPath, IsUnit, HostQueries, IdMatcher, Contains;
    WindowGrammar(spec.metrics.window);
    if spec.source.cgroup.Some? { PathGrammar(spec.source.cgroup.value.path); }
    if spec.source.systemd.Some? { UnitGrammar(spec.source.systemd.value.unit); }
  }
}
