/** The compiled query text means what the declared source says. */
module Compiler {
  import opened Wrappers
  import opened Text
  import opened Api
  import opened Sources
  import PromQL
  import Escaping
  import Globs

  // ----- Reading the emitted pieces back ---------------------------------------------

  lemma {:induction false} IdentReadsBack(name: string, rest: string)
    requires forall i :: 0 <= i < |name| ==> PromQL.IdentChar(name[i])
    requires rest == [] || !PromQL.IdentChar(rest[0])
    ensures PromQL.LexIdent(name + rest) == (name, rest)
  {
    if name == [] {
      assert name + rest == rest;
    } else {
      IdentReadsBack(name[1..], rest);
      assert (name + rest)[1..] == name[1..] + rest;
      assert name == [name[0]] + name[1..];
    }
  }

  function OpText(op: PromQL.Op): string {
    if op.Equal? then "=" else "=~"
  }

  /** An emitted matcher reads back in front of any text, unless its value is unquotable. */
  lemma MatcherReadsBack(name: string, op: PromQL.Op, value: string, rest: string)
    requires PromQL.Ident(name)
    ensures PromQL.ParseMatcher(name + (OpText(op) + (PromLabel(value) + rest)))
            == if PromQL.Quotable(value) then Some((PromQL.Matcher(name, op, value), rest)) else None
  {
    var literal := PromLabel(value) + rest;
    var tail := OpText(op) + literal;
    assert literal[0] == '"';
    assert tail[0] == '=' && !PromQL.IdentChar('=');
    IdentReadsBack(name, tail);
    Escaping.LabelRoundTrip(value, rest);
    if op.Equal? {
      assert tail[1] == '"' && "=~"[1] == '~';
      assert !("=~" <= tail);
      assert "=" <= tail && tail[1..] == literal;
    } else {
      assert "=~" <= tail && tail[2..] == literal;
    }
  }

  // ----- Matchers, selectors, windows ------------------------------------------------

  /** `text` is one matcher, in front of any text. */
  ghost predicate Emits(text: string, m: PromQL.Matcher) {
    forall rest: string :: PromQL.ParseMatcher(text + rest) == Some((m, rest))
  }

  function Matchers(job: string, inst: string, id: PromQL.Matcher): seq<PromQL.Matcher> {
    [PromQL.Matcher("job", PromQL.Equal, job), PromQL.Matcher("instance", PromQL.Equal, inst), id]
  }

  predicate Readable(job: string, inst: string) {
    PromQL.Quotable(job) && PromQL.Quotable(inst)
  }

  lemma LastMatcher(text: string, m: PromQL.Matcher, rest: string)
    requires Emits(text, m)
    ensures PromQL.ParseMatchers(text + ("}" + rest)) == Some(([m], rest))
  {
    assert ("}" + rest)[1..] == rest;
  }

  /** A matcher followed by a comma hands over to the matchers behind it. */
  lemma NextMatcher(name: string, value: string, more: string)
    requires PromQL.Ident(name)
    ensures PromQL.ParseMatchers(name + ("=" + (PromLabel(value) + ("," + more))))
            == if !PromQL.Quotable(value) then None
               else match PromQL.ParseMatchers(more)
                    case None => None
                    case Some((ms, rest)) => Some(([PromQL.Matcher(name, PromQL.Equal, value)] + ms, rest))
  {
    MatcherReadsBack(name, PromQL.Equal, value, "," + more);
    assert ("," + more)[1..] == more;
    assert !("}" <= "," + more) by { assert ("," + more)[0] == ',' && "}"[0] == '}'; }
  }

  lemma IdentsAreIdents()
    ensures PromQL.Ident("job") && PromQL.Ident("instance") && PromQL.Ident("id") && PromQL.Ident("up")
    ensures PromQL.Ident("rate") && PromQL.Ident("avg_over_time")
    ensures PromQL.Ident("container_cpu_usage_seconds_total")
    ensures PromQL.Ident("container_memory_working_set_bytes")
  {
  }

  lemma PairOfMatchersText(job: string, inst: string, more: string)
    ensures LabelMatchers(job, inst) + ("," + more)
            == "job" + ("=" + (PromLabel(job)
                               + ("," + ("instance" + ("=" + (PromLabel(inst) + ("," + more)))))))
  {
    hide PromLabel;
  }

  lemma PairOfMatchersReadsBack(job: string, inst: string, more: string)
    ensures PromQL.ParseMatchers(LabelMatchers(job, inst) + ("," + more))
            == if !Readable(job, inst) then None
               else match PromQL.ParseMatchers(more)
                    case None => None
                    case Some((ms, rest)) =>
                      Some(([PromQL.Matcher("job", PromQL.Equal, job)]
                                   + ([PromQL.Matcher("instance", PromQL.Equal, inst)] + ms), rest))
  {
    hide LabelMatchers, PromLabel, PromQL.ParseMatchers;
    IdentsAreIdents();
    PairOfMatchersText(job, inst, more);
    NextMatcher("instance", inst, more);
    NextMatcher("job", job, "instance" + ("=" + (PromLabel(inst) + ("," + more))));
  }

  /** A selector: metric, braces, the two target labels, the id matcher. */
  lemma SelectorReadsBack(metric: string, job: string, inst: string, idText: string, id: PromQL.Matcher, rest: string)
    requires PromQL.Ident(metric) && Emits(idText, id)
    ensures PromQL.ParseSelector(metric + ("{" + (LabelMatchers(job, inst) + ("," + (idText + ("}" + rest))))))
            == if Readable(job, inst) then Some((PromQL.Selector(metric, Matchers(job, inst, id)), rest))
               else None
  {
    var more := idText + ("}" + rest);
    var body := LabelMatchers(job, inst) + ("," + more);
    LastMatcher(idText, id, rest);
    PairOfMatchersReadsBack(job, inst, more);
    assert ("{" + body)[1..] == body && ("{" + body)[0] == '{';
    IdentReadsBack(metric, "{" + body);
    if Readable(job, inst) {
      assert [PromQL.Matcher("job", PromQL.Equal, job)] + ([PromQL.Matcher("instance", PromQL.Equal, inst)] + [id])
             == Matchers(job, inst, id);
    }
  }

  predicate WindowChar(c: char) {
    IsDigit(c) || c in ".msh"
  }

  lemma {:induction false} DigitsAreWindowChars(s: string)
    ensures forall i :: 0 <= i < Digits(s) ==> WindowChar(s[i])
  {
    if s != [] && IsDigit(s[0]) {
      DigitsAreWindowChars(s[1..]);
      forall i | 0 <= i < Digits(s)
        ensures WindowChar(s[i])
      {
        if i > 0 { assert s[i] == s[1..][i - 1]; }
      }
    }
  }

  predicate WindowChars(s: string) {
    forall i :: 0 <= i < |s| ==> WindowChar(s[i])
  }

  lemma WindowCharsConcat(a: string, b: string)
    requires WindowChars(a) && WindowChars(b)
    ensures WindowChars(a + b)
  {
  }

  lemma DigitsPrefix(s: string)
    ensures WindowChars(s[..Digits(s)])
  {
    DigitsAreWindowChars(s);
  }

  lemma UnitPrefix(s: string)
    ensures WindowChars(s[..UnitLength(s)])
  {
    if "ms" <= s {
      assert s[..2] == "ms";
    }
  }

  /** The length of the number in front of a window's unit. */
  function NumberLength(s: string): (n: nat)
    ensures n <= |s|
  {
    var rest := s[Digits(s)..];
    Digits(s) + (if "." <= rest then 1 + Digits(rest[1..]) else 0)
  }

  lemma NumberPrefix(s: string)
    ensures WindowChars(s[..NumberLength(s)])
  {
    hide WindowChars, Digits;
    var whole := Digits(s);
    var rest := s[whole..];
    DigitsPrefix(s);
    if "." <= rest {
      var n := Digits(rest[1..]);
      DigitsPrefix(rest[1..]);
      Dot();
      WindowCharsConcat(".", rest[1..][..n]);
      WindowCharsConcat(s[..whole], "." + rest[1..][..n]);
      DotSplits(rest, n);
      assert s[..whole + 1 + n] == s[..whole] + ("." + rest[1..][..n]);
    }
  }

  lemma WindowStep(s: string)
    requires ValidWindow(s)
    ensures var tail := s[NumberLength(s)..];
            NumberLength(s) > 0 && (tail[UnitLength(tail)..] == [] || ValidWindow(tail[UnitLength(tail)..]))
  {
    hide Digits, UnitLength;
    var rest := s[Digits(s)..];
    if "." <= rest {
      assert s[NumberLength(s)..] == rest[1 + Digits(rest[1..])..];
    }
  }

  lemma {:induction false} ValidWindowChars(s: string)
    requires ValidWindow(s)
    ensures WindowChars(s)
    decreases |s|
  {
    hide WindowChars, NumberLength, UnitLength, ValidWindow;
    WindowStep(s);
    NumberPrefix(s);
    var tail := s[NumberLength(s)..];
    var unit := UnitLength(tail);
    UnitPrefix(tail);
    if tail[unit..] == [] {
      NoChars();
    } else {
      ValidWindowChars(tail[unit..]);
    }
    WindowCharsConcat(tail[..unit], tail[unit..]);
    assert tail[..unit] + tail[unit..] == tail;
    WindowCharsConcat(s[..NumberLength(s)], tail);
    assert s[..NumberLength(s)] + tail == s;
  }

  lemma DotSplits(s: string, n: nat)
    requires "." <= s && n < |s|
    ensures "." + s[1..][..n] + s[1 + n..] == s
  {
    assert s[0] == '.';
    assert s[1..] == s[1..][..n] + s[1 + n..];
  }

  lemma NoChars()
    ensures WindowChars("")
  {
  }

  lemma Dot()
    ensures WindowChars(".")
  {
  }

  lemma {:induction false} WindowReadsBack(w: string, rest: string)
    requires ']' !in w
    ensures PromQL.LexWindow(w + ("]" + rest)) == Some((w, rest))
  {
    if w == [] {
      assert (w + ("]" + rest))[1..] == rest;
    } else {
      WindowReadsBack(w[1..], rest);
      assert (w + ("]" + rest))[1..] == w[1..] + ("]" + rest);
      assert w == [w[0]] + w[1..];
    }
  }

  // ----- Whole queries ---------------------------------------------------------------

  function SelectorText(metric: string, job: string, inst: string, idText: string, rest: string): string {
    metric + ("{" + (LabelMatchers(job, inst) + ("," + (idText + ("}" + rest)))))
  }

  lemma SumTextIs(fn: string, metric: string, job: string, inst: string, idText: string, window: string)
    ensures SumQuery(fn, metric, "{" + LabelMatchers(job, inst) + "," + idText + "}", window)
            == "sum(" + (fn + ("(" + SelectorText(metric, job, inst, idText, "[" + (window + ("]" + "))")))))
  {
    var matchers := "{" + LabelMatchers(job, inst) + "," + idText + "}";
    var tail := "[" + (window + ("]" + "))"));
    assert matchers + tail == "{" + (LabelMatchers(job, inst) + ("," + (idText + ("}" + tail))));
    assert "[" + window + "]))" == tail;
  }

  lemma SumReadsBack(fn: string, metric: string, job: string, inst: string, idText: string, id: PromQL.Matcher,
                     window: string)
    requires PromQL.Ident(fn) && PromQL.Ident(metric) && Emits(idText, id) && ']' !in window
    ensures PromQL.ParseQuery(SumQuery(fn, metric, "{" + LabelMatchers(job, inst) + "," + idText + "}", window))
            == if Readable(job, inst) && PromQL.RangeOf(window).Some?
               then Some(PromQL.SumOver(fn, PromQL.Selector(metric, Matchers(job, inst, id)),
                                        PromQL.RangeOf(window).value))
               else None
  {
    hide PromQL.RangeOf;
    SumTextIs(fn, metric, job, inst, idText, window);
    var tail := "[" + (window + ("]" + "))"));
    var selector := SelectorText(metric, job, inst, idText, tail);
    var call := fn + ("(" + selector);
    var s := "sum(" + call;
    assert "sum(" <= s && s[4..] == call;
    assert ("(" + selector)[1..] == selector && ("(" + selector)[0] == '(';
    IdentReadsBack(fn, "(" + selector);
    SelectorReadsBack(metric, job, inst, idText, id, tail);
    assert tail[1..] == window + ("]" + "))") && "[" <= tail;
    WindowReadsBack(window, "))");
  }

  lemma UpBodyText(job: string, inst: string)
    ensures LabelMatchers(job, inst) + "}"
            == "job" + ("=" + (PromLabel(job) + ("," + ("instance" + ("=" + (PromLabel(inst) + "}"))))))
  {
    hide PromLabel;
  }

  /** A matcher in front of the closing brace is the last one. */
  lemma InstanceReadsBack(inst: string)
    ensures PromQL.ParseMatchers("instance" + ("=" + (PromLabel(inst) + "}")))
            == if PromQL.Quotable(inst) then Some(([PromQL.Matcher("instance", PromQL.Equal, inst)], "")) else None
  {
    hide PromLabel, PromQL.Quotable;
    IdentsAreIdents();
    MatcherReadsBack("instance", PromQL.Equal, inst, "}");
    assert "}"[1..] == "";
  }

  lemma UpBodyReadsBack(job: string, inst: string)
    ensures PromQL.ParseMatchers(LabelMatchers(job, inst) + "}")
            == if Readable(job, inst)
               then Some(([PromQL.Matcher("job", PromQL.Equal, job),
                           PromQL.Matcher("instance", PromQL.Equal, inst)], ""))
               else None
  {
    hide LabelMatchers, PromLabel, PromQL.ParseMatchers, PromQL.Quotable;
    IdentsAreIdents();
    UpBodyText(job, inst);
    InstanceReadsBack(inst);
    NextMatcher("job", job, "instance" + ("=" + (PromLabel(inst) + "}")));
    if Readable(job, inst) {
      assert [PromQL.Matcher("job", PromQL.Equal, job)] + [PromQL.Matcher("instance", PromQL.Equal, inst)]
             == [PromQL.Matcher("job", PromQL.Equal, job), PromQL.Matcher("instance", PromQL.Equal, inst)];
    }
  }

  lemma UpTextIs(job: string, inst: string)
    ensures TargetHealthQuery(job, inst) == "up" + ("{" + (LabelMatchers(job, inst) + "}"))
  {
  }

  lemma UpReadsBack(job: string, inst: string)
    ensures PromQL.ParseQuery(TargetHealthQuery(job, inst))
            == if Readable(job, inst)
               then Some(PromQL.Instant(PromQL.Selector("up", [PromQL.Matcher("job", PromQL.Equal, job),
                                                                      PromQL.Matcher("instance", PromQL.Equal, inst)])))
               else None
  {
    hide LabelMatchers, TargetHealthQuery, PromQL.ParseMatchers;
    var body := LabelMatchers(job, inst) + "}";
    var s := "up" + ("{" + body);
    UpTextIs(job, inst);
    assert s[0] == 'u' && "sum("[0] == 's';
    assert !("sum(" <= s);
    assert ("{" + body)[1..] == body && ("{" + body)[0] == '{';
    IdentReadsBack("up", "{" + body);
    UpBodyReadsBack(job, inst);
  }

  /** CPU and memory carry the same selector and range, health the same target. */
  lemma HostQueriesReadBack(job: string, inst: string, idText: string, id: PromQL.Matcher, window: string)
    requires Emits(idText, id) && ValidWindow(window)
    ensures MeansTarget(HostQueries(job, inst, idText, window), job, inst, id, window)
  {
    hide PromQL.RangeOf, PromQL.ParseQuery, Emits, Readable, Matchers, LabelMatchers, TargetHealthQuery, ValidWindow;
    IdentsAreIdents();
    ValidWindowChars(window);
    assert ']' !in window by {
      assert !WindowChar(']');
    }
    SumReadsBack("rate", CPU_METRIC, job, inst, idText, id, window);
    SumReadsBack("avg_over_time", MEMORY_METRIC, job, inst, idText, id, window);
    UpReadsBack(job, inst);
  }

  /**
   * What the three queries of a typed source say once parsed.  The health query parses exactly when both target
   * labels are quotable; CPU and memory exactly when moreover the window is a range PromQL reads.
   */
  predicate MeansTarget(q: Queries, job: string, inst: string, id: PromQL.Matcher, window: string) {
    var target := [PromQL.Matcher("job", PromQL.Equal, job), PromQL.Matcher("instance", PromQL.Equal, inst)];
    var cpu := PromQL.Selector("container_cpu_usage_seconds_total", Matchers(job, inst, id));
    var memory := PromQL.Selector("container_memory_working_set_bytes", Matchers(job, inst, id));
    var range := PromQL.RangeOf(window);
    && (if Readable(job, inst) && range.Some? then
          && PromQL.ParseQuery(q.cpuCores) == Some(PromQL.SumOver("rate", cpu, range.value))
          && PromQL.ParseQuery(q.memoryBytes) == Some(PromQL.SumOver("avg_over_time", memory, range.value))
        else
          PromQL.ParseQuery(q.cpuCores).None? && PromQL.ParseQuery(q.memoryBytes).None?)
    && PromQL.ParseQuery(q.targetHealth)
       == (if Readable(job, inst) then Some(PromQL.Instant(PromQL.Selector("up", target))) else None)
  }

  // ----- The id matcher of each source type -------------------------------------------

  lemma IdTextEmits(op: PromQL.Op, value: string)
    requires PromQL.Quotable(value)
    ensures Emits((if op.Equal? then "id=" else "id=~") + PromLabel(value), PromQL.Matcher("id", op, value))
  {
    IdentsAreIdents();
    var text := (if op.Equal? then "id=" else "id=~") + PromLabel(value);
    forall rest: string
      ensures PromQL.ParseMatcher(text + rest) == Some((PromQL.Matcher("id", op, value), rest))
    {
      MatcherReadsBack("id", op, value, rest);
      assert text + rest == "id" + (OpText(op) + (PromLabel(value) + rest));
    }
  }

  lemma {:induction false} ContainsCharIs(s: string, c: char)
    ensures Contains(s, [c]) <==> c in s
  {
    if s != [] {
      ContainsCharIs(s[1..], c);
      assert ([c] <= s) == (s[0] == c) by {
        if s[0] == c { assert s[..1] == [c]; }
      }
      assert s == [s[0]] + s[1..];
    }
  }

  lemma {:induction false} PatternStaysPrintable(path: string)
    requires PromQL.Quotable(path)
    ensures PromQL.Quotable(Globs.Pattern(path))
  {
    if path != [] {
      assert path[0] != '\n' && path[0] != PromQL.REPLACEMENT;
      PatternStaysPrintable(path[1..]);
    }
  }

  lemma GlobPatternPrintable(path: string)
    requires PromQL.Quotable(path)
    ensures PromQL.Quotable(GlobPattern(path))
  {
    PatternStaysPrintable(path);
    Globs.SubstitutionHitsOnlyStars(path);
  }

  lemma {:induction false} EscapeLeavesPlainText(v: string)
    requires '\\' !in v && '"' !in v
    ensures Escaping.Escape(v) == v
  {
    if v != [] {
      EscapeLeavesPlainText(v[1..]);
      assert v == [v[0]] + v[1..];
    }
  }

  lemma QuotedPlainText(v: string)
    requires '\\' !in v && '"' !in v
    ensures "id=~\"" + v + "\"" == "id=~" + PromLabel(v)
  {
    EscapeLeavesPlainText(v);
    Escaping.PromLabelIsCharwise(v);
  }

  lemma DockerIdEmits()
    ensures Emits(DOCKER_ID_SELECTOR, PromQL.Matcher("id", PromQL.Regex, DOCKER_ID_PATTERN))
  {
    hide PromLabel, Emits;
    QuotedPlainText(DOCKER_ID_PATTERN);
    IdTextEmits(PromQL.Regex, DOCKER_ID_PATTERN);
  }

  /** The id matcher a source declaration stands for. */
  function IdMatcherOf(source: Source): PromQL.Matcher {
    if source.kind.Cgroup? && source.cgroup.Some? then
      if '*' in source.cgroup.value.path
      then PromQL.Matcher("id", PromQL.Regex, GlobPattern(source.cgroup.value.path))
      else PromQL.Matcher("id", PromQL.Equal, source.cgroup.value.path)
    else if source.kind.Systemd? && source.systemd.Some? then
      PromQL.Matcher("id", PromQL.Equal, "/system.slice/" + source.systemd.value.unit)
    else
      PromQL.Matcher("id", PromQL.Regex, DOCKER_ID_PATTERN)
  }

  predicate Typed(kind: SourceType) {
    kind.Docker? || kind.Cgroup? || kind.Systemd?
  }

  lemma ValidPathIsPrintable(path: string)
    requires ValidPath(path)
    ensures PromQL.Quotable(path)
  {
    assert !PathChar('\n') && !PathChar(PromQL.REPLACEMENT);
  }

  lemma SystemdIdIsPrintable(unit: string)
    requires ValidUnit(unit)
    ensures PromQL.Quotable("/system.slice/" + unit)
  {
    assert !UnitChar('\n') && !UnitChar(PromQL.REPLACEMENT);
  }

  lemma CgroupIdEmits(path: string)
    requires ValidPath(path)
    ensures Emits(IdMatcher(path, Contains(path, "*")),
                  if '*' in path then PromQL.Matcher("id", PromQL.Regex, GlobPattern(path))
                  else PromQL.Matcher("id", PromQL.Equal, path))
  {
    ValidPathIsPrintable(path);
    ContainsCharIs(path, '*');
    if '*' in path {
      GlobPatternPrintable(path);
      IdTextEmits(PromQL.Regex, GlobPattern(path));
    } else {
      IdTextEmits(PromQL.Equal, path);
    }
  }

  /**
   * Description agrees with compilation.  For every typed source that resolves, the CPU, memory and
   * health queries parse to the job and instance `Describe` reports, and CPU and memory share one matcher
   * list and one range.  There are two ways out: an unquotable target label leaves no query readable, and
   * a window outside PromQL's durations leaves CPU and memory unreadable.
   */
  lemma ResolvedMeansDescribed(spec: Spec)
    requires Typed(spec.source.kind) && Resolve(spec).Ok?
    ensures var d := Describe(spec);
            && d.cadvisorJob != "" && d.cadvisorInstance != ""
            && MeansTarget(Resolve(spec).value, d.cadvisorJob, d.cadvisorInstance, IdMatcherOf(spec.source),
                           spec.metrics.window)
  {
    hide MeansTarget, HostQueries, IdMatcher, ValidPath, ValidUnit, ValidWindow, Emits;
    var d := Describe(spec);
    var window := spec.metrics.window;
    match spec.source.kind {
      case Docker =>
        DockerIdEmits();
        HostQueriesReadBack(d.cadvisorJob, d.cadvisorInstance, DOCKER_ID_SELECTOR, IdMatcherOf(spec.source), window);
      case Cgroup =>
        var path := spec.source.cgroup.value.path;
        CgroupIdEmits(path);
        HostQueriesReadBack(d.cadvisorJob, d.cadvisorInstance, IdMatcher(path, Contains(path, "*")),
                            IdMatcherOf(spec.source), window);
      case Systemd =>
        var path := "/system.slice/" + spec.source.systemd.value.unit;
        SystemdIdIsPrintable(spec.source.systemd.value.unit);
        SystemdIdEmits(path);
        HostQueriesReadBack(d.cadvisorJob, d.cadvisorInstance, IdMatcher(path, false), IdMatcherOf(spec.source),
                            window);
      case _ =>
    }
  }

  lemma SystemdIdEmits(path: string)
    requires PromQL.Quotable(path)
    ensures Emits(IdMatcher(path, false), PromQL.Matcher("id", PromQL.Equal, path))
  {
    IdTextEmits(PromQL.Equal, path);
  }

  /** The ids a declaration asks for. */
  ghost predicate WantsId(source: Source, id: string) {
    if source.kind.Cgroup? && source.cgroup.Some? then PromQL.GlobMatch(source.cgroup.value.path, id)
    else if source.kind.Systemd? && source.systemd.Some? then id == "/system.slice/" + source.systemd.value.unit
    else |id| >= 21 && id[..7] == "/system" && id[8..21] == "slice/docker-"
  }

  /** A declared job, which is cadvisor where none is declared, at a declared instance. */
  predicate OnTarget(job: string, inst: string, labels: map<string, string>) {
    && PromQL.LabelOf(labels, "job") == (if job == "" then "cadvisor" else job)
    && PromQL.LabelOf(labels, "instance") == inst
  }

  /** A series of the declared target under an id the declaration asks for. */
  ghost predicate IsDeclared(source: Source, labels: map<string, string>) {
    && WantsId(source, PromQL.LabelOf(labels, "id"))
    && match source.kind
       case Docker => source.docker.Some? && OnTarget(source.docker.value.cadvisorJob,
                                                      source.docker.value.cadvisorInstance, labels)
       case Cgroup => source.cgroup.Some? && OnTarget(source.cgroup.value.cadvisorJob,
                                                      source.cgroup.value.cadvisorInstance, labels)
       case Systemd => source.systemd.Some? && OnTarget(source.systemd.value.cadvisorJob,
                                                        source.systemd.value.cadvisorInstance, labels)
       case _ => false
  }

  /**
   * Compilation preserves meaning: the compiled selector picks a series of its metric exactly when its job, instance
   * and id are those the declaration asks for.
   */
  lemma SelectionIsDeclaration(spec: Spec, metric: string, labels: map<string, string>)
    requires Typed(spec.source.kind) && Resolve(spec).Ok?
    ensures var d := Describe(spec);
            var matchers := Matchers(d.cadvisorJob, d.cadvisorInstance, IdMatcherOf(spec.source));
            PromQL.Selects(PromQL.Selector(metric, matchers), labels)
            <==> PromQL.LabelOf(labels, "__name__") == metric && IsDeclared(spec.source, labels)
  {
    hide PromQL.RegexAccepts, GlobPattern, PromQL.GlobMatch, WantsId, IdMatcherOf, ValidWindow, HostQueries, ValidPath;
    hide ValidUnit, IdMatcher, PromQL.Satisfies;
    IdIsWanted(spec, labels);
    var d := Describe(spec);
    TargetIsSatisfied(d, labels);
    var ms := Matchers(d.cadvisorJob, d.cadvisorInstance, IdMatcherOf(spec.source));
    assert PromQL.Selects(PromQL.Selector(metric, ms), labels)
           <==> && PromQL.LabelOf(labels, "__name__") == metric
                && PromQL.Satisfies(labels, ms[0]) && PromQL.Satisfies(labels, ms[1])
                && PromQL.Satisfies(labels, ms[2]);
  }

  lemma TargetIsSatisfied(d: Description, labels: map<string, string>)
    ensures PromQL.Satisfies(labels, PromQL.Matcher("job", PromQL.Equal, d.cadvisorJob))
            <==> PromQL.LabelOf(labels, "job") == d.cadvisorJob
    ensures PromQL.Satisfies(labels, PromQL.Matcher("instance", PromQL.Equal, d.cadvisorInstance))
            <==> PromQL.LabelOf(labels, "instance") == d.cadvisorInstance
  {
  }

  /** The compiled id matcher accepts exactly the ids the declaration asks for. */
  lemma IdIsWanted(spec: Spec, labels: map<string, string>)
    requires Typed(spec.source.kind) && Resolve(spec).Ok?
    ensures PromQL.Satisfies(labels, IdMatcherOf(spec.source)) <==> WantsId(spec.source, PromQL.LabelOf(labels, "id"))
  {
    hide PromQL.RegexAccepts, GlobPattern, PromQL.GlobMatch, ValidWindow, HostQueries, ValidPath, ValidUnit, IdMatcher;
    var id := PromQL.LabelOf(labels, "id");
    if spec.source.kind.Cgroup? {
      Globs.GlobPatternMeaning(spec.source.cgroup.value.path, id);
      if '*' !in spec.source.cgroup.value.path {
        Globs.StarlessGlobIsEquality(spec.source.cgroup.value.path, id);
      }
    } else if spec.source.kind.Docker? {
      Globs.DockerPatternMeaning(id);
    }
  }

  /** The text parses to a sum of `fn` over `range` milliseconds of exactly the declared series of `metric`. */
  ghost predicate SumsDeclared(text: string, fn: string, metric: string, range: nat, source: Source) {
    var query := PromQL.ParseQuery(text);
    && query.Some? && query.value.SumOver? && query.value.fn == fn && query.value.milliseconds == range
    && forall labels ::
         PromQL.Selects(query.value.selector, labels)
         <==> PromQL.LabelOf(labels, "__name__") == metric && IsDeclared(source, labels)
  }

  /**
   * End to end.  The emitted CPU and memory texts parse exactly when the target labels are quotable and the window is a
   * PromQL range, and then they sum over that range the rate of CPU seconds, and the average working set, of the series
   * the spec declares and of no other.
   */
  lemma CompiledTextSumsDeclaration(spec: Spec)
    requires Typed(spec.source.kind) && Resolve(spec).Ok?
    ensures var d, q, range := Describe(spec), Resolve(spec).value, PromQL.RangeOf(spec.metrics.window);
            if Readable(d.cadvisorJob, d.cadvisorInstance) && range.Some? then
              && SumsDeclared(q.cpuCores, "rate", "container_cpu_usage_seconds_total", range.value, spec.source)
              && SumsDeclared(q.memoryBytes, "avg_over_time", "container_memory_working_set_bytes", range.value,
                              spec.source)
            else
              PromQL.ParseQuery(q.cpuCores).None? && PromQL.ParseQuery(q.memoryBytes).None?
  {
    ResolvedMeansDescribed(spec);
    forall metric, labels
      ensures var d := Describe(spec);
              var ms := Matchers(d.cadvisorJob, d.cadvisorInstance, IdMatcherOf(spec.source));
              PromQL.Selects(PromQL.Selector(metric, ms), labels)
              <==> PromQL.LabelOf(labels, "__name__") == metric && IsDeclared(spec.source, labels)
    {
      SelectionIsDeclaration(spec, metric, labels);
    }
    hide Resolve, Describe, PromQL.ParseQuery, PromQL.Selects, PromQL.RangeOf, IsDeclared, Matchers, IdMatcherOf;
    hide Readable, PromQL.LabelOf;
  }

  lemma UnitsHoldNoStar(unit: string)
    requires ValidUnit(unit)
    ensures '*' !in "/system.slice/" + unit
  {
    assert !UnitChar('*');
  }

  /**
   * The status description is what is measured: its type is the declared one, its job and instance are those of every
   * series measured, and where it names a cgroup path the ids measured are those that match the path as a glob.
   */
  lemma DescriptionNamesTheSeries(spec: Spec, labels: map<string, string>)
    requires Typed(spec.source.kind) && Resolve(spec).Ok?
    ensures var d := Describe(spec);
            && d.kind == spec.source.kind && (d.cgroupPath == "" <==> d.kind == Docker)
            && (IsDeclared(spec.source, labels)
                ==> && PromQL.LabelOf(labels, "job") == d.cadvisorJob
                    && PromQL.LabelOf(labels, "instance") == d.cadvisorInstance)
            && (d.kind != Docker && PromQL.LabelOf(labels, "job") == d.cadvisorJob
                && PromQL.LabelOf(labels, "instance") == d.cadvisorInstance
                ==> (IsDeclared(spec.source, labels)
                     <==> PromQL.GlobMatch(d.cgroupPath, PromQL.LabelOf(labels, "id"))))
  {
    hide PromQL.GlobMatch, ValidWindow;
    if spec.source.kind.Systemd? {
      UnitsHoldNoStar(spec.source.systemd.value.unit);
      Globs.StarlessGlobIsEquality(Describe(spec).cgroupPath, PromQL.LabelOf(labels, "id"));
    }
  }

  /** A raw PromQL source is asked for in its author's own words. */
  lemma RawQueriesPassThrough(spec: Spec)
    requires spec.source.kind == SourceType.PromQL
    ensures Resolve(spec)
            == if spec.source.promql.None? then Err(MissingBlock)
               else Ok(Queries(spec.source.promql.value.cpuCores, spec.source.promql.value.memoryBytes, ""))
    ensures Describe(spec) == Description(SourceType.PromQL, "", "", "")
  {
  }

  /** A cgroup source never reaches into a nested cgroup: every picked id has as many slashes as the path. */
  lemma CgroupSelectionKeepsDepth(spec: Spec, metric: string, labels: map<string, string>)
    requires spec.source.kind.Cgroup? && Resolve(spec).Ok?
    requires var d := Describe(spec);
             var matchers := Matchers(d.cadvisorJob, d.cadvisorInstance, IdMatcherOf(spec.source));
             PromQL.Selects(PromQL.Selector(metric, matchers), labels)
    ensures CountChar(PromQL.LabelOf(labels, "id"), '/') == CountChar(spec.source.cgroup.value.path, '/')
  {
    SelectionIsDeclaration(spec, metric, labels);
    Globs.GlobKeepsSlashes(spec.source.cgroup.value.path, PromQL.LabelOf(labels, "id"));
  }

  lemma MiddleDecides(s: string, a: string, b: string, c: char)
    requires |s| == |a| + 1 + |b| && s[..|a|] == a && s[|a| + 1..] == b
    ensures s == a + [c] + b <==> s[|a|] == c
  {
    assert s == s[..|a|] + [s[|a|]] + s[|a| + 1..];
    assert (a + [c] + b)[|a|] == c;
  }

  /**
   * The documentation promises ids under `/system.slice/docker-`.  The pattern keeps that promise on an
   * id exactly when the id's eighth character is the dot the pattern leaves free.
   */
  lemma DockerPrefixIffDot(id: string)
    requires PromQL.RegexAccepts(DOCKER_ID_PATTERN, id)
    ensures |id| >= 21 && (id[..21] == "/system" + ['.'] + "slice/docker-" <==> id[7] == '.')
  {
    Globs.DockerPatternMeaning(id);
    var s := id[..21];
    assert s[..7] == id[..7] && s[8..] == id[8..21];
    MiddleDecides(s, "/system", "slice/docker-", '.');
  }

  /** An id outside the docker slice that the pattern picks. */
  lemma DockerPatternPicksAStranger(id: string)
    requires id == "/system" + "-" + "slice/docker-"
    ensures PromQL.RegexAccepts(DOCKER_ID_PATTERN, id) && id[7] != '.'
  {
    assert id[..7] == "/system" && id[8..21] == "slice/docker-";
    Globs.DockerPatternMeaning(id);
  }

  // ----- Which windows PromQL reads -----------------------------------------------------

  lemma {:induction false} CountThenUnit(count: string, unit: string)
    requires (count == "" || AllDigits(count)) && unit != "" && !IsDigit(unit[0])
    ensures Digits(count + unit) == PromQL.LeadingDigits(count + unit) == |count|
  {
    if count == "" {
      assert count + unit == unit;
    } else {
      assert (count + unit)[1..] == count[1..] + unit;
      CountThenUnit(count[1..], unit);
    }
  }

  /** The units a window may use. */
  predicate WindowUnit(u: PromQL.Unit) {
    u == PromQL.Unit("ms", 0, 1) || u == PromQL.Unit("s", 1, 1_000)
    || u == PromQL.Unit("m", 2, 60_000) || u == PromQL.Unit("h", 3, 3_600_000)
  }

  lemma UnitAlone(u: PromQL.Unit)
    requires WindowUnit(u)
    ensures PromQL.UnitAt(u.text) == Some(u) && UnitLength(u.text) == |u.text| && !("." <= u.text)
  {
    assert u.text[0] in "smh";
  }

  /** A whole count of one unit is a valid window; PromQL reads it exactly when it is positive and fits. */
  lemma WholeCountIsReadIff(count: string, u: PromQL.Unit)
    requires AllDigits(count) && WindowUnit(u)
    ensures ValidWindow(count + u.text)
    ensures var ms := Decimal(count) * u.milliseconds;
            PromQL.RangeOf(count + u.text)
            == if 0 < ms && ms * 1_000_000 < 0x8000_0000_0000_0000 then Some(ms) else None
  {
    hide PromQL.Milliseconds, Decimal, Digits, PromQL.LeadingDigits, PromQL.UnitAt, UnitLength;
    var window := count + u.text;
    CountThenUnit(count, u.text);
    UnitAlone(u);
    CountAlone(count, u, 7);
    assert window[..|count|] == count && window[|count|..] == u.text && u.text[|u.text|..] == "";
  }

  lemma RangeStep(s: string, limit: nat)
    requires PromQL.Milliseconds(s, limit).Some? && s != []
    ensures var n := PromQL.LeadingDigits(s);
            PromQL.UnitAt(s[n..]).Some?
            && (var unit := PromQL.UnitAt(s[n..]).value;
                PromQL.Milliseconds(s[n + |unit.text|..], unit.place).Some?)
  {
    hide Decimal, PromQL.LeadingDigits, PromQL.UnitAt;
  }

  lemma NoDots(s: string, i: nat, j: nat)
    requires i <= j <= |s| && '.' !in s[..i] && '.' !in s[i..j] && '.' !in s[j..]
    ensures '.' !in s
  {
    assert s == s[..i] + s[i..j] + s[j..];
  }

  lemma UnitsHaveNoDot(s: string)
    ensures PromQL.UnitAt(s).Some? ==> '.' !in PromQL.UnitAt(s).value.text
  {
  }

  lemma {:induction false} RangesHaveNoDot(s: string, limit: nat)
    requires PromQL.Milliseconds(s, limit).Some?
    ensures '.' !in s
    decreases |s|
  {
    hide PromQL.Milliseconds, PromQL.LeadingDigits, PromQL.UnitAt;
    if s != [] {
      var n := PromQL.LeadingDigits(s);
      RangeStep(s, limit);
      UnitsHaveNoDot(s[n..]);
      var unit := PromQL.UnitAt(s[n..]).value;
      var next := n + |unit.text|;
      RangesHaveNoDot(s[next..], unit.place);
      assert s[n..next] == unit.text;
      assert forall k :: 0 <= k < n ==> s[..n][k] == s[k];
      NoDots(s, n, next);
    }
  }

  /** A window with a fraction in it, which validation admits, is never a PromQL range. */
  lemma FractionsAreUnreadable(window: string)
    requires '.' in window
    ensures PromQL.RangeOf(window).None?
  {
    if PromQL.Milliseconds(window, 7).Some? {
      RangesHaveNoDot(window, 7);
    }
  }

  lemma UnitAhead(u: PromQL.Unit, rest: string)
    requires WindowUnit(u) && rest != "" && IsDigit(rest[0])
    ensures PromQL.UnitAt(u.text + rest) == Some(u) && UnitLength(u.text + rest) == |u.text| && !("." <= u.text + rest)
  {
    var s := u.text + rest;
    assert s[0] == u.text[0] && s[0] in "smh";
    assert u.text == "ms" ==> s[..2] == "ms";
    assert u.text == "m" ==> s[1] == rest[0];
  }

  /** A count and its unit in front of another count: what is left after them. */
  lemma CountAhead(count: string, u: PromQL.Unit, rest: string)
    requires AllDigits(count) && WindowUnit(u) && rest != "" && IsDigit(rest[0])
    ensures var s := count + (u.text + rest);
            && Digits(s) == PromQL.LeadingDigits(s) == |count| && s[..|count|] == count
            && s[|count|..] == u.text + rest && s[|count| + |u.text|..] == rest && (u.text + rest)[|u.text|..] == rest
  {
    CountThenUnit(count, u.text + rest);
  }

  lemma ValidAhead(count: string, u: PromQL.Unit, rest: string)
    requires AllDigits(count) && WindowUnit(u) && rest != "" && IsDigit(rest[0]) && ValidWindow(rest)
    ensures ValidWindow(count + (u.text + rest))
  {
    CountAhead(count, u, rest);
    UnitAhead(u, rest);
    hide Digits, UnitLength, AllDigits, WindowUnit;
  }

  lemma MillisecondsUnfold(s: string, n: nat, u: PromQL.Unit, rest: string, limit: nat)
    requires 0 < n <= |s| && PromQL.LeadingDigits(s) == n && PromQL.UnitAt(s[n..]) == Some(u) && u.place < limit
    requires s[n + |u.text|..] == rest
    ensures var after := PromQL.Milliseconds(rest, u.place);
            PromQL.Milliseconds(s, limit)
            == if after.None? then None else Some(Decimal(s[..n]) * u.milliseconds + after.value)
  {
    hide PromQL.LeadingDigits, PromQL.UnitAt, Decimal;
  }

  lemma MillisecondsAhead(count: string, u: PromQL.Unit, rest: string)
    requires AllDigits(count) && WindowUnit(u) && rest != "" && IsDigit(rest[0])
    ensures var after := PromQL.Milliseconds(rest, u.place);
            PromQL.Milliseconds(count + (u.text + rest), 7)
            == if after.None? then None else Some(Decimal(count) * u.milliseconds + after.value)
  {
    hide PromQL.Milliseconds, PromQL.LeadingDigits, PromQL.UnitAt, Decimal, Digits;
    CountAhead(count, u, rest);
    UnitAhead(u, rest);
    MillisecondsUnfold(count + (u.text + rest), |count|, u, rest, 7);
  }

  lemma CountAlone(count: string, u: PromQL.Unit, limit: nat)
    requires AllDigits(count) && WindowUnit(u)
    ensures PromQL.Milliseconds(count + u.text, limit)
            == if u.place < limit then Some(Decimal(count) * u.milliseconds) else None
  {
    var window := count + u.text;
    CountThenUnit(count, u.text);
    UnitAlone(u);
    assert window[..|count|] == count && window[|count|..] == u.text && window[|count| + |u.text|..] == "";
    hide PromQL.LeadingDigits, PromQL.UnitAt, Decimal, AllDigits, Digits;
    assert PromQL.Milliseconds("", u.place) == Some(0);
  }

  /**
   * Two counts make a valid window whatever their units; PromQL reads it exactly when the units fall and the sum is
   * positive and fits.
   */
  lemma TwoCountsAreReadIff(count: string, u: PromQL.Unit, again: string, v: PromQL.Unit)
    requires AllDigits(count) && AllDigits(again) && WindowUnit(u) && WindowUnit(v)
    ensures ValidWindow(count + (u.text + (again + v.text)))
    ensures var ms := Decimal(count) * u.milliseconds + Decimal(again) * v.milliseconds;
            PromQL.RangeOf(count + (u.text + (again + v.text)))
            == if v.place < u.place && 0 < ms && ms * 1_000_000 < 0x8000_0000_0000_0000 then Some(ms) else None
  {
    hide Digits, PromQL.LeadingDigits, PromQL.UnitAt, PromQL.Milliseconds, Decimal, ValidWindow;
    WholeCountIsReadIff(again, v);
    ValidAhead(count, u, again + v.text);
    MillisecondsAhead(count, u, again + v.text);
    CountAlone(again, v, u.place);
  }

  // ----- Specs whose queries no one can read --------------------------------------------

  /** A typed source for one node. */
  function DockerOn(inst: string): Source {
    Source(Docker, Some(DockerSource("", inst)), None, None, None)
  }

  lemma FractionalWindow()
    ensures ValidWindow("1.5m") && PromQL.RangeOf("1.5m").None?
  {
    assert "1.5m"[1..] == ".5m" && ".5m"[1..] == "5m" && "5m"[1..] == "m" && "m"[1..] == "";
    assert Digits("1.5m") == 1 && Digits("5m") == 1;
    assert PromQL.LeadingDigits("1.5m") == 1 && PromQL.UnitAt(".5m").None?;
  }

  /**
   * A resolving spec whose window passes validation and is no PromQL range: CPU and memory are unreadable while the
   * health query still parses.
   */
  lemma FractionalWindowIsUnreadable(spec: Spec)
    requires spec.source == DockerOn("node:8080") && spec.metrics.window == "1.5m"
    ensures Resolve(spec).Ok?
    ensures PromQL.ParseQuery(Resolve(spec).value.cpuCores).None?
    ensures PromQL.ParseQuery(Resolve(spec).value.memoryBytes).None?
    ensures PromQL.ParseQuery(Resolve(spec).value.targetHealth).Some?
  {
    hide ValidWindow, PromQL.RangeOf, PromQL.ParseQuery, HostQueries;
    FractionalWindow();
    ResolvedMeansDescribed(spec);
  }

  lemma PlainWindow()
    ensures ValidWindow("5m") && PromQL.RangeOf("5m") == Some(300_000)
  {
    assert "5m"[1..] == "m" && "m"[1..] == "" && "5m"[..1] == "5" && "5"[..0] == "";
    assert Digits("5m") == 1 && PromQL.LeadingDigits("5m") == 1;
    assert PromQL.UnitAt("m") == Some(PromQL.UNITS[2]);
    assert PromQL.Milliseconds("", 2) == Some(0);
  }

  /** A resolving spec with a newline in its target: none of the three queries is readable. */
  lemma NewlineTargetIsUnreadable(spec: Spec)
    requires spec.source == DockerOn("node\n:8080") && spec.metrics.window == "5m"
    ensures Resolve(spec).Ok?
    ensures PromQL.ParseQuery(Resolve(spec).value.cpuCores).None?
    ensures PromQL.ParseQuery(Resolve(spec).value.memoryBytes).None?
    ensures PromQL.ParseQuery(Resolve(spec).value.targetHealth).None?
  {
    hide ValidWindow, PromQL.RangeOf, PromQL.ParseQuery, HostQueries;
    PlainWindow();
    ResolvedMeansDescribed(spec);
    assert "node\n:8080"[4] == '\n';
  }

  /** The health query exists exactly for typed sources. */
  lemma HealthQueryIffTyped(spec: Spec)
    requires Resolve(spec).Ok?
    ensures Resolve(spec).value.targetHealth != "" <==> Typed(spec.source.kind)
  {
    if Typed(spec.source.kind) {
      var d := Describe(spec);
      assert TargetHealthQuery(d.cadvisorJob, d.cadvisorInstance)[0] == 'u';
    }
  }
}
