/** internal/sources/sources.go: typed sources compiled to PromQL, and the fail-closed query pair. */
module Sources {
  import opened Wrappers
  import opened Text
  import opened Api

  /** `targetHealth` is empty for raw PromQL. */
  datatype Queries = Queries(cpuCores: string, memoryBytes: string, targetHealth: string)

  datatype ResolveError = MissingBlock | UnsupportedType | InvalidUnit | InvalidPath | InvalidWindow | MissingInstance

  // ----- Validation patterns ---------------------------------------------------------

  /** `[0-9]+` at the front of `s`: how many digits there are. */
  function Digits(s: string): (n: nat)
    ensures n <= |s|
  {
    if s == [] || !IsDigit(s[0]) then 0 else 1 + Digits(s[1..])
  }

  /** How many characters of `s` one `ms`, `s`, `m` or `h` takes; 0 when there is none. */
  function UnitLength(s: string): (n: nat)
    ensures n <= |s|
  {
    if "ms" <= s then 2
    else if s != [] && s[0] in "smh" then 1
    else 0
  }

  /** `([0-9]+(\.[0-9]+)?(ms|s|m|h))+` over the whole text. */
  predicate ValidWindow(s: string)
    decreases |s|
  {
    var whole := Digits(s);
    if whole == 0 then false
    else
      var rest := s[whole..];
      var fraction := if "." <= rest then Digits(rest[1..]) else 0;
      if "." <= rest && fraction == 0 then false
      else
        var tail := if "." <= rest then rest[1 + fraction..] else rest;
        var unit := UnitLength(tail);
        unit > 0 && (tail[unit..] == [] || ValidWindow(tail[unit..]))
  }

  predicate UnitChar(c: char) {
    IsAlnum(c) || c in "_.:-"
  }

  predicate PathChar(c: char) {
    IsAlnum(c) || c in "_.:@-/*"
  }

  predicate HasSuffix(s: string, suffix: string) {
    |suffix| <= |s| && s[|s| - |suffix|..] == suffix
  }

  /** `[A-Za-z0-9_.:\-]+\.(service|scope)` over the whole text. */
  predicate ValidUnit(s: string) {
    && (forall i :: 0 <= i < |s| ==> UnitChar(s[i]))
    && ((HasSuffix(s, ".service") && |s| > |".service"|) || (HasSuffix(s, ".scope") && |s| > |".scope"|))
  }

  // A slash and then one or more of letters, digits, `_ . : @ - / *`, with no empty segment.
  predicate ValidPath(s: string) {
    && |s| >= 2
    && s[0] == '/'
    && (forall i :: 1 <= i < |s| ==> PathChar(s[i]))
    && !Contains(s, "//")
  }

  // ----- Compilation -----------------------------------------------------------------

  function CadvisorJob(job: string): string {
    if job == "" then "cadvisor" else job
  }

  predicate RegexMeta(c: char) {
    c in "\\.+*?()|[]{}^$"
  }

  /** `regexp.QuoteMeta`. */
  function QuoteMeta(s: string): string {
    if s == [] then []
    else (if RegexMeta(s[0]) then ['\\', s[0]] else [s[0]]) + QuoteMeta(s[1..])
  }

  /** A label value literal: two textual passes, backslashes first. */
  function PromLabel(v: string): string {
    var escaped := ReplaceAll(v, "\\", "\\\\");
    "\"" + ReplaceAll(escaped, "\"", "\\\"") + "\""
  }

  /** The regular expression a glob path is turned into. */
  function GlobPattern(path: string): string {
    "^" + ReplaceAll(QuoteMeta(path), "\\*", "[^/]*") + "$"
  }

  function IdMatcher(path: string, glob: bool): string {
    if glob then "id=~" + PromLabel(GlobPattern(path)) else "id=" + PromLabel(path)
  }

  function LabelMatchers(job: string, inst: string): string {
    "job=" + PromLabel(job) + ",instance=" + PromLabel(inst)
  }

  const DOCKER_ID_PATTERN := "/system.slice/docker-.*"

  const DOCKER_ID_SELECTOR := "id=~\"" + DOCKER_ID_PATTERN + "\""

  function TargetHealthQuery(job: string, inst: string): string {
    "up{job=" + PromLabel(job) + ",instance=" + PromLabel(inst) + "}"
  }

  const CPU_METRIC := "container_cpu_usage_seconds_total"

  const MEMORY_METRIC := "container_memory_working_set_bytes"

  /** `sum(fn(metric{...}[window]))`. */
  function SumQuery(fn: string, metric: string, matchers: string, window: string): string {
    "sum(" + fn + "(" + metric + matchers + "[" + window + "]))"
  }

  function HostQueries(job: string, inst: string, idMatcher: string, window: string): Queries {
    var matchers := "{" + LabelMatchers(job, inst) + "," + idMatcher + "}";
    Queries(SumQuery("rate", CPU_METRIC, matchers, window),
            SumQuery("avg_over_time", MEMORY_METRIC, matchers, window),
            TargetHealthQuery(job, inst))
  }

  function ResolveHostCgroup(path: string, glob: bool, job: string, inst: string, window: string)
    : Result<Queries, ResolveError>
  {
    if !ValidWindow(window) then Err(InvalidWindow)
    else if inst == "" then Err(MissingInstance)
    else Ok(HostQueries(CadvisorJob(job), inst, IdMatcher(path, glob), window))
  }

  function ResolveSystemd(systemd: SystemdSource, window: string): Result<Queries, ResolveError> {
    if !ValidUnit(systemd.unit) then Err(InvalidUnit)
    else ResolveHostCgroup("/system.slice/" + systemd.unit, false,
                           systemd.cadvisorJob, systemd.cadvisorInstance, window)
  }

  function ResolveCgroup(cgroup: CgroupSource, window: string): Result<Queries, ResolveError> {
    if !ValidPath(cgroup.path) then Err(InvalidPath)
    else ResolveHostCgroup(cgroup.path, Contains(cgroup.path, "*"),
                           cgroup.cadvisorJob, cgroup.cadvisorInstance, window)
  }

  function ResolveDocker(docker: DockerSource, window: string): Result<Queries, ResolveError> {
    if !ValidWindow(window) then Err(InvalidWindow)
    else if docker.cadvisorInstance == "" then Err(MissingInstance)
    else Ok(HostQueries(CadvisorJob(docker.cadvisorJob), docker.cadvisorInstance, DOCKER_ID_SELECTOR, window))
  }

  function Resolve(spec: Spec): Result<Queries, ResolveError> {
    match spec.source.kind
    case Docker =>
      if spec.source.docker.None? then Err(MissingBlock)
      else ResolveDocker(spec.source.docker.value, spec.metrics.window)
    case PromQL =>
      if spec.source.promql.None? then Err(MissingBlock)
      else Ok(Queries(spec.source.promql.value.cpuCores, spec.source.promql.value.memoryBytes, ""))
    case Cgroup =>
      if spec.source.cgroup.None? then Err(MissingBlock)
      else ResolveCgroup(spec.source.cgroup.value, spec.metrics.window)
    case Systemd =>
      if spec.source.systemd.None? then Err(MissingBlock)
      else ResolveSystemd(spec.source.systemd.value, spec.metrics.window)
    case Unsupported(_) => Err(UnsupportedType)
  }

  function Describe(spec: Spec): Description {
    var kind := spec.source.kind;
    match kind
    case Docker =>
      if spec.source.docker.None? then Description(kind, "", "", "")
      else Description(kind, "", CadvisorJob(spec.source.docker.value.cadvisorJob),
                       spec.source.docker.value.cadvisorInstance)
    case Cgroup =>
      if spec.source.cgroup.None? then Description(kind, "", "", "")
      else Description(kind, spec.source.cgroup.value.path, CadvisorJob(spec.source.cgroup.value.cadvisorJob),
                       spec.source.cgroup.value.cadvisorInstance)
    case Systemd =>
      if spec.source.systemd.None? then Description(kind, "", "", "")
      else Description(kind, "/system.slice/" + spec.source.systemd.value.unit,
                       CadvisorJob(spec.source.systemd.value.cadvisorJob),
                       spec.source.systemd.value.cadvisorInstance)
    case _ => Description(kind, "", "", "")
  }
}
