/**
 * A reference semantics for the fragment of PromQL that the source compiler emits:
 * string literals, label matchers, vector selectors, the regular expressions inside
 * `=~` matchers, and the set of series a selector picks.  Nothing here is taken from
 * the compiler; it is what the compiled text is measured against.
 */
module PromQL {
  import opened Wrappers
  import opened Text

  // ----- String literals -------------------------------------------------------------

  /** U+FFFD is what a decoding error reads as, so the lexer takes it for one. */
  const REPLACEMENT: char := '\U{FFFD}'

  /** The text may stand in a string literal. */
  predicate Quotable(v: string) {
    '\n' !in v && REPLACEMENT !in v
  }

  /**
   * The characters of a double-quoted literal up to its closing quote, and the text after
   * that quote.  A raw newline, the replacement character or a missing quote is an error; `\\` and `\"`
   * are the escapes of this fragment and every other escape is an error.
   */
  function LexBody(s: string): (r: Option<(string, string)>)
    ensures r.Some? ==> |r.value.1| < |s|
  {
    if s == [] || s[0] == '\n' || s[0] == REPLACEMENT then None
    else if s[0] == '"' then Some(("", s[1..]))
    else if s[0] == '\\' then
      if |s| < 2 || (s[1] != '\\' && s[1] != '"') then None
      else
        match LexBody(s[2..])
        case None => None
        case Some((v, rest)) => Some(([s[1]] + v, rest))
    else
      match LexBody(s[1..])
      case None => None
      case Some((v, rest)) => Some(([s[0]] + v, rest))
  }

  function LexString(s: string): (r: Option<(string, string)>)
    ensures r.Some? ==> |r.value.1| < |s|
  {
    if s == [] || s[0] != '"' then None else LexBody(s[1..])
  }

  // ----- Selectors and queries -------------------------------------------------------

  datatype Op = Equal | Regex

  datatype Matcher = Matcher(name: string, op: Op, value: string)

  datatype Selector = Selector(metric: string, matchers: seq<Matcher>)

  datatype Query =
    | Instant(selector: Selector)
    | SumOver(fn: string, selector: Selector, milliseconds: nat)

  predicate IdentChar(c: char) {
    IsAlnum(c) || c == '_' || c == ':'
  }

  predicate Ident(s: string) {
    |s| > 0 && forall i :: 0 <= i < |s| ==> IdentChar(s[i])
  }

  /** The longest identifier at the front of `s` and what follows it. */
  function LexIdent(s: string): (r: (string, string))
    ensures r.0 + r.1 == s
  {
    if s == [] || !IdentChar(s[0]) then ("", s)
    else
      var (name, rest) := LexIdent(s[1..]);
      ([s[0]] + name, rest)
  }

  function ParseMatcher(s: string): (r: Option<(Matcher, string)>)
    ensures r.Some? ==> |r.value.1| < |s|
  {
    var (name, rest) := LexIdent(s);
    if name == "" then None
    else
      var op := if "=~" <= rest then Some((Regex, rest[2..]))
                else if "=" <= rest then Some((Equal, rest[1..]))
                else None;
      if op.None? then None
      else
        match LexString(op.value.1)
        case None => None
        case Some((value, tail)) => Some((Matcher(name, op.value.0, value), tail))
  }

  /** Matchers separated by commas and closed by a brace. */
  function ParseMatchers(s: string): Option<(seq<Matcher>, string)>
    decreases |s|
  {
    match ParseMatcher(s)
    case None => None
    case Some((m, rest)) =>
      if "}" <= rest then Some(([m], rest[1..]))
      else if "," <= rest then
        match ParseMatchers(rest[1..])
        case None => None
        case Some((ms, tail)) => Some(([m] + ms, tail))
      else None
  }

  function ParseSelector(s: string): Option<(Selector, string)> {
    var (metric, rest) := LexIdent(s);
    if metric == "" || !("{" <= rest) then None
    else
      match ParseMatchers(rest[1..])
      case None => None
      case Some((ms, tail)) => Some((Selector(metric, ms), tail))
  }

  /** The text up to the first `]`, and what follows the bracket. */
  function LexWindow(s: string): Option<(string, string)> {
    if s == [] then None
    else if s[0] == ']' then Some(("", s[1..]))
    else
      match LexWindow(s[1..])
      case None => None
      case Some((w, rest)) => Some(([s[0]] + w, rest))
  }

  // ----- Durations -------------------------------------------------------------------

  /** The digits at the front of `s`. */
  function LeadingDigits(s: string): (n: nat)
    ensures n <= |s| && forall i :: 0 <= i < n ==> IsDigit(s[i])
  {
    if s == [] || !IsDigit(s[0]) then 0 else 1 + LeadingDigits(s[1..])
  }

  /** A unit: its text, its place in the order longest to shortest, and its length in milliseconds. */
  datatype Unit = Unit(text: string, place: nat, milliseconds: nat)

  const UNITS: seq<Unit> := [
    Unit("ms", 0, 1), Unit("s", 1, 1_000), Unit("m", 2, 60_000), Unit("h", 3, 3_600_000),
    Unit("d", 4, 86_400_000), Unit("w", 5, 604_800_000), Unit("y", 6, 31_536_000_000)
  ]

  /** The unit at the front of `s`; `ms` is read before `m`. */
  function UnitAt(s: string): (u: Option<Unit>)
    ensures u.Some? ==> 0 < |u.value.text| <= |s| && u.value.text <= s
  {
    if "ms" <= s then Some(UNITS[0])
    else if "s" <= s then Some(UNITS[1])
    else if "m" <= s then Some(UNITS[2])
    else if "h" <= s then Some(UNITS[3])
    else if "d" <= s then Some(UNITS[4])
    else if "w" <= s then Some(UNITS[5])
    else if "y" <= s then Some(UNITS[6])
    else None
  }

  /** Whole counts with units in falling order, each placed before `limit`; the milliseconds they add up to. */
  function Milliseconds(s: string, limit: nat): Option<nat>
    decreases |s|
  {
    if s == [] then Some(0)
    else
      var n := LeadingDigits(s);
      var unit := UnitAt(s[n..]);
      if n == 0 || unit.None? || unit.value.place >= limit then None
      else
        match Milliseconds(s[n + |unit.value.text|..], unit.value.place)
        case None => None
        case Some(rest) => Some(Decimal(s[..n]) * unit.value.milliseconds + rest)
  }

  /** A range is positive, and its nanoseconds fit an int64. */
  function RangeOf(window: string): Option<nat> {
    match Milliseconds(window, 7)
    case None => None
    case Some(ms) => if 0 < ms && ms * 1_000_000 < 0x8000_0000_0000_0000 then Some(ms) else None
  }

  // ----- Whole queries ---------------------------------------------------------------

  /** `sum(fn(selector[range]))` or a bare selector, consuming the whole text. */
  function ParseQuery(s: string): Option<Query> {
    if "sum(" <= s then
      var (fn, rest) := LexIdent(s[4..]);
      if fn == "" || !("(" <= rest) then None
      else
        match ParseSelector(rest[1..])
        case None => None
        case Some((sel, afterSel)) =>
          if !("[" <= afterSel) then None
          else
            match LexWindow(afterSel[1..])
            case None => None
            case Some((w, tail)) =>
              if tail == "))" && RangeOf(w).Some? then Some(SumOver(fn, sel, RangeOf(w).value)) else None
    else
      match ParseSelector(s)
      case None => None
      case Some((sel, tail)) => if tail == [] then Some(Instant(sel)) else None
  }

  // ----- Regular expressions ---------------------------------------------------------

  datatype Atom = Lit(c: char) | NotSlash | Any | Begin | End

  datatype Item = Item(atom: Atom, starred: bool)

  predicate Meta(c: char) {
    c in "\\.+*?()|[]{}^$"
  }

  /** One atom at the front of a pattern and what follows it. */
  function ParseAtom(p: string): Option<(Atom, string)> {
    if p == [] then None
    else if p[0] == '\\' then
      if |p| >= 2 && Meta(p[1]) then Some((Lit(p[1]), p[2..])) else None
    else if "[^/]" <= p then Some((NotSlash, p[4..]))
    else if p[0] == '.' then Some((Any, p[1..]))
    else if p[0] == '^' then Some((Begin, p[1..]))
    else if p[0] == '$' then Some((End, p[1..]))
    else if Meta(p[0]) then None
    else Some((Lit(p[0]), p[1..]))
  }

  /** A concatenation of atoms, each optionally starred; alternation and groups are outside the fragment. */
  function ParseRegex(p: string): Option<seq<Item>>
    decreases |p|
  {
    if p == [] then Some([])
    else
      match ParseAtom(p)
      case None => None
      case Some((atom, rest)) =>
        var starred := "*" <= rest;
        match ParseRegex(if starred then rest[1..] else rest)
        case None => None
        case Some(items) => Some([Item(atom, starred)] + items)
  }

  /** Whether one atom consumes the character `c`. */
  predicate Consumes(atom: Atom, c: char) {
    match atom
    case Lit(x) => x == c
    case NotSlash => c != '/'
    case Any => true
    case Begin => false
    case End => false
  }

  /** Whether `items` match the text `t` from position `i` exactly to its end. */
  predicate MatchFrom(items: seq<Item>, t: string, i: nat)
    requires i <= |t|
    decreases |items|, |t| - i
  {
    if items == [] then i == |t|
    else if items[0].starred then
      || MatchFrom(items[1..], t, i)
      || (i < |t| && Consumes(items[0].atom, t[i]) && MatchFrom(items, t, i + 1))
    else
      match items[0].atom
      case Begin => i == 0 && MatchFrom(items[1..], t, i)
      case End => i == |t| && MatchFrom(items[1..], t, i)
      case _ => i < |t| && Consumes(items[0].atom, t[i]) && MatchFrom(items[1..], t, i + 1)
  }

  /** `=~` is anchored at both ends of the label value.  A pattern that does not parse matches nothing. */
  predicate RegexAccepts(pattern: string, t: string) {
    match ParseRegex(pattern)
    case None => false
    case Some(items) => MatchFrom(items, t, 0)
  }

  // ----- Which series a selector picks -----------------------------------------------

  /** An absent label reads as the empty string. */
  function LabelOf(labels: map<string, string>, name: string): string {
    if name in labels then labels[name] else ""
  }

  predicate Satisfies(labels: map<string, string>, m: Matcher) {
    match m.op
    case Equal => LabelOf(labels, m.name) == m.value
    case Regex => RegexAccepts(m.value, LabelOf(labels, m.name))
  }

  /** A series carries the name of its metric as a label. */
  predicate Selects(sel: Selector, labels: map<string, string>) {
    && LabelOf(labels, "__name__") == sel.metric
    && forall i :: 0 <= i < |sel.matchers| ==> Satisfies(labels, sel.matchers[i])
  }

  // ----- Globs -----------------------------------------------------------------------

  /** `*` stands for any run of characters other than `/`; every other character for itself. */
  predicate GlobMatch(glob: string, id: string)
    decreases |glob|
  {
    if glob == [] then id == []
    else if glob[0] == '*' then
      exists k :: 0 <= k <= |id| && '/' !in id[..k] && GlobMatch(glob[1..], id[k..])
    else id != [] && id[0] == glob[0] && GlobMatch(glob[1..], id[1..])
  }
}
