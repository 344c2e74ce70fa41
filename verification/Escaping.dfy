/** The two textual passes of `promLabel` are one character-wise escape that the PromQL lexer undoes. */
module Escaping {
  import opened Wrappers
  import opened Text
  import opened Sources
  import PromQL

  /** The escape a reader would write: one character at a time. */
  function Escape(v: string): string {
    if v == [] then []
    else (if v[0] == '\\' || v[0] == '"' then ['\\', v[0]] else [v[0]]) + Escape(v[1..])
  }

  /** Replacing a single character works character by character. */
  lemma ReplaceCharStep(s: string, c: char, with: string)
    requires s != []
    ensures ReplaceAll(s, [c], with) == (if s[0] == c then with else [s[0]]) + ReplaceAll(s[1..], [c], with)
  {
    assert [c] <= s <==> s[0] == c;
  }

  lemma {:induction false} ReplaceCharConcat(a: string, b: string, c: char, with: string)
    ensures ReplaceAll(a + b, [c], with) == ReplaceAll(a, [c], with) + ReplaceAll(b, [c], with)
  {
    if a == [] {
      assert a + b == b;
    } else {
      hide ReplaceAll;
      assert (a + b)[1..] == a[1..] + b;
      ReplaceCharConcat(a[1..], b, c, with);
      ReplaceCharStep(a, c, with);
      ReplaceCharStep(a + b, c, with);
    }
  }

  lemma {:induction false} TwoPassesAreOne(v: string)
    ensures ReplaceAll(ReplaceAll(v, "\\", "\\\\"), "\"", "\\\"") == Escape(v)
  {
    if v != [] {
      hide ReplaceAll;
      TwoPassesAreOne(v[1..]);
      var head := if v[0] == '\\' then "\\\\" else [v[0]];
      ReplaceCharStep(v, '\\', "\\\\");
      ReplaceCharConcat(head, ReplaceAll(v[1..], "\\", "\\\\"), '"', "\\\"");
      ReplaceHead(v[0]);
    }
  }

  /** What the second pass makes of one character that went through the first. */
  lemma ReplaceHead(c: char)
    ensures ReplaceAll(if c == '\\' then "\\\\" else [c], "\"", "\\\"")
            == (if c == '\\' || c == '"' then ['\\', c] else [c])
  {
    var head := if c == '\\' then "\\\\" else [c];
    assert head[0] == c && "\""[0] == '"';
    if c == '\\' {
      assert head[1..] == "\\" && head[1..][1..] == "";
      assert !("\"" <= head[1..]);
      assert ReplaceAll("", "\"", "\\\"") == "";
      assert ReplaceAll("\\", "\"", "\\\"") == "\\";
    } else {
      assert head[1..] == "";
    }
  }

  lemma PromLabelIsCharwise(v: string)
    ensures PromLabel(v) == "\"" + Escape(v) + "\""
  {
    TwoPassesAreOne(v);
  }

  /** The lexer on one escaped character and the rest of a literal. */
  lemma LexStep(c: char, tail: string)
    ensures var s := (if c == '\\' || c == '"' then ['\\', c] else [c]) + tail;
            PromQL.LexBody(s) == if !PromQL.Quotable([c]) || PromQL.LexBody(tail).None? then None
                                 else Some(([c] + PromQL.LexBody(tail).value.0, PromQL.LexBody(tail).value.1))
  {
    var s := (if c == '\\' || c == '"' then ['\\', c] else [c]) + tail;
    if c == '\\' || c == '"' {
      assert s[2..] == tail;
    } else {
      assert s[1..] == tail;
    }
  }

  lemma LexEnd(rest: string)
    ensures PromQL.LexBody("\"" + rest) == Some(("", rest))
  {
    assert ("\"" + rest)[1..] == rest;
  }

  /** The lexer reads exactly the escaped text, whatever follows, and fails exactly on an unquotable one. */
  lemma {:induction false} LexUndoesEscape(v: string, rest: string)
    ensures PromQL.LexBody(Escape(v) + "\"" + rest) == (if PromQL.Quotable(v) then Some((v, rest)) else None)
  {
    hide PromQL.LexBody;
    if v == [] {
      LexEnd(rest);
      assert Escape(v) + "\"" + rest == "\"" + rest;
    } else {
      LexUndoesEscape(v[1..], rest);
      var tail := Escape(v[1..]) + "\"" + rest;
      LexStep(v[0], tail);
      assert Escape(v) + "\"" + rest == (if v[0] == '\\' || v[0] == '"' then ['\\', v[0]] else [v[0]]) + tail;
      assert v == [v[0]] + v[1..];
    }
  }

  /**
   * Round trip: in front of any text, the literal lexes back to the value and leaves the text;
   * a value with a newline or U+FFFD in it has no readable literal at all.
   */
  lemma LabelRoundTrip(v: string, rest: string)
    ensures PromQL.LexString(PromLabel(v) + rest) == if PromQL.Quotable(v) then Some((v, rest)) else None
  {
    PromLabelIsCharwise(v);
    assert (PromLabel(v) + rest)[1..] == Escape(v) + "\"" + rest;
    LexUndoesEscape(v, rest);
  }

  lemma LabelsAreDistinct(v: string, w: string, restV: string, restW: string)
    requires PromQL.Quotable(v) && PromQL.Quotable(w)
    requires PromLabel(v) + restV == PromLabel(w) + restW
    ensures v == w && restV == restW
  {
    LabelRoundTrip(v, restV);
    LabelRoundTrip(w, restW);
  }
}
