/**
 * `KimiK2GUI.format_latex`: on every line that does not already contain `$$`,
 * each dollar sign that is not preceded by a backslash in the input line is
 * written out as `$$`; everything else is copied. The toggled `in_math` flag of
 * the source picks between two identical strings, so it never changes the output.
 */
module Latex {
  import opened Text

  /** `'$$' in line`. */
  predicate HasDoubleDollar(line: string)
  {
    exists k :: 0 <= k < |line| - 1 && line[k] == '$' && line[k + 1] == '$'
  }

  /** The source's test for the character at `i`: a dollar at the start or after anything but a backslash. */
  predicate UnescapedAt(line: string, i: nat)
    requires i < |line|
  {
    line[i] == '$' && (i == 0 || line[i - 1] != '\\')
  }

  /** What the inner loop appends for the character at `i`. */
  function Emit(line: string, i: nat): string
    requires i < |line|
  {
    if UnescapedAt(line, i) then "$$" else [line[i]]
  }

  /** What the inner loop appends from index `i` to the end of the line. */
  function ExpandFrom(line: string, i: nat): string
    requires i <= |line|
    decreases |line| - i
  {
    if i == |line| then "" else Emit(line, i) + ExpandFrom(line, i + 1)
  }

  /** One line of output. */
  function FormatLine(line: string): string
  {
    if HasDoubleDollar(line) then line else ExpandFrom(line, 0)
  }

  function FormatLines(lines: seq<string>): (r: seq<string>)
    ensures |r| == |lines|
    ensures forall k :: 0 <= k < |lines| ==> r[k] == FormatLine(lines[k])
  {
    seq(|lines|, k requires 0 <= k < |lines| => FormatLine(lines[k]))
  }

  /** The value `format_latex(text)` returns. */
  function FormatLatexSpec(text: string): string
  {
    Join(FormatLines(Split(text)))
  }

  /** The character loop of `format_latex` for one line without `$$`, with its (dead) `in_math` flag. */
  method ExpandLine(line: string) returns (newLine: string)
    ensures newLine == ExpandFrom(line, 0)
  {
    var inMath := false;
    newLine := "";
    for i := 0 to |line|
      invariant newLine + ExpandFrom(line, i) == ExpandFrom(line, 0)
    {
      AppendAssociative(newLine, Emit(line, i), ExpandFrom(line, i + 1));
      if line[i] == '$' && (i == 0 || line[i - 1] != '\\') {
        inMath := !inMath;
        newLine := newLine + (if inMath then "$$" else "$$");
      } else {
        newLine := newLine + [line[i]];
      }
    }
  }

  /** `format_latex`, with its loop over the lines. */
  method FormatLatex(text: string) returns (out: string)
    ensures out == FormatLatexSpec(text)
  {
    var lines := Split(text);
    var formattedLines: seq<string> := [];
    for k := 0 to |lines|
      invariant |formattedLines| == k
      invariant forall j :: 0 <= j < k ==> formattedLines[j] == FormatLine(lines[j])
    {
      var line := lines[k];
      if HasDoubleDollar(line) {
        formattedLines := formattedLines + [line];
        continue;
      }
      var newLine := ExpandLine(line);
      formattedLines := formattedLines + [newLine];
    }
    assert formattedLines == FormatLines(lines);
    out := Join(formattedLines);
  }

  /** Number of unescaped dollar signs from index `i` on. */
  function UnescapedCountFrom(line: string, i: nat): nat
    requires i <= |line|
    decreases |line| - i
  {
    if i == |line| then 0
    else (if UnescapedAt(line, i) then 1 else 0) + UnescapedCountFrom(line, i + 1)
  }

  /** Reads `$$` back as `$`: the inverse of the rewriting on a line without `$$`. */
  function Undouble(s: string): string
  {
    if |s| >= 2 && s[0] == '$' && s[1] == '$' then "$" + Undouble(s[2..])
    else if s == [] then ""
    else [s[0]] + Undouble(s[1..])
  }

  lemma {:induction false} ExpandFromNoNewline(line: string, i: nat)
    requires i <= |line| && NoNewline(line)
    ensures NoNewline(ExpandFrom(line, i))
    decreases |line| - i
  {
    if i < |line| {
      ExpandFromNoNewline(line, i + 1);
      assert line[i] != '\n';
    }
  }

  lemma {:induction false} ExpandFromLength(line: string, i: nat)
    requires i <= |line|
    ensures |ExpandFrom(line, i)| == |line| - i + UnescapedCountFrom(line, i)
    decreases |line| - i
  {
    if i < |line| {
      ExpandFromLength(line, i + 1);
    }
  }

  /** The first character written for index `i` onwards: a `$` for a dollar, the character itself otherwise. */
  lemma ExpandFromHead(line: string, i: nat)
    requires i < |line|
    ensures |ExpandFrom(line, i)| > 0 && ExpandFrom(line, i)[0] == line[i]
  {
  }

  lemma {:induction false} UndoubleExpandFrom(line: string, i: nat)
    requires i <= |line| && !HasDoubleDollar(line)
    ensures Undouble(ExpandFrom(line, i)) == line[i..]
    decreases |line| - i
  {
    if i < |line| {
      var rest := ExpandFrom(line, i + 1);
      UndoubleExpandFrom(line, i + 1);
      assert line[i..] == [line[i]] + line[i + 1..];
      if UnescapedAt(line, i) {
        assert ExpandFrom(line, i) == "$$" + rest;
        assert ("$$" + rest)[2..] == rest;
      } else {
        assert ExpandFrom(line, i) == [line[i]] + rest;
        assert ([line[i]] + rest)[1..] == rest;
        if line[i] == '$' && i + 1 < |line| {
          assert line[i + 1] != '$';
          ExpandFromHead(line, i + 1);
        }
      }
    }
  }

  /**
   * Round trip: on a line without `$$`, reading every `$$` of the output back as
   * `$` restores the input line, so the rewriting loses and invents nothing.
   */
  lemma FormatLineRoundTrip(line: string)
    requires !HasDoubleDollar(line)
    ensures Undouble(FormatLine(line)) == line
  {
    UndoubleExpandFrom(line, 0);
  }

  /** On a line without `$$` the output grows by one character per unescaped dollar sign. */
  lemma FormatLineLength(line: string)
    requires !HasDoubleDollar(line)
    ensures |FormatLine(line)| == |line| + UnescapedCountFrom(line, 0)
  {
    ExpandFromLength(line, 0);
  }

  lemma {:induction false} CountZeroIffNoneUnescaped(line: string, i: nat)
    requires i <= |line|
    ensures UnescapedCountFrom(line, i) == 0 <==> forall k :: i <= k < |line| ==> !UnescapedAt(line, k)
    decreases |line| - i
  {
    if i < |line| {
      CountZeroIffNoneUnescaped(line, i + 1);
    }
  }

  lemma {:induction false} ExpandFromIdentity(line: string, i: nat)
    requires i <= |line|
    requires forall k :: i <= k < |line| ==> !UnescapedAt(line, k)
    ensures ExpandFrom(line, i) == line[i..]
    decreases |line| - i
  {
    if i < |line| {
      ExpandFromIdentity(line, i + 1);
      assert line[i..] == [line[i]] + line[i + 1..];
    }
  }

  /**
   * A line comes out unchanged exactly when it already holds `$$` or every dollar
   * sign on it is preceded by a backslash (an escaped `\$` stays a single `$`).
   */
  lemma FormatLineUnchangedIff(line: string)
    ensures FormatLine(line) == line
        <==> HasDoubleDollar(line) || forall k :: 0 <= k < |line| ==> !UnescapedAt(line, k)
  {
    CountZeroIffNoneUnescaped(line, 0);
    if !HasDoubleDollar(line) {
      FormatLineLength(line);
      if forall k :: 0 <= k < |line| ==> !UnescapedAt(line, k) {
        ExpandFromIdentity(line, 0);
      }
    }
  }

  lemma FormatLineNoNewline(line: string)
    requires NoNewline(line)
    ensures NoNewline(FormatLine(line))
  {
    if !HasDoubleDollar(line) {
      ExpandFromNoNewline(line, 0);
    }
  }

  /**
   * The output has as many newline-separated lines as the input, in the same
   * order, and line `k` of the output is line `k` of the input formatted alone.
   */
  lemma FormatLatexLines(text: string)
    ensures |Split(FormatLatexSpec(text))| == |Split(text)|
    ensures forall k :: 0 <= k < |Split(text)| ==> Split(FormatLatexSpec(text))[k] == FormatLine(Split(text)[k])
  {
    var lines := Split(text);
    var out := FormatLines(lines);
    forall k | 0 <= k < |out| ensures NoNewline(out[k]) {
      FormatLineNoNewline(lines[k]);
    }
    SplitJoin(out);
  }

  /** A line of the input that contains `$$` is the same line of the output. */
  lemma DisplayMathLineUnchanged(text: string, k: nat)
    requires k < |Split(text)| && HasDoubleDollar(Split(text)[k])
    ensures |Split(FormatLatexSpec(text))| == |Split(text)|
    ensures Split(FormatLatexSpec(text))[k] == Split(text)[k]
  {
    FormatLatexLines(text);
  }

  /** Text without any dollar sign is returned as it is. */
  lemma NoDollarUnchanged(text: string)
    requires '$' !in text
    ensures FormatLatexSpec(text) == text
  {
    var lines := Split(text);
    forall k | 0 <= k < |lines| ensures FormatLines(lines)[k] == lines[k] {
      if !HasDoubleDollar(lines[k]) {
        assert forall j :: 0 <= j < |lines[k]| ==> !UnescapedAt(lines[k], j) by {
          forall j | 0 <= j < |lines[k]| ensures lines[k][j] != '$' {
            SplitCharsFrom(text, k, j);
          }
        }
        FormatLineUnchangedIff(lines[k]);
      }
    }
    assert FormatLines(lines) == lines;
    JoinSplit(text);
  }

  /** Every character of a split line is a character of the text. */
  lemma {:induction false} SplitCharsFrom(text: string, k: nat, j: nat)
    requires k < |Split(text)| && j < |Split(text)[k]|
    ensures Split(text)[k][j] in text
  {
    if text != [] {
      var rest := Split(text[1..]);
      if text[0] == '\n' {
        if k > 0 {
          SplitCharsFrom(text[1..], k - 1, j);
        }
      } else if k == 0 {
        if j > 0 {
          SplitCharsFrom(text[1..], 0, j - 1);
        }
      } else {
        SplitCharsFrom(text[1..], k, j);
      }
    }
  }

  /** Number of unescaped dollar signs before index `i`. */
  function UnescapedBefore(line: string, i: nat): nat
    requires i <= |line|
  {
    if i == 0 then 0 else UnescapedBefore(line, i - 1) + (if UnescapedAt(line, i - 1) then 1 else 0)
  }

  /** Where input character `i` lands in what the character loop writes from index `j` on. */
  lemma {:induction false} ExpandFromAt(line: string, j: nat, i: nat)
    requires j <= i < |line|
    ensures UnescapedBefore(line, j) <= UnescapedBefore(line, i)
    ensures var at := i - j + UnescapedBefore(line, i) - UnescapedBefore(line, j);
      at + (if UnescapedAt(line, i) then 1 else 0) < |ExpandFrom(line, j)|
      && ExpandFrom(line, j)[at] == line[i]
      && (UnescapedAt(line, i) ==> ExpandFrom(line, j)[at + 1] == '$')
    decreases i - j
  {
    if j < i {
      ExpandFromAt(line, j + 1, i);
      assert UnescapedBefore(line, j + 1) == UnescapedBefore(line, j) + (if UnescapedAt(line, j) then 1 else 0);
      assert ExpandFrom(line, j) == Emit(line, j) + ExpandFrom(line, j + 1);
    }
  }

  /**
   * On a line without `$$`, input character `i` is written at position `i` plus
   * the number of unescaped dollars before it; an unescaped dollar is followed by
   * a second `$`, and anything else (an escaped `$` included) by the next input
   * character, so the characters keep their order.
   */
  lemma FormatLineAt(line: string, i: nat)
    requires !HasDoubleDollar(line) && i < |line|
    ensures i + UnescapedBefore(line, i) < |FormatLine(line)|
    ensures FormatLine(line)[i + UnescapedBefore(line, i)] == line[i]
    ensures UnescapedAt(line, i) ==>
      i + UnescapedBefore(line, i) + 1 < |FormatLine(line)| && FormatLine(line)[i + UnescapedBefore(line, i) + 1] == '$'
    ensures (i + 1) + UnescapedBefore(line, i + 1) == i + UnescapedBefore(line, i) + (if UnescapedAt(line, i) then 2 else 1)
  {
    ExpandFromAt(line, 0, i);
  }

  /** Inline math written with single dollars comes out with doubled ones. */
  lemma InlineMathDoubled()
    ensures FormatLatexSpec("a $x$") == "a $$x$$"
  {
    var line := "a $x$";
    assert NoNewline(line);
    SplitSingle(line);
    assert !HasDoubleDollar(line) by {
      forall k | 0 <= k < |line| - 1 ensures !(line[k] == '$' && line[k + 1] == '$') {
      }
    }
    assert ExpandFrom(line, 5) == "";
    assert ExpandFrom(line, 4) == "$$";
    assert ExpandFrom(line, 3) == "x$$";
    assert ExpandFrom(line, 2) == "$$x$$";
    assert ExpandFrom(line, 1) == " $$x$$";
    assert ExpandFrom(line, 0) == "a $$x$$";
    assert FormatLines([line]) == ["a $$x$$"];
  }
}
