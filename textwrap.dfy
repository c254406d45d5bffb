/**
 * `wrap_text` (deck_pdf_generator/render.py): greedy packing of the words of
 * a text into lines no wider than `maxWidth`, against a width measure (the
 * font's `stringWidth` at the body font and size).
 */
module TextWrap {
  import opened Strings

  /** `text.replace("\n", " ")`. */
  function NewlinesToSpaces(s: string): (r: string)
    ensures |r| == |s|
    ensures forall k :: 0 <= k < |s| ==> r[k] == if s[k] == '\n' then ' ' else s[k]
  {
    seq(|s|, k requires 0 <= k < |s| => if s[k] == '\n' then ' ' else s[k])
  }

  /** The loop state: the finished lines and the words of the line being filled. */
  datatype WrapState = WrapState(lines: seq<string>, cur: seq<string>)

  /** One iteration of the loop, for word `w`. */
  function Step(st: WrapState, w: string, maxWidth: real, measure: string -> real): WrapState {
    var trial := Strip(Join(" ", st.cur + [w]));
    if trial == "" then st
    else if measure(trial) <= maxWidth then WrapState(st.lines, st.cur + [w])
    else if st.cur != [] then WrapState(st.lines + [Join(" ", st.cur)], [w])
    else WrapState(st.lines + [w], [])
  }

  /** The state after the loop has consumed `ws`, in order. */
  function Run(ws: seq<string>, maxWidth: real, measure: string -> real): WrapState
    decreases |ws|
  {
    if ws == [] then WrapState([], [])
    else Step(Run(ws[..|ws| - 1], maxWidth, measure), ws[|ws| - 1], maxWidth, measure)
  }

  lemma RunPrefix(ws: seq<string>, i: nat, maxWidth: real, measure: string -> real)
    requires i < |ws|
    ensures Run(ws[..i + 1], maxWidth, measure) == Step(Run(ws[..i], maxWidth, measure), ws[i], maxWidth, measure)
  {
    assert ws[..i + 1][..i] == ws[..i];
  }

  /** Flushing the pending line after the loop. */
  function Finish(st: WrapState): seq<string> {
    if st.cur != [] then st.lines + [Join(" ", st.cur)] else st.lines
  }

  /**
   * The lines `wrap_text` returns: none of them is empty, and there are none
   * exactly when the text is whitespace only (that they hold the words of the
   * text, fit and are packed greedily is `WrapProperties`).
   */
  function Wrap(text: string, maxWidth: real, measure: string -> real): (r: seq<string>)
    ensures forall i :: 0 <= i < |r| ==> r[i] != ""
    ensures r == [] <==> forall k :: 0 <= k < |text| ==> IsSpace(text[k])
  {
    var ws := Words(NewlinesToSpaces(text));
    WordsIgnoreNewlines(text);
    RunInv(ws, maxWidth, measure);
    FinishInv(Run(ws, maxWidth, measure), ws, maxWidth, measure);
    LinesHaveWords(Finish(Run(ws, maxWidth, measure)));
    WordsEmpty(text);
    Finish(Run(ws, maxWidth, measure))
  }

  // ---------------------------------------------------------------- what the result satisfies

  /** The words of the lines, line after line. */
  function LineWords(lines: seq<string>): seq<string>
    decreases |lines|
  {
    if lines == [] then [] else LineWords(lines[..|lines| - 1]) + Words(lines[|lines| - 1])
  }

  /** Each line holds at least one word and is its words joined by single spaces. */
  predicate SingleSpaced(lines: seq<string>) {
    forall i :: 0 <= i < |lines| ==> Words(lines[i]) != [] && lines[i] == Join(" ", Words(lines[i]))
  }

  /** Each line fits the width or is a single word. */
  predicate FitsOrLone(lines: seq<string>, maxWidth: real, measure: string -> real) {
    forall i :: 0 <= i < |lines| ==> measure(lines[i]) <= maxWidth || |Words(lines[i])| == 1
  }

  /** `line` could not have taken `w`: it is too wide already, or would become so. */
  predicate Full(line: string, w: string, maxWidth: real, measure: string -> real) {
    measure(line) > maxWidth || measure(line + " " + w) > maxWidth
  }

  /** `line` could not have taken the first word of `next`. */
  predicate Tight(line: string, next: string, maxWidth: real, measure: string -> real) {
    Words(next) != [] && Full(line, Words(next)[0], maxWidth, measure)
  }

  /** No line could have taken the next line's first word. */
  predicate Greedy(lines: seq<string>, maxWidth: real, measure: string -> real) {
    forall i, j :: 0 <= i < |lines| && 0 <= j < |lines| && j == i + 1 ==> Tight(lines[i], lines[j], maxWidth, measure)
  }

  /** What the loop keeps true of its state after consuming `ws`. */
  predicate Inv(st: WrapState, ws: seq<string>, maxWidth: real, measure: string -> real) {
    && LineWords(st.lines) + st.cur == ws
    && SingleSpaced(st.lines)
    && FitsOrLone(st.lines, maxWidth, measure)
    && Greedy(st.lines, maxWidth, measure)
    && AllWords(st.cur)
    && (|st.cur| >= 2 ==> measure(Join(" ", st.cur)) <= maxWidth)
    && (|st.lines| > 0 ==>
          measure(st.lines[|st.lines| - 1]) > maxWidth
          || (st.cur != [] && Full(st.lines[|st.lines| - 1], st.cur[0], maxWidth, measure)))
  }

  // ---------------------------------------------------------------- proofs

  lemma LineWordsSnoc(lines: seq<string>, line: string)
    ensures LineWords(lines + [line]) == LineWords(lines) + Words(line)
  {
    assert (lines + [line])[..|lines|] == lines;
  }

  /** Appending a line that is a non-empty group of words joined by spaces keeps each line well formed. */
  lemma AppendLineShape(lines: seq<string>, g: seq<string>, maxWidth: real, measure: string -> real)
    requires SingleSpaced(lines) && FitsOrLone(lines, maxWidth, measure)
    requires AllWords(g) && g != []
    requires |g| == 1 || measure(Join(" ", g)) <= maxWidth
    ensures LineWords(lines + [Join(" ", g)]) == LineWords(lines) + g
    ensures SingleSpaced(lines + [Join(" ", g)])
    ensures FitsOrLone(lines + [Join(" ", g)], maxWidth, measure)
  {
    var line := Join(" ", g);
    var lines' := lines + [line];
    WordsOfJoin(g);
    LineWordsSnoc(lines, line);
    forall i | 0 <= i < |lines'|
      ensures Words(lines'[i]) != [] && lines'[i] == Join(" ", Words(lines'[i]))
      ensures measure(lines'[i]) <= maxWidth || |Words(lines'[i])| == 1
    {
      if i < |lines| { assert lines'[i] == lines[i]; }
    }
  }

  /** Appending a line that the previous one could not have absorbed keeps the lines greedy. */
  lemma AppendLineGreedy(lines: seq<string>, line: string, maxWidth: real, measure: string -> real)
    requires Greedy(lines, maxWidth, measure)
    requires |lines| > 0 ==> Tight(lines[|lines| - 1], line, maxWidth, measure)
    ensures Greedy(lines + [line], maxWidth, measure)
  {
    var lines' := lines + [line];
    forall i, j | 0 <= i < |lines'| && 0 <= j < |lines'| && j == i + 1
      ensures Tight(lines'[i], lines'[j], maxWidth, measure)
    {
      if j < |lines| {
        assert lines'[i] == lines[i] && lines'[j] == lines[j];
      } else {
        assert lines'[i] == lines[|lines| - 1] && lines'[j] == line;
      }
    }
  }

  lemma AppendLine(lines: seq<string>, g: seq<string>, maxWidth: real, measure: string -> real)
    requires SingleSpaced(lines) && FitsOrLone(lines, maxWidth, measure) && Greedy(lines, maxWidth, measure)
    requires AllWords(g) && g != []
    requires |g| == 1 || measure(Join(" ", g)) <= maxWidth
    requires |lines| > 0 ==> Full(lines[|lines| - 1], g[0], maxWidth, measure)
    ensures LineWords(lines + [Join(" ", g)]) == LineWords(lines) + g
    ensures SingleSpaced(lines + [Join(" ", g)])
    ensures FitsOrLone(lines + [Join(" ", g)], maxWidth, measure)
    ensures Greedy(lines + [Join(" ", g)], maxWidth, measure)
  {
    AppendLineShape(lines, g, maxWidth, measure);
    WordsOfJoin(g);
    assert |lines| > 0 ==> Tight(lines[|lines| - 1], Join(" ", g), maxWidth, measure);
    AppendLineGreedy(lines, Join(" ", g), maxWidth, measure);
  }

  /** The `if not trial: continue` branch is never taken: every word is non-empty and whitespace-free. */
  lemma TrialNeverEmpty(cur: seq<string>, w: string)
    requires AllWords(cur) && IsWord(w)
    ensures Strip(Join(" ", cur + [w])) == Join(" ", cur + [w]) != ""
  {
    JoinWordsClean(cur + [w]);
    StripClean(Join(" ", cur + [w]));
  }

  /** The trial line fits: the word joins the pending line. */
  lemma StepExtends(st: WrapState, ws: seq<string>, w: string, maxWidth: real, measure: string -> real)
    requires Inv(st, ws, maxWidth, measure) && IsWord(w)
    requires measure(Join(" ", st.cur + [w])) <= maxWidth
    ensures Inv(WrapState(st.lines, st.cur + [w]), ws + [w], maxWidth, measure)
  {
    assert LineWords(st.lines) + (st.cur + [w]) == (LineWords(st.lines) + st.cur) + [w];
  }

  /** The trial line is too wide and a line is pending: it is flushed and the word starts the next. */
  lemma StepFlushes(st: WrapState, ws: seq<string>, w: string, maxWidth: real, measure: string -> real)
    requires Inv(st, ws, maxWidth, measure) && IsWord(w) && st.cur != []
    requires measure(Join(" ", st.cur + [w])) > maxWidth
    ensures Inv(WrapState(st.lines + [Join(" ", st.cur)], [w]), ws + [w], maxWidth, measure)
  {
    var line := Join(" ", st.cur);
    assert |st.lines| > 0 ==> Full(st.lines[|st.lines| - 1], st.cur[0], maxWidth, measure);
    AppendLine(st.lines, st.cur, maxWidth, measure);
    JoinSnoc(" ", st.cur, w);
    var lines := st.lines + [line];
    assert LineWords(lines) == ws;
    assert lines[|lines| - 1] == line;
    assert Full(line, w, maxWidth, measure);
  }

  /** The trial line is a lone word that is too wide: it becomes a line of its own. */
  lemma StepLone(st: WrapState, ws: seq<string>, w: string, maxWidth: real, measure: string -> real)
    requires Inv(st, ws, maxWidth, measure) && IsWord(w) && st.cur == []
    requires measure(w) > maxWidth
    ensures Inv(WrapState(st.lines + [w], []), ws + [w], maxWidth, measure)
  {
    assert Join(" ", [w]) == w;
    AppendLine(st.lines, [w], maxWidth, measure);
    var lines := st.lines + [w];
    assert lines[|lines| - 1] == w;
  }

  lemma StepInv(st: WrapState, ws: seq<string>, w: string, maxWidth: real, measure: string -> real)
    requires Inv(st, ws, maxWidth, measure) && IsWord(w)
    ensures Inv(Step(st, w, maxWidth, measure), ws + [w], maxWidth, measure)
  {
    TrialNeverEmpty(st.cur, w);
    var trial := Join(" ", st.cur + [w]);
    if measure(trial) <= maxWidth {
      StepExtends(st, ws, w, maxWidth, measure);
    } else if st.cur != [] {
      StepFlushes(st, ws, w, maxWidth, measure);
    } else {
      assert trial == w;
      StepLone(st, ws, w, maxWidth, measure);
    }
  }

  lemma {:induction false} RunInv(ws: seq<string>, maxWidth: real, measure: string -> real)
    requires AllWords(ws)
    ensures Inv(Run(ws, maxWidth, measure), ws, maxWidth, measure)
    decreases |ws|
  {
    if ws != [] {
      var pre, w := ws[..|ws| - 1], ws[|ws| - 1];
      assert pre + [w] == ws;
      assert AllWords(pre) && IsWord(w);
      RunInv(pre, maxWidth, measure);
      var st := Run(pre, maxWidth, measure);
      StepInv(st, pre, w, maxWidth, measure);
      assert Run(ws, maxWidth, measure) == Step(st, w, maxWidth, measure);
    }
  }

  lemma FinishInv(st: WrapState, ws: seq<string>, maxWidth: real, measure: string -> real)
    requires Inv(st, ws, maxWidth, measure)
    ensures LineWords(Finish(st)) == ws
    ensures SingleSpaced(Finish(st))
    ensures FitsOrLone(Finish(st), maxWidth, measure)
    ensures Greedy(Finish(st), maxWidth, measure)
  {
    if st.cur != [] {
      AppendLine(st.lines, st.cur, maxWidth, measure);
    }
  }

  /** Newlines wrap exactly as spaces do: `split()` already breaks at them, and no paragraph survives. */
  lemma {:induction false} WordsIgnoreNewlines(s: string)
    ensures Words(NewlinesToSpaces(s)) == Words(s)
    decreases |s|
  {
    var r := NewlinesToSpaces(s);
    if s != [] {
      if IsSpace(s[0]) {
        assert r[1..] == NewlinesToSpaces(s[1..]);
        WordsIgnoreNewlines(s[1..]);
      } else {
        var n := RunLength(s);
        RunLengthUnique(r, n);
        assert r[..n] == s[..n];
        assert r[n..] == NewlinesToSpaces(s[n..]);
        WordsIgnoreNewlines(s[n..]);
      }
    }
  }

  lemma LinesHaveWords(lines: seq<string>)
    requires SingleSpaced(lines)
    ensures lines != [] ==> LineWords(lines) != []
    ensures forall i :: 0 <= i < |lines| ==> lines[i] != ""
  {
    if lines != [] {
      assert Words(lines[|lines| - 1]) != [];
    }
  }

  /**
   * What a correct wrapping of `text` is: the words of the lines are the words
   * of the text, in order, none dropped or repeated; no line is empty and each
   * is its words joined by single spaces; each line fits or is a single word;
   * and lines are packed greedily.
   */
  predicate WellWrapped(lines: seq<string>, text: string, maxWidth: real, measure: string -> real) {
    && LineWords(lines) == Words(text)
    && (forall i :: 0 <= i < |lines| ==> lines[i] != "")
    && SingleSpaced(lines)
    && FitsOrLone(lines, maxWidth, measure)
    && Greedy(lines, maxWidth, measure)
  }

  /** `wrap_text` wraps correctly. */
  lemma WrapProperties(text: string, maxWidth: real, measure: string -> real)
    ensures WellWrapped(Wrap(text, maxWidth, measure), text, maxWidth, measure)
  {
    var ws := Words(NewlinesToSpaces(text));
    WordsIgnoreNewlines(text);
    RunInv(ws, maxWidth, measure);
    FinishInv(Run(ws, maxWidth, measure), ws, maxWidth, measure);
  }

  /** A newline and a space in the same place give the same lines. */
  lemma NewlineWrapsAsSpace(a: string, b: string, maxWidth: real, measure: string -> real)
    ensures Wrap(a + "\n" + b, maxWidth, measure) == Wrap(a + " " + b, maxWidth, measure)
  {
    assert NewlinesToSpaces(a + "\n" + b) == NewlinesToSpaces(a + " " + b);
  }

  // ---------------------------------------------------------------- the loop

  /** `wrap_text(c, text, max_width, font_name, font_size)` with `measure` the font's width function. */
  method WrapText(text: string, maxWidth: real, measure: string -> real) returns (lines: seq<string>)
    ensures lines == Wrap(text, maxWidth, measure)
  {
    var words := Words(NewlinesToSpaces(text));
    lines := [];
    var cur: seq<string> := [];
    for i := 0 to |words|
      invariant WrapState(lines, cur) == Run(words[..i], maxWidth, measure)
    {
      var w := words[i];
      RunPrefix(words, i, maxWidth, measure);
      var trial := Strip(Join(" ", cur + [w]));
      if trial == "" {
        // `continue`: nothing changes
      } else if measure(trial) <= maxWidth {
        cur := cur + [w];
      } else if cur != [] {
        lines := lines + [Join(" ", cur)];
        cur := [w];
      } else {
        lines := lines + [w];
      }
    }
    assert words[..|words|] == words;
    if cur != [] {
      lines := lines + [Join(" ", cur)];
    }
    assert lines == Wrap(text, maxWidth, measure);
  }
}
