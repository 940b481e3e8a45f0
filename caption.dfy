/**
 The caption overlay: the quote escape applied to `hookText`, the vertical
 anchor chosen from `hookPosition`, the greedy word wrap at a 27-character
 budget, and the per-line `drawtext` filters that are joined by commas into
 the `-vf` chain of the first transcode (server.js, lines 187-256).

 Lengths are counted in `char`s, and a `char` stands for one UTF-16 code unit
 (see the module `Text`): the 27-character budget and the test
 `escapedText.length <= lineLength` count code units, as JavaScript does, so a
 caption of 14 emoji has length 28 and is wrapped.
 */
module Caption {
  import opened Wrappers
  import opened Text

  // ---------------------------------------------------------------------------
  // Escaping

  const QUOTE: char := '\''

  /** What each quote becomes: close the quoted literal, an escaped quote, reopen it. */
  const ESCAPED_QUOTE: string := "'\\''"

  /** `hookText.replace(/'/g, "'\\''")`. */
  function Escape(s: string): string
  {
    if |s| == 0 then ""
    else (if s[0] == QUOTE then ESCAPED_QUOTE else [s[0]]) + Escape(s[1..])
  }

  /** Replaces each `'\''` by a single quote again, scanning left to right. */
  function Unescape(s: string): string
    decreases |s|
  {
    if |s| >= 4 && s[..4] == ESCAPED_QUOTE then [QUOTE] + Unescape(s[4..])
    else if |s| == 0 then ""
    else [s[0]] + Unescape(s[1..])
  }

  function Occurrences(s: string, c: char): nat
  {
    if |s| == 0 then 0 else (if s[0] == c then 1 else 0) + Occurrences(s[1..], c)
  }

  /** Undoing the escape gives back the caption exactly. */
  lemma {:induction false} UnescapeEscape(s: string)
    ensures Unescape(Escape(s)) == s
    decreases |s|
  {
    if |s| > 0 {
      var rest := Escape(s[1..]);
      UnescapeEscape(s[1..]);
      if s[0] == QUOTE {
        var e := ESCAPED_QUOTE + rest;
        assert e[..4] == ESCAPED_QUOTE && e[4..] == rest;
      } else {
        var e := [s[0]] + rest;
        assert e[0] != QUOTE;
        assert e[1..] == rest;
      }
      assert s == [s[0]] + s[1..];
    }
  }

  /** Each quote grows by three characters; a caption without quotes is left as it is. */
  lemma {:induction false} EscapeLength(s: string)
    ensures |Escape(s)| == |s| + 3 * Occurrences(s, QUOTE)
    ensures Occurrences(s, QUOTE) == 0 <==> QUOTE !in s
    ensures QUOTE !in s ==> Escape(s) == s
    decreases |s|
  {
    if |s| > 0 {
      EscapeLength(s[1..]);
      assert s == [s[0]] + s[1..];
      assert QUOTE in s <==> s[0] == QUOTE || QUOTE in s[1..];
    }
  }

  // ---------------------------------------------------------------------------
  // Anchors and y expressions

  datatype Anchor = Top | Middle | Bottom

  /** The `switch (hookPosition)`: 'top', 'bottom', and 'middle' for anything else or nothing. */
  function AnchorOf(hookPosition: Option<string>): Anchor
  {
    if hookPosition == Some("top") then Top
    else if hookPosition == Some("bottom") then Bottom
    else Middle
  }

  /** The y of a caption that fits on one line. */
  function SingleLineY(anchor: Anchor): string
  {
    match anchor
    case Top => "(h/10)"
    case Bottom => "(h*9/10)"
    case Middle => "(h/2)"
  }

  const FONT_SIZE: string := "min(32\\,w/20)"
  const LINE_HEIGHT: string := FONT_SIZE + "*1.5"

  /** `${lines.length}*${lineHeight}`: the height of the whole block. */
  function TotalHeight(lineCount: nat): string
  {
    NatToString(lineCount) + "*" + LINE_HEIGHT
  }

  /** Where a block of `lineCount` lines starts. */
  function BlockStart(anchor: Anchor, lineCount: nat): string
  {
    match anchor
    case Top => "(h/8)"
    case Bottom => "(h*7/8)-(" + TotalHeight(lineCount) + ")"
    case Middle => "(h-" + TotalHeight(lineCount) + ")/2"
  }

  /** `(${startY}+${index}*${lineHeight})`: the y of line `index` of a block. */
  function LineY(start: string, index: nat): string
  {
    "(" + start + "+" + NatToString(index) + "*" + LINE_HEIGHT + ")"
  }

  // ---------------------------------------------------------------------------
  // Word wrap

  const MAX_LINE_LENGTH: nat := 27

  /** The loop variables of the wrap: the finished lines and `currentLine`. */
  datatype WrapState = WrapState(lines: seq<string>, current: string)

  /** One iteration of the wrap loop, for one word. */
  function WrapStep(st: WrapState, word: string, width: nat): WrapState
  {
    if |st.current + word| > width && |st.current| > 0 then
      WrapState(st.lines + [st.current], word)
    else
      WrapState(st.lines, st.current + (if |st.current| > 0 then " " else "") + word)
  }

  /** The loop state after the given words. */
  function WrapFold(words: seq<string>, width: nat): WrapState
    decreases |words|
  {
    if |words| == 0 then WrapState([], "")
    else WrapStep(WrapFold(words[..|words| - 1], width), words[|words| - 1], width)
  }

  /** The lines of the wrap: the finished lines and the last one, when it is not empty. */
  function Wrap(words: seq<string>, width: nat): seq<string>
  {
    var st := WrapFold(words, width);
    if |st.current| > 0 then st.lines + [st.current] else st.lines
  }

  /** The wrap loop, pushing onto `lines` and rebuilding `currentLine` word by word. */
  method WrapWords(words: seq<string>, width: nat) returns (lines: seq<string>)
    ensures lines == Wrap(words, width)
  {
    lines := [];
    var currentLine := "";
    var i := 0;
    while i < |words|
      invariant 0 <= i <= |words|
      invariant WrapFold(words[..i], width) == WrapState(lines, currentLine)
    {
      var word := words[i];
      if |currentLine + word| > width && |currentLine| > 0 {
        lines := lines + [currentLine];
        currentLine := word;
      } else {
        currentLine := currentLine + (if |currentLine| > 0 then " " else "") + word;
      }
      assert words[..i + 1][..i] == words[..i];
      i := i + 1;
    }
    assert words[..i] == words;
    if |currentLine| > 0 {
      lines := lines + [currentLine];
    }
  }

  /** A line is a single word of the input, or several words in at most `width + 1` characters. */
  predicate IsWordOrFits(line: string, words: seq<string>, width: nat)
  {
    line in words || (' ' in line && |line| <= width + 1)
  }

  predicate NoEmptyWord(words: seq<string>)
  {
    forall w :: w in words ==> |w| > 0
  }

  predicate NoSpaceInWords(words: seq<string>)
  {
    forall w :: w in words ==> ' ' !in w
  }

  /** The text of a line up to its first space. */
  function FirstWord(line: string): string
  {
    line[..IndexOf(line, ' ')]
  }

  lemma FirstWordOfWord(w: string)
    requires ' ' !in w
    ensures FirstWord(w) == w
  {
  }

  lemma FirstWordExtend(c: string, w: string)
    ensures FirstWord(c + " " + w) == FirstWord(c)
  {
    var s := c + " " + w;
    var kc := IndexOf(c, ' ');
    assert s[kc] == ' ';
    assert forall j :: 0 <= j < kc ==> s[j] == c[j];
    assert IndexOf(s, ' ') == kc;
    assert s[..kc] == c[..kc];
  }

  lemma {:induction false} WrapFoldShape(words: seq<string>, width: nat)
    ensures var st := WrapFold(words, width);
      (forall l :: l in st.lines ==> |l| > 0 && IsWordOrFits(l, words, width)) &&
      (|st.current| == 0 || IsWordOrFits(st.current, words, width))
    decreases |words|
  {
    if |words| > 0 {
      var init, w := words[..|words| - 1], words[|words| - 1];
      assert words == init + [w];
      WrapFoldShape(init, width);
      assert forall x :: x in init ==> x in words;
      var st0 := WrapFold(init, width);
      if |st0.current + w| > width && |st0.current| > 0 {
      } else if |st0.current| > 0 {
        var c := st0.current + " " + w;
        assert c[|st0.current|] == ' ';
      } else {
        assert st0.current + "" + w == w;
      }
    }
  }

  /**
   Every line is non-empty, and is either a single word or holds several words
   within 28 characters: the check `(currentLine + word).length > lineLength`
   leaves out the joining space, so a joined line may exceed the budget by one.
   */
  lemma WrapLinesAreWordsOrFit(words: seq<string>, width: nat)
    ensures forall l :: l in Wrap(words, width) ==> |l| > 0 && IsWordOrFits(l, words, width)
  {
    WrapFoldShape(words, width);
  }

  /** Extending the last of some lines by a word extends their join by that word. */
  lemma JoinExtendLast(ls: seq<string>, c: string, w: string)
    ensures Join(ls + [c + " " + w], ' ') == Join(ls + [c], ' ') + " " + w
  {
    if |ls| > 0 {
      JoinSnoc(ls, c + " " + w, ' ');
      JoinSnoc(ls, c, ' ');
    }
  }

  lemma {:induction false} WrapFoldJoin(words: seq<string>, width: nat)
    requires NoEmptyWord(words)
    ensures var st := WrapFold(words, width);
      if |words| == 0 then st == WrapState([], "")
      else |st.current| > 0 && Join(st.lines + [st.current], ' ') == Join(words, ' ')
    decreases |words|
  {
    if |words| > 0 {
      var init, w := words[..|words| - 1], words[|words| - 1];
      assert words == init + [w];
      assert forall x :: x in init ==> x in words;
      WrapFoldJoin(init, width);
      var st0 := WrapFold(init, width);
      var st := WrapFold(words, width);
      assert st == WrapStep(st0, w, width);
      if |init| == 0 {
        assert st0.current + "" + w == w;
        assert st == WrapState([], w);
      } else {
        JoinSnoc(init, w, ' ');
        assert Join(words, ' ') == Join(init, ' ') + " " + w;
        if |st0.current + w| > width {
          assert st == WrapState(st0.lines + [st0.current], w);
          JoinSnoc(st0.lines + [st0.current], w, ' ');
        } else {
          assert st == WrapState(st0.lines, st0.current + " " + w);
          JoinExtendLast(st0.lines, st0.current, w);
        }
      }
    }
  }

  /** With no empty word, the lines joined by single spaces give back the words joined the same way. */
  lemma WrapPreservesText(words: seq<string>, width: nat)
    requires NoEmptyWord(words)
    ensures Join(Wrap(words, width), ' ') == Join(words, ' ')
  {
    WrapFoldJoin(words, width);
  }

  lemma {:induction false} WrapFoldGreedy(words: seq<string>, width: nat)
    requires NoEmptyWord(words) && NoSpaceInWords(words)
    ensures var st := WrapFold(words, width);
      (|words| > 0 ==> |st.current| > 0) &&
      (|words| == 0 ==> st.lines == []) &&
      (forall i :: 0 <= i < |st.lines| - 1 ==> |st.lines[i]| + |FirstWord(st.lines[i + 1])| > width) &&
      (|st.lines| > 0 ==> |st.lines[|st.lines| - 1]| + |FirstWord(st.current)| > width)
    decreases |words|
  {
    if |words| > 0 {
      var init, w := words[..|words| - 1], words[|words| - 1];
      assert words == init + [w];
      assert forall x :: x in init ==> x in words;
      WrapFoldGreedy(init, width);
      FirstWordOfWord(w);
      var st0 := WrapFold(init, width);
      if |st0.current + w| > width && |st0.current| > 0 {
      } else if |st0.current| > 0 {
        FirstWordExtend(st0.current, w);
      } else {
        assert st0.current + "" + w == w;
      }
    }
  }

  /**
   The wrap is greedy: a line is closed only when the next line's first word
   would not have fitted after it.
   */
  lemma WrapIsGreedy(words: seq<string>, width: nat)
    requires NoEmptyWord(words) && NoSpaceInWords(words)
    ensures var lines := Wrap(words, width);
      forall i :: 0 <= i < |lines| - 1 ==> |lines[i]| + |FirstWord(lines[i + 1])| > width
  {
    WrapFoldGreedy(words, width);
  }

  lemma {:induction false} WrapOfEmptyWords(words: seq<string>, width: nat)
    requires forall w :: w in words ==> w == ""
    ensures WrapFold(words, width) == WrapState([], "")
    ensures Wrap(words, width) == []
    decreases |words|
  {
    if |words| > 0 {
      var init := words[..|words| - 1];
      assert forall x :: x in init ==> x in words;
      WrapOfEmptyWords(init, width);
      assert words[|words| - 1] in words;
    }
  }

  // ---------------------------------------------------------------------------
  // Layout

  /** One `drawtext` filter: the line it shows and its y expression. */
  datatype Overlay = Overlay(text: string, y: string)

  /** `hookText` is missing, so `.replace` throws. */
  datatype CaptionError = MissingHookText

  /** The lines of a block, line i at `LineY(start, i)`. */
  function Placed(lines: seq<string>, anchor: Anchor): (plan: seq<Overlay>)
    ensures |plan| == |lines|
  {
    var start := BlockStart(anchor, |lines|);
    seq(|lines|, i requires 0 <= i < |lines| => Overlay(lines[i], LineY(start, i)))
  }

  /** The overlay plan for an escaped caption: one line if it fits, otherwise the wrapped block. */
  function LayoutEscaped(escaped: string, anchor: Anchor): seq<Overlay>
  {
    if |escaped| <= MAX_LINE_LENGTH then [Overlay(escaped, SingleLineY(anchor))]
    else Placed(Wrap(Split(escaped, ' '), MAX_LINE_LENGTH), anchor)
  }

  /** The overlay plan the handler builds for a caption. */
  function Layout(hookText: Option<string>, hookPosition: Option<string>): Result<seq<Overlay>, CaptionError>
  {
    match hookText
    case None => Failure(MissingHookText)
    case Some(t) => Success(LayoutEscaped(Escape(t), AnchorOf(hookPosition)))
  }

  /** The texts of a plan, in order. */
  function Texts(plan: seq<Overlay>): (texts: seq<string>)
    ensures |texts| == |plan|
  {
    seq(|plan|, i requires 0 <= i < |plan| => plan[i].text)
  }

  /** The layout code: anchor switch, escape, and one `push` per line onto `textCommands`. */
  method LayoutCaption(hookText: Option<string>, hookPosition: Option<string>)
    returns (r: Result<seq<Overlay>, CaptionError>)
    ensures r == Layout(hookText, hookPosition)
  {
    var anchor := AnchorOf(hookPosition);
    if hookText.None? {
      return Failure(MissingHookText);
    }
    var escapedText := Escape(hookText.value);
    var lineLength := if |escapedText| < MAX_LINE_LENGTH then |escapedText| else MAX_LINE_LENGTH;
    var textCommands: seq<Overlay> := [];
    if |escapedText| <= lineLength {
      textCommands := textCommands + [Overlay(escapedText, SingleLineY(anchor))];
      assert textCommands == LayoutEscaped(escapedText, anchor);
    } else {
      var lines := WrapWords(Split(escapedText, ' '), lineLength);
      var startY := BlockStart(anchor, |lines|);
      var index := 0;
      while index < |lines|
        invariant 0 <= index <= |lines|
        invariant |textCommands| == index
        invariant forall k :: 0 <= k < index ==> textCommands[k] == Overlay(lines[k], LineY(startY, k))
      {
        textCommands := textCommands + [Overlay(lines[index], LineY(startY, index))];
        index := index + 1;
      }
      assert lineLength == MAX_LINE_LENGTH;
      assert textCommands == Placed(lines, anchor);
      assert textCommands == LayoutEscaped(escapedText, anchor);
    }
    return Success(textCommands);
  }

  /** Without `hookText` the layout fails; with it, it never does. */
  lemma LayoutFailsOnlyWithoutText(hookText: Option<string>, hookPosition: Option<string>)
    ensures Layout(hookText, hookPosition).Failure? <==> hookText.None?
  {
  }

  /** A caption whose escaped text fits in 27 characters is one unwrapped line at the anchor's height. */
  lemma ShortCaptionIsOneLine(text: string, hookPosition: Option<string>)
    requires |Escape(text)| <= MAX_LINE_LENGTH
    ensures var r := Layout(Some(text), hookPosition);
      r.Success? && |r.value| == 1 && r.value[0].text == Escape(text) &&
      r.value[0].y == (if hookPosition == Some("top") then "(h/10)"
                       else if hookPosition == Some("bottom") then "(h*9/10)"
                       else "(h/2)")
  {
  }

  /** The start of a wrapped block for each anchor, with n lines. */
  lemma BlockStartByAnchor(hookPosition: Option<string>, n: nat)
    ensures BlockStart(AnchorOf(hookPosition), n) ==
      (if hookPosition == Some("top") then "(h/8)"
       else if hookPosition == Some("bottom") then "(h*7/8)-(" + NatToString(n) + "*min(32\\,w/20)*1.5)"
       else "(h-" + NatToString(n) + "*min(32\\,w/20)*1.5)/2")
  {
    var t := NatToString(n);
    assert "*" + LINE_HEIGHT + ")" == "*min(32\\,w/20)*1.5)";
    assert "*" + LINE_HEIGHT + ")/2" == "*min(32\\,w/20)*1.5)/2";
    match AnchorOf(hookPosition)
    case Top =>
    case Bottom =>
      assert BlockStart(Bottom, n) == "(h*7/8)-(" + t + ("*" + LINE_HEIGHT + ")");
    case Middle =>
      assert BlockStart(Middle, n) == "(h-" + t + ("*" + LINE_HEIGHT + ")/2");
  }

  /** Each overlay of a placed block carries its line, at `LineY(BlockStart(anchor, n), i)`. */
  lemma PlacedLines(lines: seq<string>, anchor: Anchor)
    ensures Texts(Placed(lines, anchor)) == lines
    ensures forall i :: 0 <= i < |lines| ==>
      Placed(lines, anchor)[i].y == LineY(BlockStart(anchor, |lines|), i)
  {
  }

  /**
   A longer caption is wrapped into one overlay per line, line i at
   `(startY+i*lineHeight)`, and every line is non-empty and is a single word
   or several words within 28 characters.
   */
  lemma LongCaptionIsWrapped(text: string, hookPosition: Option<string>)
    requires |Escape(text)| > MAX_LINE_LENGTH
    ensures var r := Layout(Some(text), hookPosition);
      var words := Split(Escape(text), ' ');
      r.Success? &&
      Texts(r.value) == Wrap(words, MAX_LINE_LENGTH) &&
      (forall i :: 0 <= i < |r.value| ==>
        r.value[i].y == LineY(BlockStart(AnchorOf(hookPosition), |r.value|), i) &&
        |r.value[i].text| > 0 &&
        IsWordOrFits(r.value[i].text, words, MAX_LINE_LENGTH))
  {
    var words := Split(Escape(text), ' ');
    var lines := Wrap(words, MAX_LINE_LENGTH);
    var plan := Placed(lines, AnchorOf(hookPosition));
    assert Layout(Some(text), hookPosition) == Success(plan);
    PlacedLines(lines, AnchorOf(hookPosition));
    WrapLinesAreWordsOrFit(words, MAX_LINE_LENGTH);
    forall i | 0 <= i < |plan|
      ensures |plan[i].text| > 0 && IsWordOrFits(plan[i].text, words, MAX_LINE_LENGTH)
    {
      assert plan[i].text == Texts(plan)[i] == lines[i];
      assert lines[i] in lines;
    }
  }

  /**
   When no word of a long caption is empty (no leading, trailing or doubled
   space), its lines joined by single spaces give back the escaped caption,
   and each line was closed only because the next line's first word would not
   have fitted after it.
   */
  lemma LongCaptionKeepsWords(text: string, hookPosition: Option<string>)
    requires |Escape(text)| > MAX_LINE_LENGTH
    requires NoEmptyWord(Split(Escape(text), ' '))
    ensures var r := Layout(Some(text), hookPosition);
      r.Success? &&
      Join(Texts(r.value), ' ') == Escape(text) &&
      forall i :: 0 <= i < |r.value| - 1 ==>
        |r.value[i].text| + |FirstWord(r.value[i + 1].text)| > MAX_LINE_LENGTH
  {
    var escaped := Escape(text);
    var words := Split(escaped, ' ');
    var lines := Wrap(words, MAX_LINE_LENGTH);
    var plan := Placed(lines, AnchorOf(hookPosition));
    assert Layout(Some(text), hookPosition) == Success(plan);
    PlacedLines(lines, AnchorOf(hookPosition));
    SplitPiecesHaveNoSeparator(escaped, ' ');
    WrapPreservesText(words, MAX_LINE_LENGTH);
    JoinSplit(escaped, ' ');
    WrapIsGreedy(words, MAX_LINE_LENGTH);
    forall i | 0 <= i < |plan| - 1
      ensures |plan[i].text| + |FirstWord(plan[i + 1].text)| > MAX_LINE_LENGTH
    {
      assert plan[i].text == Texts(plan)[i] == lines[i];
      assert plan[i + 1].text == Texts(plan)[i + 1] == lines[i + 1];
    }
  }

  /**
   A caption longer than 27 characters with no space and no quote is not
   split, but it is still laid out as a one-line block: its single overlay
   sits at the block start for one line, not at the single-line height.
   Fourteen emoji are such a caption, 28 code units long.
   */
  lemma LongSingleWordCaption(text: string, hookPosition: Option<string>)
    requires |text| > MAX_LINE_LENGTH
    requires ' ' !in text && QUOTE !in text
    ensures Layout(Some(text), hookPosition)
      == Success([Overlay(text, LineY(BlockStart(AnchorOf(hookPosition), 1), 0))])
  {
    EscapeLength(text);
    SplitOfWord(text);
    WrapOfOneWord(text, MAX_LINE_LENGTH);
    PlacedOne(text, AnchorOf(hookPosition));
  }

  /** A word without spaces splits into itself. */
  lemma SplitOfWord(w: string)
    requires ' ' !in w
    ensures Split(w, ' ') == [w]
  {
    assert Join([w], ' ') == w;
    SplitJoin([w], ' ');
  }

  /** A single non-empty word wraps into one line, whatever its length. */
  lemma WrapOfOneWord(w: string, width: nat)
    requires |w| > 0
    ensures Wrap([w], width) == [w]
  {
    assert [w][..0] == [];
    assert WrapFold([w], width) == WrapState([], w);
  }

  /** A block of one line puts it at the block start for one line. */
  lemma PlacedOne(line: string, anchor: Anchor)
    ensures Placed([line], anchor) == [Overlay(line, LineY(BlockStart(anchor, 1), 0))]
  {
  }

  /** A caption of more than 27 spaces wraps into no line at all, so no `drawtext` filter is emitted. */
  lemma BlankCaptionHasNoLines(text: string, hookPosition: Option<string>)
    requires |text| > MAX_LINE_LENGTH
    requires forall i :: 0 <= i < |text| ==> text[i] == ' '
    ensures Layout(Some(text), hookPosition) == Success([])
  {
    EscapeLength(text);
    SplitOfSeparatorsOnly(text, ' ');
    WrapOfEmptyWords(Split(text, ' '), MAX_LINE_LENGTH);
  }

  // ---------------------------------------------------------------------------
  // Rendering

  /** One `drawtext` filter as the template literal renders it. */
  function DrawText(fontFile: string, o: Overlay): string
  {
    "drawtext=fontfile=" + fontFile + ":text='" + o.text +
    "':fontcolor=white:fontsize=" + FONT_SIZE +
    ":borderw=2:bordercolor=black:box=0:x=(w-text_w)/2:y=" + o.y
  }

  /** `textCommands.join(',')`. */
  function TextStyle(fontFile: string, plan: seq<Overlay>): string
  {
    Join(seq(|plan|, i requires 0 <= i < |plan| => DrawText(fontFile, plan[i])), ',')
  }

  /**
   The chain grows as `textCommands` does: pushing one more filter and
   joining gives the old chain, a comma, and the new filter (just the filter
   when it is the first one).
   */
  lemma TextStyleSnoc(fontFile: string, plan: seq<Overlay>, o: Overlay)
    ensures TextStyle(fontFile, plan + [o]) ==
      if |plan| == 0 then DrawText(fontFile, o) else TextStyle(fontFile, plan) + "," + DrawText(fontFile, o)
  {
    var before := seq(|plan|, i requires 0 <= i < |plan| => DrawText(fontFile, plan[i]));
    var after := seq(|plan + [o]|, i requires 0 <= i < |plan + [o]| => DrawText(fontFile, (plan + [o])[i]));
    assert after == before + [DrawText(fontFile, o)];
    if |plan| > 0 {
      JoinSnoc(before, DrawText(fontFile, o), ',');
    }
  }
}
