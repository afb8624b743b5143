/** Formatting survives the splits: each chunk reopens exactly the fence that is open in the text where it starts. */
module MessageFormatting {
  import opened Options
  import opened Fences
  import opened MessageBuilder

  /** The longest lines with which formatting survives. */
  const MAX_LINE: nat := 1974

  /** No line of the text has more than `n` characters. */
  ghost predicate ShortLines(text: string, n: nat) {
    forall i, j :: 0 <= i <= j <= |text| && '\n' !in text[i..j] ==> j - i <= n
  }

  lemma ShortLinesSuffix(text: string, max: nat, n: nat)
    requires ShortLines(text, max) && n <= |text|
    ensures ShortLines(text[n..], max)
  {
    forall i, j | 0 <= i <= j <= |text[n..]| && '\n' !in text[n..][i..j] ensures j - i <= max {
      assert text[n..][i..j] == text[n + i..n + j];
    }
  }

  /** `rest` continues a text at its start, at a line boundary, or with the last one or two characters of a line in an
      open block; finishing that line does not change what is open. */
  ghost predicate Resumes(word: char -> bool, before: string, fence: Option<string>, rest: string) {
    && Reopenable(word, fence) && fence == OpenFence(word, before)
    && (before == ""
        || (&& LineEnd(rest) <= 2 && LineEnd(rest) < |rest| && (LineEnd(rest) > 0 ==> fence.Some?)
            && OpenFence(word, before + rest[..LineEnd(rest)]) == fence))
  }

  // ---- Short pieces of text have no fence -----------------------------------------------------

  lemma {:induction false} FewCharactersAreNoFence(word: char -> bool, open: Option<string>, text: string)
    requires |text| <= 2
    ensures Scan(word, open, text) == open
    decreases |text|
  {
    var n := LineEnd(text);
    assert FenceOf(word, text[..n]).None?;
    if n < |text| {
      FewCharactersAreNoFence(word, open, text[n + 1..]);
    }
  }

  /** The start of a line is a fence only if the line is. */
  lemma {:induction false} FenceStart(start: string, line: string)
    requires start <= line && BACKTICKS <= Unindented(start)
    ensures BACKTICKS <= Unindented(line)
  {
    if start != "" && (start[0] == ' ' || start[0] == '\t') {
      FenceStart(start[1..], line[1..]);
    }
  }

  lemma NothingOpenAtStart(word: char -> bool)
    ensures OpenFence(word, "").None?
  {}

  /** One more line after a fence. */
  lemma LineAfterFence(word: char -> bool, fence: string, line: string)
    requires IsFence(word, fence) && '\n' !in fence && '\n' !in line
    ensures OpenFence(word, fence + "\n" + line) == if BACKTICKS <= Unindented(line) then None else Some(fence)
  {
    ScanJoined(word, None, fence, line);
    FenceOpensItself(word, fence);
    assert LineEnd(line) == |line| && line[..|line|] == line;
  }

  // ---- Where a chunk ends and the next begins ---------------------------------------------------

  /** Reading on after a reopened fence is reading on in the original text. */
  lemma ReopeningIsTransparent(word: char -> bool, before: string, fence: Option<string>, rest: string, n: nat)
    requires Resumes(word, before, fence, rest) && 0 < n <= |rest| && (before != "" ==> LineEnd(rest) <= n)
    ensures OpenFence(word, Reopening(fence, rest) + rest[..n]) == OpenFence(word, before + rest[..n])
  {
    hide Scan, IsFence;
    if before == "" {
      NothingOpenAtStart(word);
      assert Reopening(fence, rest) + rest[..n] == before + rest[..n];
    } else {
      TransparentWithinText(word, before, fence, rest, n);
    }
  }

  lemma TransparentWithinText(word: char -> bool, before: string, fence: Option<string>, rest: string, n: nat)
    requires Resumes(word, before, fence, rest) && before != "" && 0 < n <= |rest| && LineEnd(rest) <= n
    ensures OpenFence(word, Reopening(fence, rest) + rest[..n]) == OpenFence(word, before + rest[..n])
  {
    hide OpenFence, Reopening, IsFence, LineEnd, Resumes;
    var t := LineEnd(rest);
    ReopenedTail(word, before, fence, rest);
    TailFact(word, before, fence, rest);
    if n > t {
      assert rest[..n] == rest[..t] + ("\n" + rest[t + 1..n]);
      SameOn(word, before, Reopening(fence, rest), rest[..t], rest[t + 1..n]);
    }
  }

  lemma TailFact(word: char -> bool, before: string, fence: Option<string>, rest: string)
    requires Resumes(word, before, fence, rest) && before != ""
    ensures LineEnd(rest) < |rest| && rest[LineEnd(rest)] == '\n' && OpenFence(word, before + rest[..LineEnd(rest)]) == fence
  {
    hide OpenFence;
  }

  /** What is open after one more line depends only on what was open before it. */
  lemma SameOn(word: char -> bool, a: string, b: string, tail: string, line: string)
    requires OpenFence(word, a + tail) == OpenFence(word, b + tail)
    ensures OpenFence(word, a + (tail + ("\n" + line))) == OpenFence(word, b + (tail + ("\n" + line)))
  {
    hide Scan;
    Regroup(a, tail, line);
    Regroup(b, tail, line);
    ScanJoined(word, None, a + tail, line);
    ScanJoined(word, None, b + tail, line);
  }

  lemma Regroup(a: string, tail: string, line: string)
    ensures (a + tail) + "\n" + line == a + (tail + ("\n" + line))
  {}

  /** The reopened fence and the rest of an unfinished line leave the fence open. */
  lemma ReopenedTail(word: char -> bool, before: string, fence: Option<string>, rest: string)
    requires Resumes(word, before, fence, rest) && before != ""
    ensures OpenFence(word, Reopening(fence, rest) + rest[..LineEnd(rest)]) == fence
  {
    hide Scan, IsFence;
    var t := LineEnd(rest);
    if fence.None? {
      assert Reopening(fence, rest) + rest[..t] == "";
      NothingOpenAtStart(word);
    } else {
      FenceOpensItself(word, fence.value);
      if t == 0 {
        assert Reopening(fence, rest) + rest[..t] == fence.value;
      } else {
        assert Reopening(fence, rest) + rest[..t] == fence.value + "\n" + rest[..t];
        ScanJoined(word, None, fence.value, rest[..t]);
        FewCharactersAreNoFence(word, fence, rest[..t]);
      }
    }
  }

  lemma NewlineInReach(content: string, floor: nat, limit: nat, p: nat)
    requires floor < limit <= |content| && floor < p < limit && content[p] == '\n'
    ensures var at := SplitPoint(content, limit, floor); p <= at < limit && content[at] == '\n'
  {}

  lemma NoNewlineInReach(content: string, floor: nat, limit: nat)
    requires floor < limit <= |content| && forall i :: floor < i < limit ==> content[i] != '\n'
    ensures SplitPoint(content, limit, floor) == limit
  {}

  /** With short lines there is a newline past the reopened fence line and below a limit that leaves room for a line. */
  lemma NewlineBelow(word: char -> bool, before: string, fence: Option<string>, rest: string, limit: nat) returns (p: nat)
    requires Resumes(word, before, fence, rest) && ShortLines(rest, MAX_LINE)
    requires MAX_LEN - |CLOSE_FENCE| <= limit <= MAX_LEN < |Content(fence, rest)|
    requires MAX_LINE < limit - Reopened(fence) - 1 || (before != "" && LineEnd(rest) > 0)
    ensures Reopened(fence) < p < limit && Content(fence, rest)[p] == '\n'
  {
    hide Scan, OpenFence;
    var content := Content(fence, rest);
    var r := Reopened(fence);
    if before != "" && LineEnd(rest) > 0 {
      p := r + 1 + LineEnd(rest);
    } else {
      if before == "" {
        NothingOpenAtStart(word);
      }
      var run := rest[1..limit - r];
      assert '\n' in run;
      var i :| 0 <= i < |run| && run[i] == '\n';
      p := r + 1 + i;
      assert content[p] == rest[1 + i];
    }
  }

  /** The second attempt at a split has cut a line short: one or two of its characters are left. */
  ghost predicate CutsShort(word: char -> bool, content: string, fence: Option<string>, cut: Cut, e: nat) {
    && fence.Some? && cut.fence == fence && cut.at < e <= cut.at + 2 && e < |content| && content[e] == '\n'
    && '\n' !in content[cut.at..e] && OpenFence(word, content[..e]) == fence
  }

  /** The line after the reopened fence, and where it ends. */
  lemma FirstLine(word: char -> bool, before: string, fence: Option<string>, rest: string) returns (e: nat)
    requires Resumes(word, before, fence, rest) && ShortLines(rest, MAX_LINE) && Long(word, fence, rest)
    requires fence.Some? && before != "" && LineEnd(rest) == 0
    ensures var content := Content(fence, rest); var r := Reopened(fence);
            && r < e < |content| && e <= r + 1 + MAX_LINE && content[e] == '\n' && '\n' !in content[r + 1..e]
            && (forall k :: r < k <= e ==> content[..k] == fence.value + "\n" + content[r + 1..k])
  {
    hide Scan, OpenFence;
    var content := Content(fence, rest);
    var r := Reopened(fence);
    var n := LineEnd(rest[1..]);
    assert '\n' !in rest[1..1 + n] by {
      assert rest[1..1 + n] == rest[1..][..n];
    }
    e := r + 1 + n;
    assert content == fence.value + rest;
    assert content[r + 1..e] == rest[1..1 + n];
  }

  /** A fence line there would already have been seen to close the block by the first attempt. */
  lemma FirstLineIsNoFence(word: char -> bool, fence: string, content: string, e: nat, q: nat)
    requires IsFence(word, fence) && '\n' !in fence && |fence| < e <= q < |content| && q <= e + 3
    requires content[..e] == fence + "\n" + content[|fence| + 1..e] && '\n' !in content[|fence| + 1..e] && content[e] == '\n'
    requires OpenFence(word, content[..q]).Some?
    ensures OpenFence(word, content[..e]) == Some(fence)
  {
    hide Scan, IsFence;
    LineAfterFence(word, fence, content[|fence| + 1..e]);
    if q > e {
      var more := content[e + 1..q];
      assert content[..q] == content[..e] + "\n" + more;
      ScanJoined(word, None, content[..e], more);
      FewCharactersAreNoFence(word, OpenFence(word, content[..e]), more);
    }
  }
  lemma PartOfLineIsNoFence(word: char -> bool, fence: string, content: string, at: nat, e: nat)
    requires IsFence(word, fence) && '\n' !in fence && |fence| < at <= e <= |content| && '\n' !in content[|fence| + 1..e]
    requires content[..e] == fence + "\n" + content[|fence| + 1..e] && OpenFence(word, content[..e]) == Some(fence)
    ensures OpenFence(word, content[..at]) == Some(fence)
  {
    hide Scan, IsFence, OpenFence;
    var line, start := content[|fence| + 1..e], content[|fence| + 1..at];
    assert start == line[..|start|];
    assert content[..at] == content[..e][..at] == fence + "\n" + start;
    assert '\n' !in start by {
      assert forall i :: 0 <= i < |start| ==> start[i] == line[i];
    }
    LineAfterFence(word, fence, line);
    LineAfterFence(word, fence, start);
    if BACKTICKS <= Unindented(start) {
      FenceStart(start, line);
    }
  }

  /** The case in which a long fence leaves too little room for the line after it. */
  lemma CutsAfterLongFence(word: char -> bool, before: string, fence: Option<string>, rest: string) returns (e: nat)
    requires Resumes(word, before, fence, rest) && ShortLines(rest, MAX_LINE) && Long(word, fence, rest)
    requires fence.Some? && before != "" && LineEnd(rest) == 0
    requires var first := SplitPoint(Content(fence, rest), MAX_LEN, Reopened(fence)); first < MAX_LEN && Content(fence, rest)[first] == '\n'
    ensures var content := Content(fence, rest);
            var cut := CutOf(word, content, Reopened(fence));
            content[cut.at] == '\n' || CutsShort(word, content, fence, cut, e)
  {
    hide Scan, OpenFence, Resumes, ShortLines, Content, IsFence, LastNewline;
    var content := Content(fence, rest);
    var r, limit := Reopened(fence), MAX_LEN - |CLOSE_FENCE|;
    FencesAreShort(word, fence);
    var first := SplitPoint(content, MAX_LEN, r);
    e := FirstLine(word, before, fence, rest);
    if OpenFence(word, content[..first]).Some? {
      if e < limit {
        NewlineInReach(content, r, limit, e);
      } else {
        var line := content[r + 1..e];
        assert forall i :: r < i < e ==> content[i] == line[i - r - 1];
        NoNewlineInReach(content, r, limit);
        if limit < e {
          FirstLineIsNoFence(word, fence.value, content, e, first);
          PartOfLineIsNoFence(word, fence.value, content, limit, e);
          assert content[limit..e] == line[limit - r - 1..];
        }
      }
    }
  }

  /** A text with short lines is split at a newline, or one or two characters before one, in an open block. */
  lemma WhereItCuts(word: char -> bool, before: string, fence: Option<string>, rest: string) returns (e: nat)
    requires Resumes(word, before, fence, rest) && ShortLines(rest, MAX_LINE) && Long(word, fence, rest)
    ensures var content := Content(fence, rest);
            var cut := CutOf(word, content, Reopened(fence));
            || content[cut.at] == '\n'
            || (CutsShort(word, content, fence, cut, e) && before != "" && LineEnd(rest) == 0)
  {
    hide Scan, OpenFence, ShortLines, Content, IsFence, LastNewline;
    var content := Content(fence, rest);
    var r, limit := Reopened(fence), MAX_LEN - |CLOSE_FENCE|;
    FencesAreShort(word, fence);
    var p1 := NewlineBelow(word, before, fence, rest, MAX_LEN);
    NewlineInReach(content, r, MAX_LEN, p1);
    if MAX_LINE < limit - r - 1 || (before != "" && LineEnd(rest) > 0) {
      var p2 := NewlineBelow(word, before, fence, rest, limit);
      NewlineInReach(content, r, limit, p2);
      e := 0;
    } else {
      if before == "" {
        NothingOpenAtStart(word);
      }
      e := CutsAfterLongFence(word, before, fence, rest);
    }
  }

  /** The next chunk resumes the text. */
  lemma NextChunkResumes(word: char -> bool, before: string, fence: Option<string>, rest: string)
    requires Resumes(word, before, fence, rest) && ShortLines(rest, MAX_LINE) && Long(word, fence, rest)
    ensures var n := BodyLength(word, fence, rest);
            Resumes(word, before + rest[..n], NextFence(word, fence, rest), rest[n..])
  {
    hide ShortLines, IsFence, Scan, CutOf, OpenFence;
    FencesAreShort(word, fence);
    var content := Content(fence, rest);
    var cut := CutOf(word, content, Reopened(fence));
    var e := WhereItCuts(word, before, fence, rest);
    CutIsFirstPiece(word, fence, rest);
    var n := BodyLength(word, fence, rest);
    if content[cut.at] == '\n' {
      assert rest[n..][0] == content[cut.at..][0] == '\n' && LineEnd(rest[n..]) == 0;
      assert rest[n] == '\n';
      assert (before + rest[..n]) + rest[n..][..0] == before + rest[..n];
      ReopeningIsTransparent(word, before, fence, rest, n);
    } else {
      ShortCutResumes(word, before, fence, rest, cut, e);
    }
  }

  lemma ShortCutResumes(word: char -> bool, before: string, fence: Option<string>, rest: string, cut: Cut, e: nat)
    requires Resumes(word, before, fence, rest) && Long(word, fence, rest) && before != "" && LineEnd(rest) == 0
    requires cut == CutOf(word, Content(fence, rest), Reopened(fence)) && CutsShort(word, Content(fence, rest), fence, cut, e)
    ensures var n := BodyLength(word, fence, rest);
            Resumes(word, before + rest[..n], NextFence(word, fence, rest), rest[n..])
  {
    hide IsFence, Scan, CutOf, OpenFence, Reopening;
    CutIsFirstPiece(word, fence, rest);
    var n, t := BodyLength(word, fence, rest), e - cut.at;
    AfterShortCut(Content(fence, rest), Reopening(fence, rest), rest, n, e, t);
    assert (before + rest[..n]) + rest[n..][..t] == before + rest[..n + t];
    ReopeningIsTransparent(word, before, fence, rest, n);
    ReopeningIsTransparent(word, before, fence, rest, n + t);
  }

  lemma AfterShortCut(content: string, prefix: string, rest: string, n: nat, e: nat, t: nat)
    requires content == prefix + rest && e == |prefix| + n + t && e < |content| && content[e] == '\n' && '\n' !in content[|prefix| + n..e]
    ensures LineEnd(rest[n..]) == t && content[..e] == prefix + rest[..n + t]
  {
    assert content[|prefix| + n..e] == rest[n..][..t] && rest[n..][t] == content[e];
    LineEndIs(rest[n..], t);
  }

  lemma LineEndIs(text: string, t: nat)
    requires t < |text| && text[t] == '\n' && '\n' !in text[..t]
    ensures LineEnd(text) == t
  {
    assert forall i :: 0 <= i < t ==> text[i] in text[..t];
  }

  /** The number of original characters before piece `i`. */
  ghost function Start(pieces: seq<Piece>, i: nat): nat
    requires i <= |pieces|
  {
    if i == 0 then 0 else |pieces[0].body| + Start(pieces[1..], i - 1)
  }

  /** Piece `i` reopens exactly the fence open in the text before it. */
  ghost predicate ReopensWhatIsOpen(word: char -> bool, text: string, start: nat, p: Piece) {
    start <= |text| && p.reopening == Reopening(OpenFence(word, text[..start]), text[start..])
  }

  ghost predicate Faithful(word: char -> bool, before: string, rest: string, pieces: seq<Piece>) {
    && (forall i :: 0 <= i < |pieces| ==> ReopensWhatIsOpen(word, before + rest, |before| + Start(pieces, i), pieces[i]))
    && (pieces != [] ==> OpenFence(word, Render(pieces[|pieces| - 1])) == OpenFence(word, before + rest))
  }

  lemma LastChunkIsFaithful(word: char -> bool, before: string, fence: Option<string>, rest: string)
    requires Resumes(word, before, fence, rest) && |Content(fence, rest)| <= MAX_LEN
    ensures Faithful(word, before, rest, Split(word, fence, rest))
  {
    hide IsFence, Scan, First, NextFence, BodyLength;
    if Content(fence, rest) != "" {
      LastPiece(word, fence, rest);
      var p := Piece(Reopening(fence, rest), rest, "");
      assert (before + rest)[..|before|] == before && (before + rest)[|before|..] == rest;
      if rest != "" {
        ReopeningIsTransparent(word, before, fence, rest, |rest|);
        assert rest[..|rest|] == rest;
      } else {
        NothingOpenAtStart(word);
      }
    }
  }

  lemma ConsIsFaithful(word: char -> bool, before: string, rest: string, n: nat, p: Piece, tail: seq<Piece>)
    requires n <= |rest| && p.body == rest[..n] && tail != []
    requires ReopensWhatIsOpen(word, before + rest, |before|, p)
    requires Faithful(word, before + rest[..n], rest[n..], tail)
    ensures Faithful(word, before, rest, [p] + tail)
  {
    hide OpenFence, Reopening, ReopensWhatIsOpen, Render;
    var pieces := [p] + tail;
    assert before + rest == (before + rest[..n]) + rest[n..];
    forall i | 0 <= i < |pieces|
      ensures ReopensWhatIsOpen(word, before + rest, |before| + Start(pieces, i), pieces[i])
    {
      if i > 0 {
        assert pieces[1..] == tail && pieces[i] == tail[i - 1];
      }
    }
  }

  /** For a text whose lines are short: every chunk reopens exactly the fence, language tag included, that is open
      in the text where the chunk starts, and the last chunk leaves open exactly what the text leaves open. */
  lemma {:induction false} FormattingSurvives(word: char -> bool, before: string, fence: Option<string>, rest: string)
    requires Resumes(word, before, fence, rest) && ShortLines(rest, MAX_LINE)
    ensures Faithful(word, before, rest, Split(word, fence, rest))
    decreases |rest|
  {
    if Long(word, fence, rest) {
      hide CutOf, ShortLines, OpenFence, IsFence, Faithful;
      var n := BodyLength(word, fence, rest);
      NextChunkResumes(word, before, fence, rest);
      ShortLinesSuffix(rest, MAX_LINE, n);
      FormattingSurvives(word, before + rest[..n], NextFence(word, fence, rest), rest[n..]);
      SplitUnfolds(word, fence, rest, []);
      assert (before + rest)[..|before|] == before && (before + rest)[|before|..] == rest;
      ConsIsFaithful(word, before, rest, n, First(word, fence, rest),
                     Split(word, NextFence(word, fence, rest), rest[n..]));
    } else {
      LastChunkIsFaithful(word, before, fence, rest);
    }
  }

  /** A text with short lines and no open fence gives chunks none of which has an open fence. */
  lemma BalancedTextGivesBalancedChunks(word: char -> bool, text: string)
    requires ShortLines(text, MAX_LINE) && OpenFence(word, text).None?
    ensures var chunks := Rendered(Split(word, None, text));
            forall i :: 0 <= i < |chunks| ==> OpenFence(word, chunks[i]).None?
  {
    hide OpenFence, Split, ShortLines, ReopensWhatIsOpen, Start, Render, WholeInsertions;
    NothingOpenAtStart(word);
    FormattingSurvives(word, "", None, text);
    assert "" + text == text;
    PieceShapes(word, None, text);
  }

  // ---- The bound is exact -----------------------------------------------------------------------

  const FENCE: string := BACKTICKS + seq(TAG_LIMIT, _ => '+')
  const XS: string := seq(MAX_LINE - 2, _ => 'x')

  /** A balanced text with a line of 1975 characters: the longest fence, a line, a line that ends in three backticks, and
      the closing fence. */
  const TOO_LONG: string := FENCE + ("\n" + ("x" + ("\n" + (XS + BACKTICKS + "\n" + BACKTICKS))))

  lemma FenceIsFence(word: char -> bool)
    ensures IsFence(word, FENCE) && '\n' !in FENCE && |FENCE| == 23
  {}

  lemma XsStartsLine(more: string)
    requires '\n' !in more
    ensures '\n' !in XS + more && !(BACKTICKS <= Unindented(XS + more))
  {
    var line := XS + more;
    assert line[0] == 'x' && Unindented(line) == line;
  }

  /** The reopened block with the long line, cut short or not, is open. */
  lemma BlockIsOpen(word: char -> bool, more: string)
    requires '\n' !in more
    ensures OpenFence(word, FENCE + "\n" + (XS + more)) == Some(FENCE)
  {
    hide OpenFence, IsFence;
    FenceIsFence(word);
    XsStartsLine(more);
    LineAfterFence(word, FENCE, XS + more);
  }

  lemma BareFence(word: char -> bool, open: Option<string>)
    ensures Scan(word, open, BACKTICKS) == if open.Some? then None else Some(BACKTICKS)
  {
    assert LineEnd(BACKTICKS) == 3 && BACKTICKS[..3] == BACKTICKS && Unindented(BACKTICKS) == BACKTICKS;
    assert Tag(word, BACKTICKS[3..]) == "" && BACKTICKS + "" == BACKTICKS;
  }

  lemma TooLongIsBalanced(word: char -> bool)
    ensures OpenFence(word, TOO_LONG).None?
  {
    hide Scan, IsFence;
    var line := XS + BACKTICKS;
    var block := FENCE + "\n" + "x" + "\n" + line;
    assert TOO_LONG == block + "\n" + BACKTICKS;
    FenceIsFence(word);
    FenceOpensItself(word, FENCE);
    ScanJoined(word, None, FENCE, "x");
    FewCharactersAreNoFence(word, Some(FENCE), "x");
    ScanJoined(word, None, FENCE + "\n" + "x", line);
    PlainLine(word, Some(FENCE), line);
    ScanJoined(word, None, block, BACKTICKS);
    BareFence(word, Some(FENCE));
  }

  lemma PlainLine(word: char -> bool, open: Option<string>, line: string)
    requires line == XS + BACKTICKS
    ensures Scan(word, open, line) == open
  {
    XsStartsLine(BACKTICKS);
    assert LineEnd(line) == |line| && line[..|line|] == line;
  }

  /** Its newlines. */
  lemma TooLongLines()
    ensures |TOO_LONG| == 2005 && TOO_LONG[23] == TOO_LONG[25] == TOO_LONG[2001] == '\n'
    ensures forall i :: 25 < i < 2001 ==> TOO_LONG[i] != '\n'
    ensures ShortLines(TOO_LONG, MAX_LINE + 1)
  {
    NewlineWithin(TOO_LONG, 25);
    NewlineWithin(TOO_LONG, 2001);
  }

  lemma NewlineWithin(text: string, p: nat)
    requires p < |text| && text[p] == '\n'
    ensures forall i, j :: 0 <= i <= p < j <= |text| ==> '\n' in text[i..j]
  {
    forall i, j | 0 <= i <= p < j <= |text| ensures '\n' in text[i..j] {
      assert text[i..j][p - i] == '\n';
    }
  }

  /** The loop's cut, from the newlines around it. */
  lemma CutBetween(word: char -> bool, content: string, r: nat, first: nat, second: nat, fence: string)
    requires r <= 3 + TAG_LIMIT && MAX_LEN < |content| && SplitPoint(content, MAX_LEN, r) == first
    requires SplitPoint(content, MAX_LEN - |CLOSE_FENCE|, r) == second
    requires OpenFence(word, content[..first]).Some? && OpenFence(word, content[..second]) == Some(fence)
    ensures CutOf(word, content, r) == Cut(second, Some(fence))
  {}

  lemma FirstSplit(word: char -> bool)
    ensures Long(word, None, TOO_LONG) && NextFence(word, None, TOO_LONG) == Some(FENCE) && BodyLength(word, None, TOO_LONG) == 25
  {
    hide Scan, OpenFence, IsFence;
    TooLongLines();
    FenceIsFence(word);
    NothingReopened(TOO_LONG);
    assert TOO_LONG[..25] == FENCE + "\n" + "x";
    OpenAfterX(word);
    CutBetween(word, TOO_LONG, 0, 25, 25, FENCE);
  }

  lemma OpenAfterX(word: char -> bool)
    ensures OpenFence(word, FENCE + "\n" + "x") == Some(FENCE)
  {
    FenceIsFence(word);
    LineAfterFence(word, FENCE, "x");
  }

  const SECOND: string := "\n" + (XS + (BACKTICKS + "\n" + BACKTICKS))

  lemma SecondContent()
    ensures TOO_LONG[25..] == SECOND && |SECOND| == 1980
    ensures var content := Content(Some(FENCE), SECOND);
            && |content| == 2003 && content[23] == content[1999] == '\n' && (forall i :: 23 < i < 1999 ==> content[i] != '\n')
            && content[..1996] == FENCE + "\n" + (XS + "") && content[..1999] == FENCE + "\n" + (XS + BACKTICKS)
  {
    assert Content(Some(FENCE), SECOND) == FENCE + SECOND;
  }

  lemma SecondSplit(word: char -> bool)
    ensures Long(word, Some(FENCE), SECOND) && NextFence(word, Some(FENCE), SECOND) == Some(FENCE)
    ensures BodyLength(word, Some(FENCE), SECOND) == 1973
  {
    hide Scan, OpenFence, IsFence, Content;
    SecondContent();
    FenceIsFence(word);
    BlockIsOpen(word, "");
    BlockIsOpen(word, BACKTICKS);
    CutBetween(word, Content(Some(FENCE), SECOND), 23, 1999, 1996, FENCE);
  }

  const THIRD: string := BACKTICKS + "\n" + BACKTICKS

  lemma LastChunkIsOpen(word: char -> bool)
    ensures Content(Some(FENCE), THIRD) == FENCE + "\n" + BACKTICKS + "\n" + BACKTICKS
    ensures OpenFence(word, Content(Some(FENCE), THIRD)) == Some(BACKTICKS)
  {
    hide Scan, IsFence;
    FenceIsFence(word);
    FenceOpensItself(word, FENCE);
    ScanJoined(word, None, FENCE, BACKTICKS);
    BareFence(word, Some(FENCE));
    ScanJoined(word, None, FENCE + "\n" + BACKTICKS, BACKTICKS);
    BareFence(word, None);
  }

  /** One character more, and the last chunk can be left open: a hard split puts the three backticks at the end of a line
      at the start of a chunk. */
  lemma OneMoreCharacterCanUnbalance(word: char -> bool)
    ensures ShortLines(TOO_LONG, MAX_LINE + 1) && OpenFence(word, TOO_LONG).None?
    ensures var chunks := Rendered(Split(word, None, TOO_LONG));
            |chunks| == 3 && OpenFence(word, chunks[2]).Some?
  {
    hide OpenFence, Split, ShortLines, CutOf, IsFence, BodyLength, NextFence, First;
    TooLongLines();
    TooLongIsBalanced(word);
    FirstSplit(word);
    SecondContent();
    SecondSplit(word);
    FenceIsFence(word);
    SplitUnfolds(word, None, TOO_LONG, []);
    SplitUnfolds(word, Some(FENCE), SECOND, []);
    assert SECOND[1973..] == THIRD;
    LastChunkIsOpen(word);
    LastPiece(word, Some(FENCE), THIRD);
  }

  /** Every balanced text with lines of at most `n` characters gives balanced chunks. */
  ghost predicate KeepsBalance(word: char -> bool, n: nat) {
    forall text: string :: ShortLines(text, n) && OpenFence(word, text).None? ==>
      var chunks := Rendered(Split(word, None, text));
      forall i :: 0 <= i < |chunks| ==> OpenFence(word, chunks[i]).None?
  }

  /** The exact condition. */
  lemma BalanceIsKeptUpTo(word: char -> bool, n: nat)
    ensures KeepsBalance(word, n) <==> n <= MAX_LINE
  {
    hide OpenFence, Split;
    if n <= MAX_LINE {
      forall text: string | ShortLines(text, n) && OpenFence(word, text).None?
        ensures var chunks := Rendered(Split(word, None, text));
                forall i :: 0 <= i < |chunks| ==> OpenFence(word, chunks[i]).None?
      {
        BalancedTextGivesBalancedChunks(word, text);
      }
    } else {
      OneMoreCharacterCanUnbalance(word);
      assert ShortLines(TOO_LONG, n);
    }
  }
}
