/**
 Code fences in a message: which fence is left open at the end of a text.

 A fence line is a line whose first non-blank characters are three backticks; the tag is the longest run
 of word characters, '+', '#', '.' and '-' after them. Which characters are word characters is the
 regular-expression engine's business, so it is the parameter `word`.
 */
module Fences {
  import opened Options

  const BACKTICKS: string := "```"
  const TAG_LIMIT: nat := 20

  predicate TagChar(word: char -> bool, c: char) {
    word(c) || c == '+' || c == '#' || c == '.' || c == '-'
  }

  /** The line without its leading spaces and tabs. */
  function Unindented(line: string): (r: string)
    ensures |r| <= |line|
    ensures line == "" || (line[0] != ' ' && line[0] != '\t') ==> r == line
  {
    if line != "" && (line[0] == ' ' || line[0] == '\t') then Unindented(line[1..]) else line
  }

  /** The longest prefix made of tag characters. */
  function Tag(word: char -> bool, s: string): (r: string)
    ensures r <= s && forall i :: 0 <= i < |r| ==> TagChar(word, r[i])
    ensures (forall i :: 0 <= i < |s| ==> TagChar(word, s[i])) ==> r == s
  {
    if s != "" && TagChar(word, s[0]) then [s[0]] + Tag(word, s[1..]) else ""
  }

  function Truncate(s: string, n: nat): string {
    if |s| <= n then s else s[..n]
  }

  /** The opening fence that a line would contribute, if it is a fence line. */
  function FenceOf(word: char -> bool, line: string): (r: Option<string>)
    ensures r.Some? ==> IsFence(word, r.value) && |r.value| <= |line|
  {
    var l := Unindented(line);
    if BACKTICKS <= l then Some(BACKTICKS + Truncate(Tag(word, l[3..]), TAG_LIMIT)) else None
  }

  /** A fence line opens a block, or closes the one that is open. */
  function Toggle(word: char -> bool, open: Option<string>, line: string): Option<string> {
    var f := FenceOf(word, line);
    if f.None? then open else if open.Some? then None else f
  }

  /** The position of the first newline, or the length of the text. */
  function LineEnd(text: string): (n: nat)
    ensures n <= |text| && (n < |text| ==> text[n] == '\n')
    ensures forall i :: 0 <= i < n ==> text[i] != '\n'
  {
    if text == "" || text[0] == '\n' then 0 else 1 + LineEnd(text[1..])
  }

  /** The fence left open after all lines of `text`, when `open` was open before them. */
  function Scan(word: char -> bool, open: Option<string>, text: string): Option<string>
    decreases |text|
  {
    var n := LineEnd(text);
    var open' := Toggle(word, open, text[..n]);
    if n == |text| then open' else Scan(word, open', text[n + 1..])
  }

  function OpenFence(word: char -> bool, text: string): Option<string> {
    Scan(word, None, text)
  }

  /** Three backticks and a tag of at most twenty characters. */
  predicate IsFence(word: char -> bool, f: string) {
    BACKTICKS <= f && |f| <= 3 + TAG_LIMIT && forall i :: 3 <= i < |f| ==> TagChar(word, f[i])
  }

  /** The matches of the fence pattern, one line at a time, as the loop over them sees it. */
  method FindOpenFence(word: char -> bool, text: string) returns (opener: Option<string>)
    ensures opener == OpenFence(word, text)
  {
    opener := None;
    var rest := text;
    var more := true;
    while more
      invariant more ==> Scan(word, opener, rest) == OpenFence(word, text)
      invariant !more ==> opener == OpenFence(word, text)
      decreases more, |rest|
    {
      var n := LineEnd(rest);
      var f := FenceOf(word, rest[..n]);
      if f.Some? {
        opener := if opener.Some? then None else f;
      }
      if n == |rest| {
        more := false;
      } else {
        rest := rest[n + 1..];
      }
    }
  }

  // ---- Lemmas ---------------------------------------------------------------------------

  /** Scanning two texts joined by a newline is scanning the one, then the other. */
  lemma {:induction false} ScanJoined(word: char -> bool, open: Option<string>, a: string, b: string)
    ensures Scan(word, open, a + "\n" + b) == Scan(word, Scan(word, open, a), b)
    decreases |a|
  {
    var text := a + "\n" + b;
    var n := LineEnd(a);
    LineEndJoined(a, b);
    assert text[..n] == a[..n];
    if n == |a| {
      assert text[n + 1..] == b;
    } else {
      assert text[n + 1..] == a[n + 1..] + "\n" + b;
      ScanJoined(word, Toggle(word, open, a[..n]), a[n + 1..], b);
    }
  }

  lemma {:induction false} LineEndJoined(a: string, b: string)
    ensures LineEnd(a + "\n" + b) == LineEnd(a)
  {
    var text := a + "\n" + b;
    if a != "" && a[0] != '\n' {
      assert text[1..] == a[1..] + "\n" + b;
      LineEndJoined(a[1..], b);
    }
  }

  /** A fence, read back as a line of its own, opens exactly itself. */
  lemma FenceOpensItself(word: char -> bool, f: string)
    requires IsFence(word, f) && '\n' !in f
    ensures OpenFence(word, f) == Some(f)
  {
    assert LineEnd(f) == |f|;
    assert f[..|f|] == f && Unindented(f) == f;
    assert Tag(word, f[3..]) == f[3..];
    assert BACKTICKS + f[3..] == f;
  }

  /** What is open at the end was open before, or is a fence no longer than the text, free of newlines. */
  lemma {:induction false} ScanResult(word: char -> bool, open: Option<string>, text: string)
    ensures var r := Scan(word, open, text);
            r.Some? ==> r == open || (IsFence(word, r.value) && |r.value| <= |text| && '\n' !in r.value)
    decreases |text|
  {
    var n := LineEnd(text);
    FenceHasNoNewline(word, text[..n]);
    if n < |text| {
      ScanResult(word, Toggle(word, open, text[..n]), text[n + 1..]);
    }
  }

  lemma FenceHasNoNewline(word: char -> bool, line: string)
    requires '\n' !in line
    ensures FenceOf(word, line).Some? ==> '\n' !in FenceOf(word, line).value
  {
    UnindentedIsSuffix(line);
    var l := Unindented(line);
    if BACKTICKS <= l {
      var t := Truncate(Tag(word, l[3..]), TAG_LIMIT);
      assert t <= l[3..];
      assert forall i :: 0 <= i < |t| ==> t[i] == l[3 + i];
    }
  }

  lemma {:induction false} UnindentedIsSuffix(line: string)
    ensures Unindented(line) == line[|line| - |Unindented(line)|..]
  {
    if line != "" && (line[0] == ' ' || line[0] == '\t') {
      UnindentedIsSuffix(line[1..]);
    }
  }

  /** Closing: a text whose end has an open fence has none after a bare fence line. */
  lemma ClosingFenceCloses(word: char -> bool, text: string)
    requires OpenFence(word, text).Some?
    ensures OpenFence(word, text + "\n" + BACKTICKS).None?
  {
    ScanJoined(word, None, text, BACKTICKS);
    assert LineEnd(BACKTICKS) == 3;
    assert BACKTICKS[..3] == BACKTICKS && Unindented(BACKTICKS) == BACKTICKS;
  }

  // ---- Which lines are fences, position by position ---------------------------------------------

  predicate Blank(c: char) {
    c == ' ' || c == '\t'
  }

  /** `p` is the first position of the line that is neither a space nor a tab. */
  ghost predicate FirstSolid(line: string, p: nat) {
    p < |line| && !Blank(line[p]) && forall i :: 0 <= i < p ==> Blank(line[i])
  }

  /** The maximal run of tag characters from `from` on ends at `to`. */
  ghost predicate TagRun(word: char -> bool, line: string, from: nat, to: nat) {
    && from <= to <= |line|
    && (forall i :: from <= i < to ==> word(line[i]) || line[i] in "+#.-")
    && (to < |line| ==> !word(line[to]) && line[to] !in "+#.-")
  }

  lemma {:induction false} UnindentedStartsAt(line: string, p: nat)
    requires FirstSolid(line, p)
    ensures Unindented(line) == line[p..]
  {
    if p > 0 {
      UnindentedStartsAt(line[1..], p - 1);
    }
  }

  lemma {:induction false} AllBlank(line: string)
    requires forall i :: 0 <= i < |line| ==> Blank(line[i])
    ensures Unindented(line) == ""
  {
    if line != "" {
      AllBlank(line[1..]);
    }
  }

  lemma {:induction false} TagIsRun(word: char -> bool, s: string, n: nat)
    requires TagRun(word, s, 0, n)
    ensures Tag(word, s) == s[..n]
  {
    if n > 0 {
      assert TagRun(word, s[1..], 0, n - 1);
      TagIsRun(word, s[1..], n - 1);
    }
  }

  /** A line is a fence exactly when its first character that is neither space nor tab starts three backticks; it opens
      those backticks with the first twenty of the run of tag characters after them. */
  lemma FenceByPosition(word: char -> bool, line: string, p: nat, to: nat)
    requires FirstSolid(line, p)
    ensures FenceOf(word, line).Some? <==> p + 3 <= |line| && line[p] == line[p + 1] == line[p + 2] == '`'
    ensures FenceOf(word, line).Some? && TagRun(word, line, p + 3, to) ==>
              FenceOf(word, line) == Some("```" + line[p + 3..if to <= p + 23 then to else p + 23])
  {
    hide FenceOf, Tag, TagRun;
    UnindentedStartsAt(line, p);
    FenceOfSolid(word, line, line[p..]);
    if FenceOf(word, line).Some? && TagRun(word, line, p + 3, to) {
      assert line[p..][3..] == line[p + 3..];
      RunFrom(word, line, p + 3, to);
      TagIsRun(word, line[p + 3..], to - p - 3);
      FirstTwenty(line, p + 3, to);
    }
  }

  lemma FenceOfSolid(word: char -> bool, line: string, solid: string)
    requires Unindented(line) == solid
    ensures FenceOf(word, line).Some? <==> 3 <= |solid| && solid[0] == solid[1] == solid[2] == '`'
    ensures FenceOf(word, line).Some? ==> FenceOf(word, line) == Some("```" + Truncate(Tag(word, solid[3..]), 20))
  {
    hide Tag, Truncate;
  }

  lemma RunFrom(word: char -> bool, line: string, from: nat, to: nat)
    requires TagRun(word, line, from, to)
    ensures TagRun(word, line[from..], 0, to - from)
  {}

  lemma FirstTwenty(line: string, from: nat, to: nat)
    requires from <= to <= |line|
    ensures Truncate(line[from..][..to - from], 20) == line[from..if to <= from + 20 then to else from + 20]
  {}

  /** A blank line is none. */
  lemma BlankLineIsNoFence(word: char -> bool, line: string)
    requires forall i :: 0 <= i < |line| ==> Blank(line[i])
    ensures FenceOf(word, line).None?
  {
    AllBlank(line);
  }

  /** Indentation does not matter. */
  lemma {:induction false} IndentationIsIgnored(word: char -> bool, indent: string, line: string)
    requires forall i :: 0 <= i < |indent| ==> indent[i] == ' ' || indent[i] == '\t'
    ensures FenceOf(word, indent + line) == FenceOf(word, line)
  {
    if indent == "" {
      assert indent + line == line;
    } else {
      assert (indent + line)[1..] == indent[1..] + line;
      IndentationIsIgnored(word, indent[1..], line);
    }
  }

  // ---- Which fence a text leaves open, line by line ------------------------------------------------

  /** The lines with a newline after each but the last. */
  function Joined(lines: seq<string>): string
    requires lines != []
  {
    if |lines| == 1 then lines[0] else Joined(lines[..|lines| - 1]) + "\n" + lines[|lines| - 1]
  }

  function FenceLines(word: char -> bool, lines: seq<string>): nat {
    if lines == [] then 0
    else FenceLines(word, lines[..|lines| - 1]) + if FenceOf(word, lines[|lines| - 1]).Some? then 1 else 0
  }

  /** Of a text's fence lines, every second one closes: a block is open at the end exactly if their number is odd, and then
      it is the one that the last fence line has opened. */
  lemma {:induction false} OpenFenceByLines(word: char -> bool, lines: seq<string>, last: nat)
    requires lines != [] && forall i :: 0 <= i < |lines| ==> '\n' !in lines[i]
    ensures OpenFence(word, Joined(lines)).Some? <==> FenceLines(word, lines) % 2 == 1
    ensures last < |lines| && FenceOf(word, lines[last]).Some? && FenceLines(word, lines) % 2 == 1
            && (forall i :: last < i < |lines| ==> FenceOf(word, lines[i]).None?) ==>
              OpenFence(word, Joined(lines)) == FenceOf(word, lines[last])
  {
    hide Scan, FenceOf;
    var n := |lines| - 1;
    var line := lines[n];
    if n == 0 {
      ScanOneLine(word, None, line);
      assert Joined(lines) == line && FenceLines(word, lines[..0]) == 0;
    } else {
      OpenFenceByLines(word, lines[..n], last);
      ScanJoined(word, None, Joined(lines[..n]), line);
      ScanOneLine(word, OpenFence(word, Joined(lines[..n])), line);
    }
  }

  lemma ScanOneLine(word: char -> bool, open: Option<string>, line: string)
    requires '\n' !in line
    ensures Scan(word, open, line)
            == if FenceOf(word, line).None? then open else if open.Some? then None else FenceOf(word, line)
  {
    LineEndsIt(line);
  }

  lemma LineEndsIt(line: string)
    requires '\n' !in line
    ensures LineEnd(line) == |line| && line[..|line|] == line
  {}
}
