/**
 `build_message`: splitting a reply into chunks that Discord accepts, closing a code block that a split
 cuts and reopening it in the next chunk.

 The state of the loop is the original text still to be sent, `rest`, and the fence to be reopened before
 it; the loop's `content` is `Content(fence, rest)`. A `Piece` is a chunk with its inserted parts told
 apart from the original text it carries.
 */
module MessageBuilder {
  import opened Options
  import opened Fences

  const MAX_LEN: nat := 2000
  const CLOSE_FENCE: string := "\n```"

  // ---- One split ------------------------------------------------------------------------

  /** `content.rfind("\n", 0, limit)` */
  function LastNewline(content: string, limit: nat): (n: int)
    requires limit <= |content|
    ensures -1 <= n < limit
    ensures n >= 0 ==> content[n] == '\n'
    ensures forall i :: n < i < limit ==> content[i] != '\n'
  {
    if limit == 0 then -1
    else if content[limit - 1] == '\n' then limit - 1
    else LastNewline(content, limit - 1)
  }

  function SplitPoint(content: string, limit: nat, floor: nat): (n: nat)
    requires floor < limit <= |content|
    ensures floor < n <= limit
    ensures n == limit || content[n] == '\n'
  {
    var at := LastNewline(content, limit);
    if at > floor then at else limit
  }

  datatype Cut = Cut(at: nat, fence: Option<string>)

  /** Where the loop splits `content`, and the fence that is open there. */
  function CutOf(word: char -> bool, content: string, reopened: nat): (c: Cut)
    requires reopened <= 3 + TAG_LIMIT && MAX_LEN < |content|
    ensures reopened < c.at <= MAX_LEN
    ensures c.fence == OpenFence(word, content[..c.at])
    ensures c.fence.Some? ==> c.at <= MAX_LEN - |CLOSE_FENCE|
    ensures c.at >= MAX_LEN - |CLOSE_FENCE| || content[c.at] == '\n'
  {
    var first := SplitPoint(content, MAX_LEN, reopened);
    var open := OpenFence(word, content[..first]);
    if open.None? then Cut(first, open)
    else
      var second := SplitPoint(content, MAX_LEN - |CLOSE_FENCE|, reopened);
      Cut(second, OpenFence(word, content[..second]))
  }

  /** What is put before the rest of the text to reopen a fence. */
  function Reopening(fence: Option<string>, rest: string): string {
    if fence.None? then "" else fence.value + if rest != "" && rest[0] == '\n' then "" else "\n"
  }

  function Content(fence: Option<string>, rest: string): string {
    Reopening(fence, rest) + rest
  }

  /** The length of the reopened fence line, zero when there is none. */
  function Reopened(fence: Option<string>): nat {
    if fence.None? then 0 else |fence.value|
  }

  predicate Reopenable(word: char -> bool, fence: Option<string>) {
    fence.Some? ==> IsFence(word, fence.value) && '\n' !in fence.value
  }

  /** Every split is past the inserted prefix and at least one original character. */
  lemma CutIsPastThePrefix(word: char -> bool, fence: Option<string>, rest: string)
    requires Reopenable(word, fence) && MAX_LEN < |Content(fence, rest)|
    ensures |Reopening(fence, rest)| < CutOf(word, Content(fence, rest), Reopened(fence)).at
    ensures Reopenable(word, CutOf(word, Content(fence, rest), Reopened(fence)).fence)
  {
    var content := Content(fence, rest);
    var cut := CutOf(word, content, Reopened(fence));
    ScanResult(word, None, content[..cut.at]);
  }

  // ---- All splits -----------------------------------------------------------------------

  datatype Piece = Piece(reopening: string, body: string, closing: string)

  function Render(p: Piece): string {
    p.reopening + p.body + p.closing
  }

  /** The loop runs again: the content does not fit into one chunk. */
  ghost predicate Long(word: char -> bool, fence: Option<string>, rest: string) {
    Reopenable(word, fence) && MAX_LEN < |Content(fence, rest)|
  }

  function NextFence(word: char -> bool, fence: Option<string>, rest: string): (f: Option<string>)
    requires Long(word, fence, rest)
    ensures Reopenable(word, f)
  {
    CutIsPastThePrefix(word, fence, rest);
    CutOf(word, Content(fence, rest), Reopened(fence)).fence
  }

  /** The number of original characters in the first piece. */
  function BodyLength(word: char -> bool, fence: Option<string>, rest: string): (n: nat)
    requires Long(word, fence, rest)
    ensures 0 < n < |rest|
    ensures n == CutOf(word, Content(fence, rest), Reopened(fence)).at - |Reopening(fence, rest)|
  {
    CutIsPastThePrefix(word, fence, rest);
    CutOf(word, Content(fence, rest), Reopened(fence)).at - |Reopening(fence, rest)|
  }

  function First(word: char -> bool, fence: Option<string>, rest: string): Piece
    requires Long(word, fence, rest)
  {
    Piece(Reopening(fence, rest), rest[..BodyLength(word, fence, rest)],
          if NextFence(word, fence, rest).Some? then CLOSE_FENCE else "")
  }

  function Split(word: char -> bool, fence: Option<string>, rest: string): seq<Piece>
    requires Reopenable(word, fence)
    decreases |rest|
  {
    if MAX_LEN < |Content(fence, rest)| then
      [First(word, fence, rest)]
      + Split(word, NextFence(word, fence, rest), rest[BodyLength(word, fence, rest)..])
    else if Content(fence, rest) == "" then []
    else [Piece(Reopening(fence, rest), rest, "")]
  }

  // ---- The loop -------------------------------------------------------------------------

  /** The measure of the loop: the length of `content`, which may stay the same once, when a split falls right
      after an opening fence, and then the fact that nothing was reopened before. */
  lemma SplitMakesProgress(word: char -> bool, fence: Option<string>, rest: string)
    requires Long(word, fence, rest)
    ensures var content := Content(fence, rest);
            var content' := Content(NextFence(word, fence, rest), rest[BodyLength(word, fence, rest)..]);
            |content'| < |content| || (|content'| == |content| && fence.None? && NextFence(word, fence, rest).Some?)
  {
    hide Scan, OpenFence, SplitPoint, LastNewline, FenceOf, Toggle;
    var content := Content(fence, rest);
    var cut := CutOf(word, content, Reopened(fence));
    OpenFenceIsShort(word, content[..cut.at]);
    if fence.Some? && cut.fence.Some? {
      var f := fence.value;
      var after := content[|f| + 1..cut.at];
      assert content[..cut.at] == f + "\n" + after;
      LaterFenceIsShorter(word, f, after);
    }
  }

  lemma OpenFenceIsShort(word: char -> bool, text: string)
    ensures OpenFence(word, text).Some? ==> |OpenFence(word, text).value| <= |text|
  {
    ScanResult(word, None, text);
  }

  lemma LaterFenceIsShorter(word: char -> bool, f: string, after: string)
    requires IsFence(word, f) && '\n' !in f
    ensures var g := OpenFence(word, f + "\n" + after); g.Some? ==> |g.value| < |f| + 1 + |after|
  {
    ScanJoined(word, None, f, after);
    FenceOpensItself(word, f);
    ScanResult(word, Some(f), after);
  }

  /** What the loop cuts off is the first piece without its closing, and the rest of the text remains. */
  lemma CutIsFirstPiece(word: char -> bool, fence: Option<string>, rest: string)
    requires Long(word, fence, rest)
    ensures var content := Content(fence, rest);
            var n := BodyLength(word, fence, rest);
            var at := CutOf(word, content, Reopened(fence)).at;
            && content[..at] == Reopening(fence, rest) + rest[..n] && content[at..] == rest[n..]
            && Render(First(word, fence, rest))
               == if NextFence(word, fence, rest).Some? then content[..at] + CLOSE_FENCE else content[..at]
  {
    hide Reopening, CutOf, Reopenable;
  }

  function Rendered(pieces: seq<Piece>): (r: seq<string>)
    ensures |r| == |pieces|
  {
    seq(|pieces|, i requires 0 <= i < |pieces| => Render(pieces[i]))
  }

  /** The content of the next iteration, as the loop builds it. */
  lemma NextContent(word: char -> bool, fence: Option<string>, rest: string)
    requires Long(word, fence, rest)
    ensures var content := Content(fence, rest);
            var at := CutOf(word, content, Reopened(fence)).at;
            var open := NextFence(word, fence, rest);
            && at < |content|
            && Content(open, rest[BodyLength(word, fence, rest)..])
               == if open.None? then content[at..]
                  else open.value + (if content[at] == '\n' then "" else "\n") + content[at..]
  {
    hide CutOf, First, Render;
    CutIsFirstPiece(word, fence, rest);
  }

  /** The two attempts at a split point. */
  method ChooseSplit(word: char -> bool, content: string, reopened: nat) returns (splitAt: nat, open: Option<string>)
    requires reopened <= 3 + TAG_LIMIT && MAX_LEN < |content|
    ensures Cut(splitAt, open) == CutOf(word, content, reopened)
  {
    splitAt := SplitPoint(content, MAX_LEN, reopened);
    open := FindOpenFence(word, content[..splitAt]);
    if open.Some? {
      // Leave room for the closing fence.
      splitAt := SplitPoint(content, MAX_LEN - |CLOSE_FENCE|, reopened);
      open := FindOpenFence(word, content[..splitAt]);
    }
  }

  /** `build_message`, with the variables of the source. */
  method BuildMessage(word: char -> bool, text: string) returns (chunks: seq<string>)
    ensures chunks == Rendered(Split(word, None, text))
    ensures forall i :: 0 <= i < |chunks| ==> 0 < |chunks[i]| <= 2000
    ensures forall i :: 0 <= i < |chunks| - 1 ==> OpenFence(word, chunks[i]).None?
  {
    hide OpenFence, First, Render, IsFence, CutOf, BodyLength, Split, Content;
    var content := text;
    chunks := [];
    var reopened := 0;
    ghost var fence: Option<string>, rest := None, text;
    ghost var done: seq<Piece> := [];
    NothingReopened(text);
    while |content| > MAX_LEN
      invariant Reopenable(word, fence) && content == Content(fence, rest) && reopened == Reopened(fence)
      invariant reopened <= 3 + TAG_LIMIT
      invariant done + Split(word, fence, rest) == Split(word, None, text)
      invariant chunks == Rendered(done)
      decreases |content|, reopened == 0
    {
      SplitMakesProgress(word, fence, rest);
      CutIsFirstPiece(word, fence, rest);
      NextContent(word, fence, rest);
      SplitUnfolds(word, fence, rest, done);
      var splitAt, open := ChooseSplit(word, content, reopened);
      var chunk := content[..splitAt];
      content := content[splitAt..];
      reopened := 0;
      if open.Some? {
        chunk := chunk + CLOSE_FENCE;
        content := open.value + (if content[0] == '\n' then "" else "\n") + content;
        reopened := |open.value|;
      }
      chunks := chunks + [chunk];
      FencesAreShort(word, open);
      done, fence, rest := done + [First(word, fence, rest)], open, rest[BodyLength(word, fence, rest)..];
    }
    if content != "" {
      chunks := chunks + [content];
      LastPiece(word, fence, rest);
    } else {
      NoPiece(word, fence, rest);
    }
    PieceShapes(word, None, text);
  }

  lemma NothingReopened(text: string)
    ensures Content(None, text) == text
  {}

  lemma FencesAreShort(word: char -> bool, fence: Option<string>)
    requires Reopenable(word, fence)
    ensures Reopened(fence) <= 3 + TAG_LIMIT && (fence.Some? ==> Reopened(fence) != 0)
  {}

  lemma NoPiece(word: char -> bool, fence: Option<string>, rest: string)
    requires Reopenable(word, fence) && Content(fence, rest) == ""
    ensures Split(word, fence, rest) == []
  {}

  lemma SplitUnfolds(word: char -> bool, fence: Option<string>, rest: string, done: seq<Piece>)
    requires Long(word, fence, rest)
    ensures var tail := Split(word, NextFence(word, fence, rest), rest[BodyLength(word, fence, rest)..]);
            && Split(word, fence, rest) == [First(word, fence, rest)] + tail
            && done + Split(word, fence, rest) == (done + [First(word, fence, rest)]) + tail
  {
    hide Reopening, CutOf, First, BodyLength, NextFence;
  }

  lemma LastPiece(word: char -> bool, fence: Option<string>, rest: string)
    requires Reopenable(word, fence) && |Content(fence, rest)| <= MAX_LEN && Content(fence, rest) != ""
    ensures Split(word, fence, rest) == [Piece(Reopening(fence, rest), rest, "")]
    ensures Render(Piece(Reopening(fence, rest), rest, "")) == Content(fence, rest)
  {}

  // ---- What the pieces are ----------------------------------------------------------------

  ghost function Bodies(pieces: seq<Piece>): string {
    if pieces == [] then "" else pieces[0].body + Bodies(pieces[1..])
  }

  /** Content is preserved: without the inserted reopenings and closings, the chunks are exactly the text. */
  lemma {:induction false} ContentPreserved(word: char -> bool, fence: Option<string>, rest: string)
    requires Reopenable(word, fence)
    ensures Bodies(Split(word, fence, rest)) == rest
    decreases |rest|
  {
    hide Split, NextFence, First, Reopening, OpenFence, IsFence;
    var pieces := Split(word, fence, rest);
    if Long(word, fence, rest) {
      var n := BodyLength(word, fence, rest);
      ContentPreserved(word, NextFence(word, fence, rest), rest[n..]);
      SplitUnfolds(word, fence, rest, []);
      FirstBody(word, fence, rest);
      assert pieces[1..] == Split(word, NextFence(word, fence, rest), rest[n..]);
      assert rest[..n] + rest[n..] == rest;
    } else if Content(fence, rest) == "" {
      NoPiece(word, fence, rest);
    } else {
      LastPiece(word, fence, rest);
      assert pieces[1..] == [];
    }
  }

  lemma FirstBody(word: char -> bool, fence: Option<string>, rest: string)
    requires Long(word, fence, rest)
    ensures First(word, fence, rest).body == rest[..BodyLength(word, fence, rest)]
  {}

  /** The inserted parts are whole: nothing, a fence, or a fence and a newline in front; nothing or a closing
      fence line behind. */
  ghost predicate WholeInsertions(word: char -> bool, p: Piece) {
    && (p.reopening == "" || exists f :: IsFence(word, f) && '\n' !in f && (p.reopening == f || p.reopening == f + "\n"))
    && (p.closing == "" || p.closing == CLOSE_FENCE)
  }

  ghost predicate GoodPiece(word: char -> bool, p: Piece, last: bool) {
    && 0 < |Render(p)| <= MAX_LEN && WholeInsertions(word, p)
    && (last ==> p.closing == "")
    && (!last ==> p.body != "" && OpenFence(word, Render(p)).None?)
  }

  lemma FirstPieceCloses(word: char -> bool, fence: Option<string>, rest: string)
    requires Long(word, fence, rest)
    ensures OpenFence(word, Render(First(word, fence, rest))).None?
    ensures 0 < |Render(First(word, fence, rest))| <= MAX_LEN
  {
    hide OpenFence, First, Render, SplitPoint;
    var content := Content(fence, rest);
    var at := CutOf(word, content, Reopened(fence)).at;
    CutIsFirstPiece(word, fence, rest);
    if NextFence(word, fence, rest).Some? {
      ClosingFenceCloses(word, content[..at]);
      assert content[..at] + CLOSE_FENCE == content[..at] + "\n" + BACKTICKS;
    }
  }

  lemma FirstPieceIsGood(word: char -> bool, fence: Option<string>, rest: string)
    requires Long(word, fence, rest)
    ensures GoodPiece(word, First(word, fence, rest), false)
  {
    hide OpenFence, Render, CutOf, IsFence;
    FirstPieceCloses(word, fence, rest);
  }

  /** Every chunk fits, no inserted prefix is split, every chunk but the last carries original text and leaves
      no fence open. */
  lemma {:induction false} PieceShapes(word: char -> bool, fence: Option<string>, rest: string)
    requires Reopenable(word, fence)
    ensures var pieces := Split(word, fence, rest);
            forall i :: 0 <= i < |pieces| ==> GoodPiece(word, pieces[i], i == |pieces| - 1)
    decreases |rest|
  {
    hide GoodPiece, CutOf, NextFence, First, BodyLength;
    var pieces := Split(word, fence, rest);
    if MAX_LEN < |Content(fence, rest)| {
      var n := BodyLength(word, fence, rest);
      var tail := Split(word, NextFence(word, fence, rest), rest[n..]);
      FirstPieceIsGood(word, fence, rest);
      PieceShapes(word, NextFence(word, fence, rest), rest[n..]);
      SplitUnfolds(word, fence, rest, []);
      assert tail != [];
      forall i | 0 <= i < |pieces| ensures GoodPiece(word, pieces[i], i == |pieces| - 1) {
        if i > 0 {
          assert pieces[i] == tail[i - 1];
        }
      }
    } else if Content(fence, rest) != "" {
      OnlyPieceIsGood(word, fence, rest);
    }
  }

  lemma OnlyPieceIsGood(word: char -> bool, fence: Option<string>, rest: string)
    requires Reopenable(word, fence) && |Content(fence, rest)| <= MAX_LEN && Content(fence, rest) != ""
    ensures GoodPiece(word, Piece(Reopening(fence, rest), rest, ""), true)
  {
    hide OpenFence, IsFence;
    LastPiece(word, fence, rest);
  }

}
