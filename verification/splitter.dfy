// Splitting a text into chunks of bounded size: greedy packing of paragraphs, windows over
// a paragraph that is too long, and optional overlap between neighbours.
module Splitter {
  import opened Basics

  // Which characters are white space; a newline is.
  type Spaces = char -> bool

  const NEWLINE := '\n'

  // ---------- trimming, splitting, joining ----------

  function TrimLeft(space: Spaces, s: string): string {
    if s != [] && space(s[0]) then TrimLeft(space, s[1..]) else s
  }

  function TrimRight(space: Spaces, s: string): string {
    if s != [] && space(s[|s| - 1]) then TrimRight(space, s[..|s| - 1]) else s
  }

  function Trim(space: Spaces, s: string): string {
    TrimRight(space, TrimLeft(space, s))
  }

  // The lines of a text; at least one.
  function Lines(s: string): seq<string> {
    if s == [] then [[]]
    else
      var rest := Lines(s[1..]);
      if s[0] == NEWLINE then [[]] + rest else [[s[0]] + rest[0]] + rest[1..]
  }

  function Join(parts: seq<string>): string {
    if parts == [] then [] else if |parts| == 1 then parts[0] else parts[0] + ([NEWLINE] + Join(parts[1..]))
  }

  function Flat(parts: seq<string>): string {
    if parts == [] then [] else parts[0] + Flat(parts[1..])
  }

  // A text without its newlines.
  function Strip(s: string): string {
    if s == [] then [] else (if s[0] == NEWLINE then [] else [s[0]]) + Strip(s[1..])
  }

  function Tokens(parts: seq<string>): nat {
    if parts == [] then 0 else Tokens(parts[..|parts| - 1]) + |parts[|parts| - 1]|
  }

  // A trimmed, non-blank line.
  predicate Paragraph(space: Spaces, p: string) {
    p != [] && !space(p[0]) && !space(p[|p| - 1]) && NEWLINE !in p
  }

  function ParagraphsOf(space: Spaces, lines: seq<string>): seq<string> {
    if lines == [] then []
    else
      var p := Trim(space, lines[|lines| - 1]);
      ParagraphsOf(space, lines[..|lines| - 1]) + (if p == [] then [] else [p])
  }

  // The trimmed non-blank paragraphs of a text, in order.
  function Paragraphs(space: Spaces, text: string): seq<string> {
    ParagraphsOf(space, Lines(Trim(space, text)))
  }

  // ---------- windows over a long paragraph ----------

  datatype Window = Window(start: nat, end: nat)

  function StepOf(max: nat, overlap: int): nat {
    if 0 < overlap < max then max - overlap else max
  }

  function Windows(n: nat, max: nat, step: nat, i: nat): seq<Window>
    requires 1 <= step <= max && i < n
    decreases n - i
  {
    if i + max >= n then [Window(i, n)] else [Window(i, i + max)] + Windows(n, max, step, i + step)
  }

  function PiecesOf(s: string, ws: seq<Window>): seq<string>
    requires forall k :: 0 <= k < |ws| ==> ws[k].start <= ws[k].end <= |s|
  {
    seq(|ws|, k requires 0 <= k < |ws| => s[ws[k].start..ws[k].end])
  }

  // What the windows are: they start where the text does and end where it does, advance by
  // the step, and each but the last is full.
  ghost predicate Tiles(ws: seq<Window>, n: nat, max: nat, step: nat, i: nat) {
    ws != [] && ws[0].start == i && ws[|ws| - 1].end == n
    && (forall k :: 0 <= k < |ws| ==> ws[k].start < ws[k].end <= n && ws[k].end - ws[k].start <= max)
    && (forall k :: 0 <= k < |ws| - 1 ==> ws[k].end == ws[k].start + max && ws[k + 1].start == ws[k].start + step)
    && (forall k :: 0 <= k < |ws| - 1 ==> ws[k].end < n)
  }

  lemma {:induction false} WindowsTile(n: nat, max: nat, step: nat, i: nat)
    requires 1 <= step <= max && i < n
    ensures Tiles(Windows(n, max, step, i), n, max, step, i)
    decreases n - i
  {
    if i + max < n {
      WindowsTile(n, max, step, i + step);
      TilesInFront(Windows(n, max, step, i + step), n, max, step, i);
    }
  }

  lemma {:induction false} TilesInFront(rest: seq<Window>, n: nat, max: nat, step: nat, i: nat)
    requires 1 <= step <= max && i + max < n && Tiles(rest, n, max, step, i + step)
    ensures Tiles([Window(i, i + max)] + rest, n, max, step, i)
  {
    var ws := [Window(i, i + max)] + rest;
    assert forall k :: 0 < k < |ws| ==> ws[k] == rest[k - 1];
  }

  // Neighbouring windows share exactly what the step leaves, and none lies in the one before.
  lemma {:induction false} WindowsOverlapExactly(n: nat, max: nat, overlap: int, k: nat)
    requires 1 <= max < n && k + 1 < |Windows(n, max, StepOf(max, overlap), 0)|
    ensures var ws := Windows(n, max, StepOf(max, overlap), 0);
            ws[k].end - ws[k + 1].start == (if 0 < overlap < max then overlap else 0)
            && ws[k].start < ws[k + 1].start && ws[k].end < ws[k + 1].end
  {
    WindowsTile(n, max, StepOf(max, overlap), 0);
  }

  // Every position is in some window.
  lemma {:induction false} WindowsCover(n: nat, max: nat, step: nat, i: nat, x: nat)
    requires 1 <= step <= max && i <= x < n
    ensures exists k :: 0 <= k < |Windows(n, max, step, i)|
              && Windows(n, max, step, i)[k].start <= x < Windows(n, max, step, i)[k].end
    decreases n - i
  {
    var ws := Windows(n, max, step, i);
    if i + max >= n || x < i + max {
      assert ws[0].start <= x < ws[0].end;
    } else {
      var rest := Windows(n, max, step, i + step);
      WindowsCover(n, max, step, i + step, x);
      var k :| 0 <= k < |rest| && rest[k].start <= x < rest[k].end;
      assert ws[k + 1] == rest[k];
    }
  }

  // The windows as pieces of the text, from position i on.
  function Pieces(s: string, max: nat, step: nat, i: nat): seq<string>
    requires 1 <= step <= max && i < |s|
    decreases |s| - i
  {
    if i + max >= |s| then [s[i..]] else [s[i..i + max]] + Pieces(s, max, step, i + step)
  }

  lemma {:induction false} PiecesAreWindows(s: string, max: nat, step: nat, i: nat)
    requires 1 <= step <= max && i < |s|
    ensures var ws := Windows(|s|, max, step, i);
            (forall k :: 0 <= k < |ws| ==> ws[k].start <= ws[k].end <= |s|)
            && Pieces(s, max, step, i) == PiecesOf(s, ws)
    decreases |s| - i
  {
    if i + max < |s| {
      PiecesAreWindows(s, max, step, i + step);
      PiecesInFront(s, Window(i, i + max), Windows(|s|, max, step, i + step));
    } else {
      assert s[i..|s|] == s[i..];
    }
  }

  lemma {:induction false} PiecesInFront(s: string, w: Window, rest: seq<Window>)
    requires w.start <= w.end <= |s| && forall k :: 0 <= k < |rest| ==> rest[k].start <= rest[k].end <= |s|
    ensures forall k :: 0 <= k < |[w] + rest| ==> ([w] + rest)[k].start <= ([w] + rest)[k].end <= |s|
    ensures PiecesOf(s, [w] + rest) == [s[w.start..w.end]] + PiecesOf(s, rest)
  {
  }

  function LongPieces(s: string, max: nat, overlap: int): seq<string>
    requires max >= 1
  {
    if |s| <= max then [s] else Pieces(s, max, StepOf(max, overlap), 0)
  }

  lemma {:induction false} PiecesNext(res: seq<string>, s: string, max: nat, step: nat, i: nat)
    requires 1 <= step <= max && i < |s|
    ensures res + Pieces(s, max, step, i)
            == if i + max >= |s| then res + [s[i..]] else (res + [s[i..i + max]]) + Pieces(s, max, step, i + step)
  {
    if i + max < |s| {
      Associates(res, [s[i..i + max]], Pieces(s, max, step, i + step));
    }
  }

  method SplitLongLine(s: string, max: nat, overlap: int) returns (res: seq<string>)
    requires max >= 1
    ensures res == LongPieces(s, max, overlap)
  {
    if |s| <= max {
      return [s];
    }
    var step := max;
    if overlap > 0 && overlap < max {
      step := max - overlap;
    }
    res := [];
    var i := 0;
    NothingAround(Pieces(s, max, step, 0));
    while i < |s|
      invariant i < |s| && res + Pieces(s, max, step, i) == Pieces(s, max, step, 0)
      decreases |s| - i
    {
      var end := i + max;
      if end > |s| {
        end := |s|;
      }
      PiecesNext(res, s, max, step, i);
      assert s[i..|s|] == s[i..];
      res := res + [s[i..end]];
      if end == |s| {
        break;
      }
      i := i + step;
    }
  }

  // Without overlap the pieces are the paragraph.
  lemma {:induction false} PiecesJoin(s: string, max: nat, i: nat)
    requires max >= 1 && i < |s|
    ensures Flat(Pieces(s, max, max, i)) == s[i..]
    decreases |s| - i
  {
    if i + max < |s| {
      PiecesJoin(s, max, i + max);
      assert s[i..] == s[i..i + max] + s[i + max..];
    } else {
      assert s[i..] + [] == s[i..];
    }
  }

  lemma {:induction false} LongPiecesJoin(s: string, max: nat, overlap: int)
    requires max >= 1 && overlap <= 0
    ensures Flat(LongPieces(s, max, overlap)) == s
  {
    if |s| <= max {
      assert s + Flat([]) == s;
    } else {
      PiecesJoin(s, max, 0);
    }
  }

  // A piece is a stretch of the text, no longer than the budget.
  lemma {:induction false} LongPieceIsStretch(s: string, max: nat, overlap: int, k: nat)
    requires max >= 1 && k < |LongPieces(s, max, overlap)|
    ensures |LongPieces(s, max, overlap)[k]| <= max && forall c :: c in LongPieces(s, max, overlap)[k] ==> c in s
  {
    if |s| > max {
      PieceIsStretch(s, max, StepOf(max, overlap), 0, k);
    }
  }

  lemma {:induction false} PieceIsStretch(s: string, max: nat, step: nat, i: nat, k: nat)
    requires 1 <= step <= max && i < |s| && k < |Pieces(s, max, step, i)|
    ensures |Pieces(s, max, step, i)[k]| <= max && forall c :: c in Pieces(s, max, step, i)[k] ==> c in s
    decreases |s| - i
  {
    if i + max < |s| && k > 0 {
      PieceIsStretch(s, max, step, i + step, k - 1);
    }
  }

  // ---------- packing ----------

  datatype Packing = Packing(done: seq<string>, cur: seq<string>)

  function Flushed(space: Spaces, s: Packing): seq<string> {
    if s.cur == [] then s.done else s.done + [Trim(space, Join(s.cur))]
  }

  function Add(space: Spaces, s: Packing, p: string, max: nat, overlap: int): Packing
    requires max >= 1
  {
    if Tokens(s.cur) + |p| <= max then Packing(s.done, s.cur + [p])
    else if |p| > max then Packing(Flushed(space, s) + LongPieces(p, max, overlap), [])
    else Packing(Flushed(space, s), [p])
  }

  function Pack(space: Spaces, paras: seq<string>, max: nat, overlap: int): Packing
    requires max >= 1
  {
    if paras == [] then Packing([], [])
    else Add(space, Pack(space, paras[..|paras| - 1], max, overlap), paras[|paras| - 1], max, overlap)
  }

  function Tail(s: string, tokens: int): string {
    if tokens <= 0 || |s| <= tokens then s else s[|s| - tokens..]
  }

  // Each chunk behind the end of the one before it.
  function OverlappedAt(space: Spaces, chunks: seq<string>, overlap: int, i: nat): string
    requires i < |chunks|
  {
    if i == 0 then chunks[0] else Trim(space, Tail(chunks[i - 1], overlap) + [NEWLINE] + chunks[i])
  }

  function Overlapped(space: Spaces, chunks: seq<string>, overlap: int): seq<string> {
    seq(|chunks|, i requires 0 <= i < |chunks| => OverlappedAt(space, chunks, overlap, i))
  }

  function Split(space: Spaces, text: string, max: int, overlap: int): seq<string> {
    if Trim(space, text) == [] then []
    else if max <= 0 then [Trim(space, text)]
    else
      var chunks := Flushed(space, Pack(space, Paragraphs(space, text), max, overlap));
      if overlap > 0 && |chunks| > 1 then Overlapped(space, chunks, overlap) else chunks
  }

  lemma {:induction false} PackNext(space: Spaces, lines: seq<string>, i: nat, max: nat, overlap: int)
    requires i < |lines| && max >= 1
    ensures var before, p := ParagraphsOf(space, lines[..i]), Trim(space, lines[i]);
            Pack(space, ParagraphsOf(space, lines[..i + 1]), max, overlap)
            == if p == [] then Pack(space, before, max, overlap)
                else Add(space, Pack(space, before, max, overlap), p, max, overlap)
  {
    assert lines[..i + 1][..i] == lines[..i];
    var before, p := ParagraphsOf(space, lines[..i]), Trim(space, lines[i]);
    if p == [] {
      assert before + [] == before;
    } else {
      assert (before + [p])[..|before|] == before;
    }
  }

  lemma {:induction false} TokensAdd(cur: seq<string>, p: string)
    ensures Tokens(cur + [p]) == Tokens(cur) + |p|
    ensures Tokens([p]) == |p|
  {
    assert (cur + [p])[..|cur|] == cur;
    assert [p][..0] == [];
  }

  // One paragraph: into the current chunk if it fits, else into a new one, or in pieces.
  method AddParagraph(space: Spaces, done: seq<string>, before: seq<string>, tokens: nat, p: string, max: nat,
          overlap: int)
    returns (chunks: seq<string>, cur: seq<string>, curTokens: nat)
    requires max >= 1 && tokens == Tokens(before)
    ensures Packing(chunks, cur) == Add(space, Packing(done, before), p, max, overlap) && curTokens == Tokens(cur)
  {
    TokensAdd(before, p);
    if tokens + |p| <= max {
      return done, before + [p], tokens + |p|;
    }
    chunks := done;
    if before != [] {
      chunks := chunks + [Trim(space, Join(before))];
    }
    if |p| > max {
      var parts := SplitLongLine(p, max, overlap);
      return chunks + parts, [], 0;
    }
    return chunks, [p], |p|;
  }

  method SplitByTokenBudget(space: Spaces, text: string, max: int, overlap: int) returns (chunks: seq<string>)
    ensures chunks == Split(space, text, max, overlap)
  {
    var trimmed := Trim(space, text);
    if trimmed == "" {
      return [];
    }
    if max <= 0 {
      return [trimmed];
    }
    var paras := Lines(trimmed);
    chunks := [];
    var cur: seq<string> := [];
    var curTokens := 0;
    for i := 0 to |paras|
      invariant Packing(chunks, cur) == Pack(space, ParagraphsOf(space, paras[..i]), max, overlap)
      invariant curTokens == Tokens(cur)
    {
      PackNext(space, paras, i, max, overlap);
      var p := Trim(space, paras[i]);
      if p != "" {
        chunks, cur, curTokens := AddParagraph(space, chunks, cur, curTokens, p, max, overlap);
      }
    }
    assert paras[..|paras|] == paras;
    if cur != [] {
      chunks := chunks + [Trim(space, Join(cur))];
    }
    if overlap > 0 && |chunks| > 1 {
      chunks := AddOverlap(space, chunks, overlap);
    }
  }

  method AddOverlap(space: Spaces, chunks: seq<string>, overlap: int) returns (r: seq<string>)
    requires |chunks| > 1
    ensures r == Overlapped(space, chunks, overlap)
  {
    r := [chunks[0]];
    for i := 1 to |chunks|
      invariant |r| == i && forall k :: 0 <= k < i ==> r[k] == OverlappedAt(space, chunks, overlap, k)
    {
      r := r + [Trim(space, Tail(chunks[i - 1], overlap) + [NEWLINE] + chunks[i])];
    }
  }
}
