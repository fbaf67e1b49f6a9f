// What splitting does to the text itself: where its lines and paragraphs come from, and that
// no character but white space is lost or moved.
module SplitterText {
  import opened Basics
  import opened Splitter
  import opened SplitterTheorems

  // ---------- lines ----------

  lemma {:induction false} JoinFront(line: string, rest: seq<string>, c: char)
    ensures Join([[c] + line] + rest) == [c] + Join([line] + rest)
  {
    assert ([[c] + line] + rest)[1..] == rest && ([line] + rest)[1..] == rest;
    if rest != [] {
      assert ([c] + line) + ([NEWLINE] + Join(rest)) == [c] + (line + ([NEWLINE] + Join(rest)));
    }
  }

  // The lines of a text, joined, are the text.
  lemma {:induction false} LinesJoin(s: string)
    ensures Lines(s) != [] && Join(Lines(s)) == s
  {
    if s != [] {
      var rest := Lines(s[1..]);
      LinesJoin(s[1..]);
      assert s == [s[0]] + s[1..];
      if s[0] == NEWLINE {
        assert ([[]] + rest)[1..] == rest;
      } else {
        assert rest == [rest[0]] + rest[1..];
        JoinFront(rest[0], rest[1..], s[0]);
      }
    }
  }

  lemma {:induction false} LinesOfFront(a: string, b: string)
    requires NEWLINE !in a
    ensures Lines(b) != [] && Lines(a + b) == [a + Lines(b)[0]] + Lines(b)[1..]
  {
    LinesJoin(b);
    if a == [] {
      assert a + b == b && a + Lines(b)[0] == Lines(b)[0];
    } else {
      LinesOfFront(a[1..], b);
      assert (a + b)[1..] == a[1..] + b;
      assert [a[0]] + (a[1..] + Lines(b)[0]) == a + Lines(b)[0];
    }
  }

  // And these are the only lines that join to it.
  lemma {:induction false} LinesAreUnique(parts: seq<string>)
    requires parts != [] && forall k :: 0 <= k < |parts| ==> NEWLINE !in parts[k]
    ensures Lines(Join(parts)) == parts
  {
    var first := parts[0];
    if |parts| == 1 {
      LinesOfFront(first, []);
      assert first + [] == first;
    } else {
      var rest := parts[1..];
      assert forall k :: 0 <= k < |rest| ==> rest[k] == parts[k + 1];
      LinesAreUnique(rest);
      var b := [NEWLINE] + Join(rest);
      assert b[1..] == Join(rest);
      LinesOfFront(first, b);
      assert first + [] == first;
    }
  }

  // ---------- trimming ----------

  ghost predicate Blank(space: Spaces, s: string) {
    forall k :: 0 <= k < |s| ==> space(s[k])
  }

  lemma {:induction false} TrimLeftCuts(space: Spaces, s: string) returns (i: nat)
    ensures i <= |s| && TrimLeft(space, s) == s[i..] && Blank(space, s[..i])
  {
    i := 0;
    if s != [] && space(s[0]) {
      var k := TrimLeftCuts(space, s[1..]);
      i := k + 1;
      assert s[1..][k..] == s[i..];
      forall j | 0 <= j < i ensures space(s[..i][j]) {
        assert j > 0 ==> s[j] == s[1..][..k][j - 1];
      }
    }
  }

  lemma {:induction false} TrimRightCuts(space: Spaces, s: string) returns (j: nat)
    ensures j <= |s| && TrimRight(space, s) == s[..j] && Blank(space, s[j..])
  {
    j := |s|;
    if s != [] && space(s[|s| - 1]) {
      j := TrimRightCuts(space, s[..|s| - 1]);
      assert s[..|s| - 1][..j] == s[..j];
      forall k | 0 <= k < |s| - j ensures space(s[j..][k]) {
        assert j + k < |s| - 1 ==> s[j..][k] == s[..|s| - 1][j..][k];
      }
    }
  }

  // Trimming cuts white space off both ends and nothing else.
  lemma {:induction false} TrimCuts(space: Spaces, s: string) returns (i: nat, j: nat)
    ensures i <= j <= |s| && Trim(space, s) == s[i..j] && Blank(space, s[..i]) && Blank(space, s[j..])
  {
    i := TrimLeftCuts(space, s);
    var k := TrimRightCuts(space, s[i..]);
    j := i + k;
    assert s[i..][..k] == s[i..j] && s[i..][k..] == s[j..];
  }

  // ---------- paragraphs ----------

  // How many of the first n lines are not blank.
  function FullLines(space: Spaces, lines: seq<string>): nat {
    if lines == [] then 0
    else FullLines(space, lines[..|lines| - 1]) + (if Trim(space, lines[|lines| - 1]) == [] then 0 else 1)
  }

  lemma {:induction false} AsManyParagraphs(space: Spaces, lines: seq<string>)
    ensures |ParagraphsOf(space, lines)| == FullLines(space, lines)
  {
    if lines != [] {
      AsManyParagraphs(space, lines[..|lines| - 1]);
    }
  }

  // Each line that is not blank is one paragraph, trimmed, in its turn.
  lemma {:induction false} ParagraphOfLine(space: Spaces, lines: seq<string>, i: nat)
    requires i < |lines| && Trim(space, lines[i]) != []
    ensures var k := FullLines(space, lines[..i]);
            k < |ParagraphsOf(space, lines)| == FullLines(space, lines)
            && ParagraphsOf(space, lines)[k] == Trim(space, lines[i])
  {
    var init := lines[..|lines| - 1];
    AsManyParagraphs(space, lines);
    AsManyParagraphs(space, init);
    if i < |init| {
      ParagraphOfLine(space, init, i);
      assert init[..i] == lines[..i];
    } else {
      assert lines[..i] == init;
    }
  }

  // ---------- characters ----------

  // A text without its white space.
  function Solid(space: Spaces, s: string): string {
    if s == [] then [] else (if space(s[0]) then [] else [s[0]]) + Solid(space, s[1..])
  }

  lemma {:induction false} SolidAppend(space: Spaces, a: string, b: string)
    ensures Solid(space, a + b) == Solid(space, a) + Solid(space, b)
  {
    if a == [] {
      assert a + b == b;
    } else {
      assert (a + b)[1..] == a[1..] + b;
      SolidAppend(space, a[1..], b);
    }
  }

  lemma {:induction false} SolidOfBlank(space: Spaces, s: string)
    ensures Blank(space, s) ==> Solid(space, s) == []
    ensures (forall k :: 0 <= k < |s| ==> !space(s[k])) ==> Solid(space, s) == s
  {
    if s != [] {
      SolidOfBlank(space, s[1..]);
      assert forall k :: 0 <= k < |s| - 1 ==> s[1..][k] == s[k + 1];
      assert s == [s[0]] + s[1..];
    }
  }

  lemma {:induction false} SolidOfTrim(space: Spaces, s: string)
    ensures Solid(space, Trim(space, s)) == Solid(space, s)
  {
    var i, j := TrimCuts(space, s);
    assert s == s[..i] + s[i..j] + s[j..];
    SolidAppend(space, s[..i], s[i..j]);
    SolidAppend(space, s[..i] + s[i..j], s[j..]);
    SolidOfBlank(space, s[..i]);
    SolidOfBlank(space, s[j..]);
  }

  // The texts of several parts without white space, one behind the other.
  function SolidAll(space: Spaces, parts: seq<string>): string {
    if parts == [] then [] else Solid(space, parts[0]) + SolidAll(space, parts[1..])
  }

  lemma {:induction false} SolidAllOneMore(space: Spaces, parts: seq<string>, p: string)
    ensures SolidAll(space, parts + [p]) == SolidAll(space, parts) + Solid(space, p)
  {
    if parts == [] {
      assert (parts + [p])[1..] == [];
      assert Solid(space, p) + [] == Solid(space, p);
    } else {
      assert (parts + [p])[1..] == parts[1..] + [p];
      SolidAllOneMore(space, parts[1..], p);
    }
  }

  lemma {:induction false} SolidOfJoin(space: Spaces, parts: seq<string>)
    requires space(NEWLINE)
    ensures Solid(space, Join(parts)) == SolidAll(space, parts)
  {
    hide Solid;
    SolidOfBlank(space, []);
    if |parts| == 1 {
      assert Solid(space, parts[0]) + SolidAll(space, []) == Solid(space, parts[0]);
    } else if parts != [] {
      var rest := Join(parts[1..]);
      SolidOfJoin(space, parts[1..]);
      SolidAppend(space, parts[0], [NEWLINE] + rest);
      SolidAppend(space, [NEWLINE], rest);
      SolidOfBlank(space, [NEWLINE]);
      assert [] + Solid(space, rest) == Solid(space, rest);
    }
  }

  lemma {:induction false} SolidOfFlat(space: Spaces, parts: seq<string>)
    ensures Solid(space, Flat(parts)) == SolidAll(space, parts)
  {
    if parts != [] {
      SolidOfFlat(space, parts[1..]);
      SolidAppend(space, parts[0], Flat(parts[1..]));
    }
  }

  lemma {:induction false} SolidOfParagraphs(space: Spaces, lines: seq<string>)
    ensures SolidAll(space, ParagraphsOf(space, lines)) == SolidAll(space, lines)
  {
    if lines != [] {
      var init, last := lines[..|lines| - 1], lines[|lines| - 1];
      SolidOfParagraphs(space, init);
      SolidOfTrim(space, last);
      assert lines == init + [last];
      SolidAllOneMore(space, init, last);
      SolidAllOneMore(space, ParagraphsOf(space, init), Trim(space, last));
      if Trim(space, last) == [] {
        assert ParagraphsOf(space, lines) == ParagraphsOf(space, init) + [] == ParagraphsOf(space, init);
        assert Solid(space, last) == [] && SolidAll(space, init) + [] == SolidAll(space, init);
      } else {
        assert ParagraphsOf(space, lines) == ParagraphsOf(space, init) + [Trim(space, last)];
      }
    }
  }

  // Every character of a text that is not white space is in its paragraphs, in order.
  lemma {:induction false} ParagraphsKeepTheText(space: Spaces, text: string)
    requires space(NEWLINE)
    ensures SolidAll(space, Paragraphs(space, text)) == Solid(space, text)
  {
    var t := Trim(space, text);
    SolidOfTrim(space, text);
    LinesJoin(t);
    SolidOfJoin(space, Lines(t));
    SolidOfParagraphs(space, Lines(t));
  }

  lemma {:induction false} SolidOfStrip(space: Spaces, s: string)
    requires space(NEWLINE)
    ensures Solid(space, Strip(s)) == Solid(space, s)
  {
    if s != [] {
      SolidOfStrip(space, s[1..]);
      if s[0] == NEWLINE {
        assert Strip(s) == Strip(s[1..]);
      } else {
        assert Strip(s) == [s[0]] + Strip(s[1..]);
        assert Strip(s)[1..] == Strip(s[1..]);
      }
    }
  }

  lemma {:induction false} SolidOfStrips(space: Spaces, chunks: seq<string>)
    requires space(NEWLINE)
    ensures SolidAll(space, Strips(chunks)) == SolidAll(space, chunks)
  {
    if chunks != [] {
      SolidOfStrip(space, chunks[0]);
      SolidOfStrips(space, chunks[1..]);
      assert Strips(chunks)[1..] == Strips(chunks[1..]);
    }
  }

  // Without overlap the chunks, white space aside, are the text: every character once, in
  // order, whatever the budget.
  lemma {:induction false} SplitKeepsTheText(space: Spaces, text: string, max: int, overlap: int)
    requires space(NEWLINE) && overlap <= 0
    ensures SolidAll(space, Split(space, text, max, overlap)) == Solid(space, text)
  {
    var chunks := Split(space, text, max, overlap);
    SolidOfTrim(space, text);
    if Trim(space, text) != [] && max <= 0 {
      assert chunks[1..] == [];
      assert Solid(space, text) + [] == Solid(space, text);
    } else if max >= 1 {
      SplitLosesNothing(space, text, max, overlap);
      SolidOfStrips(space, chunks);
      SolidOfFlat(space, Strips(chunks));
      SolidOfFlat(space, Paragraphs(space, text));
      ParagraphsKeepTheText(space, text);
    }
  }

  // ---------- overlap ----------

  // What is carried over is the end of the chunk before, of the requested length if there is
  // that much.
  lemma {:induction false} TailIsTheEnd(s: string, tokens: int)
    ensures Tail(s, tokens) == s[|s| - |Tail(s, tokens)|..]
    ensures tokens > 0 ==> |Tail(s, tokens)| == Min(tokens, |s|)
    ensures tokens <= 0 ==> Tail(s, tokens) == s
  {
  }

  // With overlap each chunk is that end of its neighbour in front and then its own text,
  // white space aside; the first chunk stays.
  lemma {:induction false} OverlapCarriesTheEnd(space: Spaces, chunks: seq<string>, overlap: int, i: nat)
    requires space(NEWLINE) && i < |chunks|
    ensures |Overlapped(space, chunks, overlap)| == |chunks|
    ensures Solid(space, Overlapped(space, chunks, overlap)[i])
         == (if i == 0 then [] else Solid(space, Tail(chunks[i - 1], overlap))) + Solid(space, chunks[i])
  {
    if i == 0 {
      assert [] + Solid(space, chunks[0]) == Solid(space, chunks[0]);
    } else {
      var tail := Tail(chunks[i - 1], overlap);
      SolidOfTrim(space, tail + [NEWLINE] + chunks[i]);
      SolidAppend(space, tail + [NEWLINE], chunks[i]);
      SolidAppend(space, tail, [NEWLINE]);
      assert Solid(space, [NEWLINE]) == [];
    }
  }

  // ---------- the size of a chunk ----------

  // What is packed fits, whatever the overlap.
  ghost predicate PackingFits(space: Spaces, s: Packing, max: nat) {
    AllParagraphs(space, s.cur) && Tokens(s.cur) <= max && Fits(s.done, max)
  }

  lemma {:induction false} StripShrinks(s: string)
    ensures |Strip(s)| <= |s|
  {
    if s != [] {
      StripShrinks(s[1..]);
    }
  }

  lemma {:induction false} FlushFits(space: Spaces, s: Packing, max: nat)
    requires PackingFits(space, s, max)
    ensures Fits(Flushed(space, s), max)
  {
    if s.cur != [] {
      JoinIsTrimmed(space, s.cur);
      StripJoin(space, s.cur);
      FlatSize(s.cur);
    }
  }

  lemma {:induction false} AddFits(space: Spaces, s: Packing, p: string, max: nat, overlap: int)
    requires PackingFits(space, s, max) && Paragraph(space, p) && max >= 1
    ensures PackingFits(space, Add(space, s, p, max, overlap), max)
  {
    FlushFits(space, s, max);
    TokensAdd(s.cur, p);
    TokensAdd([], p);
    assert [] + [p] == [p];
    var pieces := LongPieces(p, max, overlap);
    forall k | 0 <= k < |pieces| ensures |Strip(pieces[k])| <= max {
      LongPieceIsStretch(p, max, overlap, k);
      StripShrinks(pieces[k]);
    }
  }

  lemma {:induction false} PackFits(space: Spaces, paras: seq<string>, max: nat, overlap: int)
    requires AllParagraphs(space, paras) && max >= 1
    ensures PackingFits(space, Pack(space, paras, max, overlap), max)
  {
    if paras != [] {
      var init := paras[..|paras| - 1];
      PackFits(space, init, max, overlap);
      AddFits(space, Pack(space, init, max, overlap), paras[|paras| - 1], max, overlap);
    }
  }

  lemma {:induction false} StripOfTrim(space: Spaces, s: string)
    ensures |Strip(Trim(space, s))| <= |Strip(s)|
  {
    var i, j := TrimCuts(space, s);
    assert s == s[..i] + s[i..j] + s[j..];
    StripAppend(s[..i], s[i..j]);
    StripAppend(s[..i] + s[i..j], s[j..]);
  }

  // No chunk has more runes than the budget, and with overlap than budget and overlap together.
  lemma {:induction false} ChunksAreSmall(space: Spaces, text: string, max: nat, overlap: nat)
    requires max >= 1
    ensures Fits(Split(space, text, max, overlap), max + overlap)
  {
    if Trim(space, text) != [] {
      ParagraphsAreParagraphs(space, text);
      var packing := Pack(space, Paragraphs(space, text), max, overlap);
      PackFits(space, Paragraphs(space, text), max, overlap);
      FlushFits(space, packing, max);
      var chunks := Flushed(space, packing);
      forall i | 1 <= i < |chunks| && overlap > 0
        ensures |Strip(OverlappedAt(space, chunks, overlap, i))| <= max + overlap
      {
        var tail := Tail(chunks[i - 1], overlap);
        StripOfTrim(space, tail + [NEWLINE] + chunks[i]);
        StripAppend(tail + [NEWLINE], chunks[i]);
        StripAppend(tail, [NEWLINE]);
        StripShrinks(tail);
        assert [NEWLINE][1..] == [] && Strip([NEWLINE]) == [];
      }
    }
  }
}
