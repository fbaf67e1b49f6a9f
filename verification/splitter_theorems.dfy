// What splitting without overlap guarantees: nothing lost, nothing too long, and no more
// chunks than needed.
module SplitterTheorems {
  import opened Basics
  import opened Splitter

  // ---------- paragraphs are trimmed lines ----------

  lemma {:induction false} TrimLeftSays(space: Spaces, s: string)
    ensures TrimLeft(space, s) == [] || !space(TrimLeft(space, s)[0])
    ensures forall c :: c in TrimLeft(space, s) ==> c in s
  {
    if s != [] && space(s[0]) {
      TrimLeftSays(space, s[1..]);
    }
  }

  lemma {:induction false} TrimRightSays(space: Spaces, s: string)
    ensures TrimRight(space, s) <= s
    ensures TrimRight(space, s) == [] || !space(TrimRight(space, s)[|TrimRight(space, s)| - 1])
  {
    if s != [] && space(s[|s| - 1]) {
      TrimRightSays(space, s[..|s| - 1]);
    }
  }

  lemma {:induction false} TrimSays(space: Spaces, s: string)
    ensures var t := Trim(space, s);
            (t == [] || (!space(t[0]) && !space(t[|t| - 1]))) && forall c :: c in t ==> c in s
  {
    TrimLeftSays(space, s);
    TrimRightSays(space, TrimLeft(space, s));
  }

  lemma {:induction false} TrimmedStays(space: Spaces, s: string)
    requires s != [] && !space(s[0]) && !space(s[|s| - 1])
    ensures Trim(space, s) == s
  {
  }

  lemma {:induction false} LinesHaveNoNewline(s: string)
    ensures Lines(s) != [] && forall k :: 0 <= k < |Lines(s)| ==> NEWLINE !in Lines(s)[k]
  {
    if s != [] {
      LinesHaveNoNewline(s[1..]);
      var rest := Lines(s[1..]);
      forall k | 0 <= k < |Lines(s)| ensures NEWLINE !in Lines(s)[k] {
        if s[0] != NEWLINE {
          assert k > 0 ==> Lines(s)[k] == rest[k];
        } else {
          assert k > 0 ==> Lines(s)[k] == rest[k - 1];
        }
      }
    }
  }

  ghost predicate AllParagraphs(space: Spaces, paras: seq<string>) {
    forall k :: 0 <= k < |paras| ==> Paragraph(space, paras[k])
  }

  lemma {:induction false} ParagraphsOfLines(space: Spaces, lines: seq<string>)
    requires forall k :: 0 <= k < |lines| ==> NEWLINE !in lines[k]
    ensures AllParagraphs(space, ParagraphsOf(space, lines))
  {
    if lines != [] {
      ParagraphsOfLines(space, lines[..|lines| - 1]);
      TrimSays(space, lines[|lines| - 1]);
    }
  }

  lemma {:induction false} ParagraphsAreParagraphs(space: Spaces, text: string)
    ensures AllParagraphs(space, Paragraphs(space, text))
  {
    LinesHaveNoNewline(Trim(space, text));
    ParagraphsOfLines(space, Lines(Trim(space, text)));
  }

  // ---------- joining and stripping ----------

  lemma {:induction false} JoinIsTrimmed(space: Spaces, parts: seq<string>)
    requires parts != [] && AllParagraphs(space, parts)
    ensures Join(parts) != [] && !space(Join(parts)[0]) && !space(Join(parts)[|Join(parts)| - 1])
    ensures Trim(space, Join(parts)) == Join(parts)
  {
    assert Paragraph(space, parts[0]);
    if |parts| > 1 {
      assert forall k :: 0 <= k < |parts| - 1 ==> parts[1..][k] == parts[k + 1];
      JoinIsTrimmed(space, parts[1..]);
      var j := Join(parts[1..]);
      assert Join(parts)[|Join(parts)| - 1] == j[|j| - 1];
    }
    TrimmedStays(space, Join(parts));
  }

  lemma {:induction false} StripAppend(a: string, b: string)
    ensures Strip(a + b) == Strip(a) + Strip(b)
  {
    if a == [] {
      assert a + b == b;
    } else {
      assert (a + b)[1..] == a[1..] + b;
      StripAppend(a[1..], b);
    }
  }

  lemma {:induction false} StripKeeps(s: string)
    requires NEWLINE !in s
    ensures Strip(s) == s
  {
    if s != [] {
      StripKeeps(s[1..]);
      assert s == [s[0]] + s[1..];
    }
  }

  lemma {:induction false} StripBehind(a: string, b: string)
    requires NEWLINE !in a
    ensures Strip(a + ([NEWLINE] + b)) == a + Strip(b)
  {
    StripAppend(a, [NEWLINE] + b);
    StripKeeps(a);
    assert ([NEWLINE] + b)[1..] == b;
  }

  lemma {:induction false} StripJoin(space: Spaces, parts: seq<string>)
    requires AllParagraphs(space, parts)
    ensures Strip(Join(parts)) == Flat(parts)
  {
    if parts != [] {
      assert Paragraph(space, parts[0]);
      StripKeeps(parts[0]);
      if |parts| == 1 {
        assert parts[0] + Flat([]) == parts[0];
      } else {
        assert forall k :: 0 <= k < |parts| - 1 ==> parts[1..][k] == parts[k + 1];
        StripJoin(space, parts[1..]);
        StripBehind(parts[0], Join(parts[1..]));
      }
    }
  }

  lemma {:induction false} FlatAppend(a: seq<string>, b: seq<string>)
    ensures Flat(a + b) == Flat(a) + Flat(b)
  {
    if a == [] {
      assert a + b == b;
    } else {
      assert (a + b)[1..] == a[1..] + b;
      FlatAppend(a[1..], b);
    }
  }

  lemma {:induction false} FlatSize(parts: seq<string>)
    ensures |Flat(parts)| == Tokens(parts)
  {
    if parts != [] {
      var init, last := parts[..|parts| - 1], parts[|parts| - 1];
      FlatSize(init);
      assert parts == init + [last];
      FlatAppend(init, [last]);
      assert last + Flat([]) == last;
    }
  }

  function Strips(chunks: seq<string>): seq<string> {
    seq(|chunks|, i requires 0 <= i < |chunks| => Strip(chunks[i]))
  }

  lemma {:induction false} StripsAppend(a: seq<string>, b: seq<string>)
    ensures Strips(a + b) == Strips(a) + Strips(b)
  {
  }

  // ---------- nothing lost, nothing too long ----------

  ghost predicate Fits(chunks: seq<string>, max: nat) {
    forall k :: 0 <= k < |chunks| ==> |Strip(chunks[k])| <= max
  }

  // The chunks done so far and the current paragraphs are all that came in.
  ghost predicate Holds(space: Spaces, s: Packing, paras: seq<string>, max: nat) {
    Flat(Strips(s.done)) + Flat(s.cur) == Flat(paras) && AllParagraphs(space, s.cur) && Tokens(s.cur) <= max
    && Fits(s.done, max)
  }

  lemma {:induction false} FlushHolds(space: Spaces, s: Packing, paras: seq<string>, max: nat)
    requires Holds(space, s, paras, max)
    ensures Flat(Strips(Flushed(space, s))) == Flat(paras) && Fits(Flushed(space, s), max)
  {
    if s.cur == [] {
      assert Flat(Strips(s.done)) + [] == Flat(Strips(s.done));
    } else {
      var chunk := Join(s.cur);
      JoinIsTrimmed(space, s.cur);
      StripJoin(space, s.cur);
      FlatSize(s.cur);
      StripsAppend(s.done, [chunk]);
      FlatAppend(Strips(s.done), Strips([chunk]));
      assert Strips([chunk]) == [Flat(s.cur)];
      assert Flat(s.cur) + Flat([]) == Flat(s.cur);
    }
  }

  lemma {:induction false} PiecesHold(space: Spaces, p: string, max: nat, overlap: int)
    requires Paragraph(space, p) && max >= 1 && overlap <= 0
    ensures Flat(Strips(LongPieces(p, max, overlap))) == p && Fits(LongPieces(p, max, overlap), max)
  {
    LongPiecesJoin(p, max, overlap);
    var pieces := LongPieces(p, max, overlap);
    forall k | 0 <= k < |pieces| ensures Strip(pieces[k]) == pieces[k] && |pieces[k]| <= max {
      LongPieceIsStretch(p, max, overlap, k);
      StripKeeps(pieces[k]);
    }
    assert Strips(pieces) == pieces;
  }

  lemma {:induction false} FlatOneMore(parts: seq<string>, p: string)
    ensures Flat(parts + [p]) == Flat(parts) + p
  {
    FlatAppend(parts, [p]);
    assert p + Flat([]) == p;
  }

  lemma {:induction false} AddToCurrent(space: Spaces, s: Packing, paras: seq<string>, p: string, max: nat)
    requires Holds(space, s, paras, max) && Paragraph(space, p) && Tokens(s.cur) + |p| <= max
    ensures Holds(space, Packing(s.done, s.cur + [p]), paras + [p], max)
  {
    FlatOneMore(paras, p);
    FlatOneMore(s.cur, p);
    TokensAdd(s.cur, p);
    Associates(Flat(Strips(s.done)), Flat(s.cur), p);
  }

  lemma {:induction false} AddPieces(space: Spaces, done: seq<string>, paras: seq<string>, p: string, max: nat,
          overlap: int)
    requires Flat(Strips(done)) == Flat(paras) && Fits(done, max) && Paragraph(space, p) && max >= 1 && overlap <= 0
    ensures Holds(space, Packing(done + LongPieces(p, max, overlap), []), paras + [p], max)
  {
    var pieces := LongPieces(p, max, overlap);
    FlatOneMore(paras, p);
    PiecesHold(space, p, max, overlap);
    StripsAppend(done, pieces);
    FlatAppend(Strips(done), Strips(pieces));
    assert (Flat(paras) + p) + [] == Flat(paras) + p;
  }

  lemma {:induction false} AddNew(space: Spaces, done: seq<string>, paras: seq<string>, p: string, max: nat)
    requires Flat(Strips(done)) == Flat(paras) && Fits(done, max) && Paragraph(space, p) && |p| <= max
    ensures Holds(space, Packing(done, [p]), paras + [p], max)
  {
    FlatOneMore(paras, p);
    NothingAround([p]);
    TokensAdd([], p);
    assert p + Flat([]) == p;
  }

  lemma {:induction false} AddHolds(space: Spaces, s: Packing, paras: seq<string>, p: string, max: nat, overlap: int)
    requires Holds(space, s, paras, max) && Paragraph(space, p) && max >= 1 && overlap <= 0
    ensures Holds(space, Add(space, s, p, max, overlap), paras + [p], max)
  {
    if Tokens(s.cur) + |p| <= max {
      AddToCurrent(space, s, paras, p, max);
    } else {
      FlushHolds(space, s, paras, max);
      if |p| > max {
        AddPieces(space, Flushed(space, s), paras, p, max, overlap);
      } else {
        AddNew(space, Flushed(space, s), paras, p, max);
      }
    }
  }

  lemma {:induction false} PackHolds(space: Spaces, paras: seq<string>, max: nat, overlap: int)
    requires AllParagraphs(space, paras) && max >= 1 && overlap <= 0
    ensures Holds(space, Pack(space, paras, max, overlap), paras, max)
  {
    if paras != [] {
      var init, p := paras[..|paras| - 1], paras[|paras| - 1];
      PackHolds(space, init, max, overlap);
      AddHolds(space, Pack(space, init, max, overlap), init, p, max, overlap);
      assert paras == init + [p];
    }
  }

  lemma {:induction false} NoLines(space: Spaces)
    ensures ParagraphsOf(space, Lines([])) == []
  {
    var lines := Lines([]);
    assert lines == [[]] && lines[..0] == [];
    assert Trim(space, lines[0]) == [];
  }

  // Without overlap, the chunks hold the characters of all paragraphs, in order, and none
  // of them more than the budget.
  lemma {:induction false} SplitLosesNothing(space: Spaces, text: string, max: int, overlap: int)
    requires max >= 1 && overlap <= 0 && space(NEWLINE)
    ensures Flat(Strips(Split(space, text, max, overlap))) == Flat(Paragraphs(space, text))
    ensures Fits(Split(space, text, max, overlap), max)
  {
    var paras := Paragraphs(space, text);
    if Trim(space, text) == [] {
      NoLines(space);
    } else {
      ParagraphsAreParagraphs(space, text);
      PackHolds(space, paras, max, overlap);
      FlushHolds(space, Pack(space, paras, max, overlap), paras, max);
    }
  }

  // ---------- no more chunks than needed ----------

  function Concat(groups: seq<seq<string>>): seq<string> {
    if groups == [] then [] else Concat(groups[..|groups| - 1]) + groups[|groups| - 1]
  }

  // Consecutive non-empty groups of the paragraphs, each within the budget.
  ghost predicate Grouping(groups: seq<seq<string>>, paras: seq<string>, max: nat) {
    Concat(groups) == paras && Within(groups, max)
  }

  ghost predicate Within(groups: seq<seq<string>>, max: nat) {
    forall k :: 0 <= k < |groups| ==> groups[k] != [] && Tokens(groups[k]) <= max
  }

  lemma {:induction false} OneMoreWithin(groups: seq<seq<string>>, group: seq<string>, max: nat)
    requires Within(groups, max) && group != [] && Tokens(group) <= max
    ensures Within(groups + [group], max)
  {
  }

  ghost predicate AllShort(paras: seq<string>, max: nat) {
    forall k :: 0 <= k < |paras| ==> |paras[k]| <= max
  }

  // The groups greedy packing makes.
  function Greedy(paras: seq<string>, max: nat): seq<seq<string>> {
    if paras == [] then []
    else
      var g, p := Greedy(paras[..|paras| - 1], max), paras[|paras| - 1];
      if g != [] && Tokens(g[|g| - 1]) + |p| <= max then g[..|g| - 1] + [g[|g| - 1] + [p]] else g + [[p]]
  }

  function Joins(groups: seq<seq<string>>): seq<string> {
    seq(|groups|, i requires 0 <= i < |groups| => Join(groups[i]))
  }

  lemma {:induction false} ExtendGroup(groups: seq<seq<string>>, p: string)
    requires groups != []
    ensures Concat(groups[..|groups| - 1] + [groups[|groups| - 1] + [p]]) == Concat(groups) + [p]
  {
    var init, last := groups[..|groups| - 1], groups[|groups| - 1];
    assert (init + [last + [p]])[..|init|] == init;
    Associates(Concat(init), last, [p]);
  }

  lemma {:induction false} NewGroup(groups: seq<seq<string>>, p: string)
    ensures Concat(groups + [[p]]) == Concat(groups) + [p]
  {
    assert (groups + [[p]])[..|groups|] == groups;
  }

  lemma {:induction false} GreedyIsAGrouping(paras: seq<string>, max: nat)
    requires AllShort(paras, max)
    ensures Grouping(Greedy(paras, max), paras, max) && (paras != [] ==> Greedy(paras, max) != [])
  {
    if paras != [] {
      var init, p := paras[..|paras| - 1], paras[|paras| - 1];
      GreedyIsAGrouping(init, max);
      var g := Greedy(init, max);
      assert paras == init + [p];
      if g != [] && Tokens(g[|g| - 1]) + |p| <= max {
        TokensAdd(g[|g| - 1], p);
        ExtendGroup(g, p);
        OneMoreWithin(g[..|g| - 1], g[|g| - 1] + [p], max);
      } else {
        TokensAdd([], p);
        NewGroup(g, p);
        OneMoreWithin(g, [p], max);
      }
    }
  }

  // The chunks are the joined groups, the last of which is still open.
  ghost predicate PacksGroups(s: Packing, g: seq<seq<string>>) {
    if g == [] then s == Packing([], []) else s.cur == g[|g| - 1] && s.done == Joins(g[..|g| - 1])
  }

  lemma {:induction false} PackKeepsGroups(space: Spaces, s: Packing, g: seq<seq<string>>, p: string, max: nat,
          overlap: int)
    requires max >= 1 && |p| <= max && PacksGroups(s, g)
    requires g != [] ==> g[|g| - 1] != [] && Trim(space, Join(g[|g| - 1])) == Join(g[|g| - 1])
    ensures PacksGroups(Add(space, s, p, max, overlap),
                        if g != [] && Tokens(g[|g| - 1]) + |p| <= max then g[..|g| - 1] + [g[|g| - 1] + [p]]
                             else g + [[p]])
  {
    hide LongPieces, Trim, Join;
    var next := Add(space, s, p, max, overlap);
    if g == [] {
      assert Tokens([]) == 0;
      assert [[p]][..0] == [];
      assert next == Packing([], [p]);
    } else {
      var init, last := g[..|g| - 1], g[|g| - 1];
      if Tokens(last) + |p| <= max {
        assert next == Packing(s.done, last + [p]);
        assert (init + [last + [p]])[..|init|] == init;
      } else {
        assert next == Packing(Flushed(space, s), [p]);
        assert (g + [[p]])[..|g|] == g;
        JoinsEnd(g);
      }
    }
  }

  lemma {:induction false} JoinsEnd(g: seq<seq<string>>)
    requires g != []
    ensures Joins(g) == Joins(g[..|g| - 1]) + [Join(g[|g| - 1])]
  {
  }

  // Packing short paragraphs is greedy grouping.
  lemma {:induction false} PackIsGreedy(space: Spaces, paras: seq<string>, max: nat, overlap: int)
    requires max >= 1 && AllParagraphs(space, paras) && AllShort(paras, max)
    ensures PacksGroups(Pack(space, paras, max, overlap), Greedy(paras, max))
    ensures Flushed(space, Pack(space, paras, max, overlap)) == Joins(Greedy(paras, max))
  {
    if paras != [] {
      var init, p := paras[..|paras| - 1], paras[|paras| - 1];
      PackIsGreedy(space, init, max, overlap);
      var g := Greedy(init, max);
      if init != [] {
        GroupsAreParagraphs(space, init, max);
        JoinIsTrimmed(space, g[|g| - 1]);
      }
      PackKeepsGroups(space, Pack(space, init, max, overlap), g, p, max, overlap);
      GroupsAreParagraphs(space, paras, max);
      var next := Greedy(paras, max);
      JoinIsTrimmed(space, next[|next| - 1]);
      JoinsEnd(next);
    }
  }

  lemma {:induction false} GroupsAreParagraphs(space: Spaces, paras: seq<string>, max: nat)
    requires AllParagraphs(space, paras) && AllShort(paras, max) && paras != []
    ensures var g := Greedy(paras, max); g != [] && g[|g| - 1] != [] && AllParagraphs(space, g[|g| - 1])
  {
    GreedyIsAGrouping(paras, max);
    var g := Greedy(paras, max);
    var last, before := g[|g| - 1], Concat(g[..|g| - 1]);
    forall k | 0 <= k < |last| ensures Paragraph(space, last[k]) {
      assert paras == before + last;
      assert last[k] == paras[|before| + k];
    }
  }

  // A grouping without its last paragraph.
  function Shorter(groups: seq<seq<string>>): seq<seq<string>>
    requires groups != [] && groups[|groups| - 1] != []
  {
    var init, last := groups[..|groups| - 1], groups[|groups| - 1];
    if |last| == 1 then init else init + [last[..|last| - 1]]
  }

  lemma {:induction false} ShorterIsAGrouping(groups: seq<seq<string>>, paras: seq<string>, max: nat)
    requires Grouping(groups, paras, max) && paras != []
    ensures groups != [] && groups[|groups| - 1] != []
    ensures Grouping(Shorter(groups), paras[..|paras| - 1], max)
    ensures groups[|groups| - 1][|groups[|groups| - 1]| - 1] == paras[|paras| - 1]
  {
    var init, last := groups[..|groups| - 1], groups[|groups| - 1];
    assert paras == Concat(init) + last;
    if |last| == 1 {
      assert paras[..|paras| - 1] == Concat(init);
    } else {
      var front := last[..|last| - 1];
      assert (init + [front])[..|init|] == init;
      assert paras[..|paras| - 1] == Concat(init) + front;
      assert Tokens(last) == Tokens(front) + |last[|last| - 1]|;
    }
  }

  // How full the last group is.
  function LastTokens(groups: seq<seq<string>>): nat {
    if groups == [] then 0 else Tokens(groups[|groups| - 1])
  }

  lemma {:induction false} GreedyGrows(paras: seq<string>, max: nat)
    requires paras != []
    ensures var g, next, t := Greedy(paras[..|paras| - 1], max), Greedy(paras, max), |paras[|paras| - 1]|;
            if g != [] && LastTokens(g) + t <= max then |next| == |g| && LastTokens(next) == LastTokens(g) + t
            else |next| == |g| + 1 && LastTokens(next) == t
  {
    var g, p := Greedy(paras[..|paras| - 1], max), paras[|paras| - 1];
    TokensAdd(if g == [] then [] else g[|g| - 1], p);
  }

  lemma {:induction false} GroupingShrinks(groups: seq<seq<string>>)
    requires groups != [] && groups[|groups| - 1] != []
    ensures var last, fewer := groups[|groups| - 1], Shorter(groups);
            var t := |last[|last| - 1]|;
            if |last| == 1 then |groups| == |fewer| + 1 && LastTokens(groups) == t
            else |groups| == |fewer| && LastTokens(groups) == LastTokens(fewer) + t
  {
    var last := groups[|groups| - 1];
    assert last == last[..|last| - 1] + [last[|last| - 1]];
    TokensAdd(last[..|last| - 1], last[|last| - 1]);
    if |last| == 1 {
      assert last[..0] == [];
    }
  }

  // Greedy is never behind: it has no more groups than any grouping of the same
  // paragraphs, and if it has as many, its last one is no fuller.
  lemma {:induction false} GreedyIsNeverBehind(paras: seq<string>, max: nat, groups: seq<seq<string>>)
    requires AllShort(paras, max) && Grouping(groups, paras, max)
    ensures var g := Greedy(paras, max);
            |g| <= |groups| && (g != [] && |g| == |groups| ==> LastTokens(g) <= LastTokens(groups))
  {
    if paras != [] {
      ShorterIsAGrouping(groups, paras, max);
      GreedyIsNeverBehind(paras[..|paras| - 1], max, Shorter(groups));
      GreedyGrows(paras, max);
      GroupingShrinks(groups);
      assert LastTokens(groups) <= max;
    }
  }

  // Without overlap and without a paragraph over the budget: the chunks are consecutive
  // groups of paragraphs, joined, and no grouping within the budget has fewer.
  lemma {:induction false} SplitIsMinimal(space: Spaces, text: string, max: int, overlap: int, groups: seq<seq<string>>)
    requires max >= 1 && overlap <= 0 && Trim(space, text) != [] && AllShort(Paragraphs(space, text), max)
    ensures Split(space, text, max, overlap) == Joins(Greedy(Paragraphs(space, text), max))
    ensures Grouping(Greedy(Paragraphs(space, text), max), Paragraphs(space, text), max)
    ensures Grouping(groups, Paragraphs(space, text), max) ==> |Split(space, text, max, overlap)| <= |groups|
  {
    var paras := Paragraphs(space, text);
    ParagraphsAreParagraphs(space, text);
    PackIsGreedy(space, paras, max, overlap);
    GreedyIsAGrouping(paras, max);
    if Grouping(groups, paras, max) {
      GreedyIsNeverBehind(paras, max, groups);
    }
  }
}
