// Claims of an article: its sentences, and whether their first citation marker is in the
// table. The compile stages leave exactly one without evidence: the closing declaration.
module CompileClaims {
  import opened Basics
  import opened Sorting
  import opened Splitter
  import opened CompileStages

  // ---------- sentences ----------

  predicate LineEnd(c: char) {
    c == '\n' || c == '\r'
  }

  predicate Boundary(c: char) {
    c in {'。', '！', '？', '；', '!', '?', ';'} || LineEnd(c)
  }

  datatype Splitting = Splitting(done: seq<string>, buffer: string)

  function Flush(space: Spaces, s: Splitting): seq<string> {
    var t := Trim(space, s.buffer);
    if t == [] then s.done else s.done + [t]
  }

  function Feed(space: Spaces, text: string): Splitting {
    if text == [] then Splitting([], [])
    else
      var s, c := Feed(space, text[..|text| - 1]), text[|text| - 1];
      if LineEnd(c) then Splitting(Flush(space, s), [])
      else
        var t := Splitting(s.done, s.buffer + [c]);
        if Boundary(c) then Splitting(Flush(space, t), []) else t
  }

  function Sentences(space: Spaces, text: string): seq<string> {
    Flush(space, Feed(space, text))
  }

  method SplitSentences(space: Spaces, text: string) returns (sentences: seq<string>)
    ensures sentences == Sentences(space, text)
  {
    sentences := [];
    var buffer: string := [];
    for i := 0 to |text|
      invariant Splitting(sentences, buffer) == Feed(space, text[..i])
    {
      assert text[..i + 1][..i] == text[..i];
      if LineEnd(text[i]) {
        sentences, buffer := Flush(space, Splitting(sentences, buffer)), [];
      } else {
        buffer := buffer + [text[i]];
        if Boundary(text[i]) {
          sentences, buffer := Flush(space, Splitting(sentences, buffer)), [];
        }
      }
    }
    assert text[..|text|] == text;
    sentences := Flush(space, Splitting(sentences, buffer));
  }

  // ---------- markers ----------

  predicate IsDigit(c: char) {
    '0' <= c <= '9'
  }

  function DigitRun(s: string): (n: nat)
    ensures n <= |s| && forall i :: 0 <= i < n ==> IsDigit(s[i])
  {
    if s != [] && IsDigit(s[0]) then 1 + DigitRun(s[1..]) else 0
  }

  function ValueOf(digits: string): nat
    requires forall i :: 0 <= i < |digits| ==> IsDigit(digits[i])
  {
    if digits == [] then 0
    else
      assert IsDigit(digits[|digits| - 1]);
      ValueOf(digits[..|digits| - 1]) * 10 + (digits[|digits| - 1] as int - '0' as int)
  }

  // A bracketed number of one to four digits right here.
  function MarkerHere(s: string): Option<nat> {
    if s == [] || s[0] != '[' then None
    else
      var n := DigitRun(s[1..]);
      if 1 <= n <= 4 && n + 1 < |s| && s[n + 1] == ']' then Some(ValueOf(s[1..][..n])) else None
  }

  function FirstMarker(s: string): Option<nat> {
    if s == [] then None else if MarkerHere(s).Some? then MarkerHere(s) else FirstMarker(s[1..])
  }

  // ---------- claims ----------

  datatype Claim = Claim(text: string, sourceIndex: nat, hasEvidence: bool)

  predicate InTable(citations: seq<Citation>, n: nat) {
    exists j :: 0 <= j < |citations| && citations[j].index == n
  }

  function ClaimOf(sentence: string, citations: seq<Citation>): Claim {
    var m := FirstMarker(sentence);
    if m.None? then Claim(sentence, 0, false) else Claim(sentence, m.value, InTable(citations, m.value))
  }

  function Claims(space: Spaces, text: string, citations: seq<Citation>): seq<Claim> {
    var sentences := Sentences(space, text);
    seq(|sentences|, i requires 0 <= i < |sentences| => ClaimOf(sentences[i], citations))
  }

  method ExtractClaims(space: Spaces, text: string, citations: seq<Citation>) returns (claims: seq<Claim>)
    ensures claims == Claims(space, text, citations)
  {
    var indexes := set j | 0 <= j < |citations| :: citations[j].index;
    var sentences := SplitSentences(space, text);
    claims := [];
    for i := 0 to |sentences|
      invariant claims == Claims(space, text, citations)[..i]
    {
      var claim := Claim(sentences[i], 0, false);
      var m := FirstMarker(sentences[i]);
      if m.Some? {
        assert InTable(citations, m.value) <==> m.value in indexes;
        claim := claim.(sourceIndex := m.value, hasEvidence := m.value in indexes);
      }
      claims := claims + [claim];
    }
  }

  function Unevidenced(claims: seq<Claim>): seq<Claim> {
    if claims == [] then []
    else
      var last, before := claims[|claims| - 1], Unevidenced(claims[..|claims| - 1]);
      if last.hasEvidence then before else before + [last]
  }

  method UnevidencedClaims(claims: seq<Claim>) returns (out: seq<Claim>)
    ensures out == Unevidenced(claims)
  {
    out := [];
    for i := 0 to |claims|
      invariant out == Unevidenced(claims[..i])
    {
      assert claims[..i + 1][..i] == claims[..i];
      if !claims[i].hasEvidence {
        out := out + [claims[i]];
      }
    }
    assert claims[..|claims|] == claims;
  }

  // ---------- lines are sentences ----------

  // One trimmed line without a boundary.
  predicate Clean(space: Spaces, l: string) {
    l != [] && !space(l[0]) && !space(l[|l| - 1]) && forall i :: 0 <= i < |l| ==> !Boundary(l[i])
  }

  lemma {:induction false} FeedClean(space: Spaces, t: string, l: string)
    requires forall i :: 0 <= i < |l| ==> !Boundary(l[i])
    ensures Feed(space, t + l) == Splitting(Feed(space, t).done, Feed(space, t).buffer + l)
  {
    hide Feed;
    if l == [] {
      assert t + l == t;
      assert Feed(space, t).buffer + l == Feed(space, t).buffer;
    } else {
      var init, c := l[..|l| - 1], l[|l| - 1];
      FeedClean(space, t, init);
      FeedOneMore(space, t + init, c);
      assert t + l == (t + init) + [c];
      assert Feed(space, t).buffer + l == (Feed(space, t).buffer + init) + [c];
    }
  }

  lemma {:induction false} FeedOneMore(space: Spaces, t: string, c: char)
    requires !Boundary(c)
    ensures Feed(space, t + [c]) == Splitting(Feed(space, t).done, Feed(space, t).buffer + [c])
  {
    assert (t + [c])[..|t + [c]| - 1] == t && (t + [c])[|t + [c]| - 1] == c;
  }

  lemma {:induction false} FeedNewline(space: Spaces, t: string)
    ensures Feed(space, t + [NEWLINE]) == Splitting(Sentences(space, t), [])
  {
    assert (t + [NEWLINE])[..|t|] == t;
  }

  lemma {:induction false} CleanStays(space: Spaces, l: string)
    requires Clean(space, l)
    ensures Trim(space, l) == l
  {
  }

  // A clean line behind a finished text is one more sentence.
  lemma {:induction false} FeedLine(space: Spaces, t: string, l: string)
    requires Clean(space, l) && Feed(space, t).buffer == []
    ensures Sentences(space, t + l) == Feed(space, t).done + [l]
  {
    FeedClean(space, t, l);
    CleanStays(space, l);
    assert [] + l == l;
  }

  ghost predicate AllClean(space: Spaces, lines: seq<string>) {
    forall i :: 0 <= i < |lines| ==> Clean(space, lines[i])
  }

  lemma {:induction false} JoinAppend(lines: seq<string>, l: string)
    requires lines != []
    ensures Join(lines + [l]) == Join(lines) + [NEWLINE] + l
  {
    assert (lines + [l])[1..] == lines[1..] + [l];
    if |lines| > 1 {
      JoinAppend(lines[1..], l);
      JoinRegroup(lines[0], Join(lines[1..]), l);
    }
  }

  lemma {:induction false} JoinRegroup(a: string, b: string, l: string)
    ensures a + ([NEWLINE] + (b + [NEWLINE] + l)) == (a + ([NEWLINE] + b)) + [NEWLINE] + l
  {
  }

  // The sentences of joined clean lines are the lines.
  lemma {:induction false} SentencesOfLines(space: Spaces, lines: seq<string>)
    requires lines != [] && AllClean(space, lines)
    ensures Sentences(space, Join(lines)) == lines
  {
    var init, l := lines[..|lines| - 1], lines[|lines| - 1];
    assert lines == init + [l];
    if init == [] {
      assert [] + l == l;
      FeedLine(space, [], l);
    } else {
      SentencesOfLines(space, init);
      JoinAppend(init, l);
      FeedNewline(space, Join(init));
      FeedLine(space, Join(init) + [NEWLINE], l);
    }
  }

  // With a blank line and one more line behind them, the lines and that line.
  lemma {:induction false} SentencesOfClosed(space: Spaces, lines: seq<string>, l: string)
    requires lines != [] && AllClean(space, lines) && Clean(space, l)
    ensures Sentences(space, Join(lines) + "\n\n" + l) == lines + [l]
  {
    var t := Join(lines) + [NEWLINE];
    SentencesOfLines(space, lines);
    FeedNewline(space, Join(lines));
    FeedNewline(space, t);
    assert Trim(space, []) == [];
    FeedLine(space, t + [NEWLINE], l);
    assert Join(lines) + "\n\n" + l == t + [NEWLINE] + l;
  }

  // ---------- written lines carry their marker ----------

  lemma {:induction false} ShowReads(n: nat, t: string)
    requires t != [] && !IsDigit(t[0])
    ensures DigitRun(Show(n) + t) == |Show(n)|
    ensures (forall i :: 0 <= i < |Show(n)| ==> IsDigit(Show(n)[i])) && ValueOf(Show(n)) == n
    decreases n
  {
    ShowDigits(n);
    RunOfDigits(Show(n), t);
    if n >= 10 {
      ShowReads(n / 10, t);
      assert Show(n)[..|Show(n)| - 1] == Show(n / 10);
    }
  }

  lemma {:induction false} ShowDigits(n: nat)
    ensures Show(n) != [] && forall i :: 0 <= i < |Show(n)| ==> IsDigit(Show(n)[i])
  {
    if n >= 10 {
      ShowDigits(n / 10);
    }
  }

  lemma {:induction false} RunOfDigits(d: string, t: string)
    requires t != [] && !IsDigit(t[0]) && forall i :: 0 <= i < |d| ==> IsDigit(d[i])
    ensures DigitRun(d + t) == |d|
  {
    if d == [] {
      assert d + t == t;
    } else {
      assert (d + t)[1..] == d[1..] + t;
      RunOfDigits(d[1..], t);
    }
  }

  lemma {:induction false} ShortNumbers(n: nat)
    requires n < 10000
    ensures 1 <= |Show(n)| <= 4
  {
    assert |Show(n / 1000)| == 1;
    assert n >= 1000 ==> |Show(n / 100)| == 2 && |Show(n / 10)| == 3;
    assert 100 <= n < 1000 ==> |Show(n / 100)| == 1 && |Show(n / 10)| == 2;
  }

  lemma {:induction false} MarkerReads(n: nat)
    requires n < 10000
    ensures FirstMarker("[" + (Show(n) + "]")) == Some(n)
  {
    var s := "[" + (Show(n) + "]");
    ShortNumbers(n);
    ShowReads(n, "]");
    assert s[1..] == Show(n) + "]";
    assert s[1..][..|Show(n)|] == Show(n);
    assert s[|Show(n)| + 1] == ']';
  }

  lemma {:induction false} MarkerBehind(p: string, t: string)
    requires '[' !in p
    ensures FirstMarker(p + t) == FirstMarker(t)
  {
    if p == [] {
      assert p + t == t;
    } else {
      assert (p + t)[1..] == p[1..] + t;
      MarkerBehind(p[1..], t);
    }
  }

  // Word characters are neither white space nor boundaries nor brackets.
  ghost predicate Apart(s: Script, space: Spaces) {
    (forall c :: WordChar(s, c) ==> !space(c) && !Boundary(c) && c != '[')
    && space(NEWLINE) && !space(']') && !space(DECLARATION[0]) && !space(DECLARATION[|DECLARATION| - 1])
  }

  lemma {:induction false} LineIsClean(s: Script, space: Spaces, point: string, n: nat)
    requires Apart(s, space) && IsToken(s, point) && n < 10000
    ensures Clean(space, Line(point, n)) && FirstMarker(Line(point, n)) == Some(n)
  {
    var end := " [" + (Show(n) + "]");
    assert '[' !in point;
    MarkerBehind(point, end);
    MarkerBehind(" ", "[" + (Show(n) + "]"));
    assert end == " " + ("[" + (Show(n) + "]"));
    MarkerReads(n);
    ShowDigits(n);
    EndIsClean(n);
    var l := Line(point, n);
    assert l[0] == point[0] && l[|l| - 1] == ']';
    forall i | 0 <= i < |l| ensures !Boundary(l[i]) {
      assert l[i] == if i < |point| then point[i] else end[i - |point|];
    }
  }

  lemma {:induction false} EndIsClean(n: nat)
    ensures var end := " [" + (Show(n) + "]"); forall i :: 0 <= i < |end| ==> !Boundary(end[i])
  {
    ShowDigits(n);
    var end := " [" + (Show(n) + "]");
    forall i | 0 <= i < |end| ensures !Boundary(end[i]) {
      assert end[i] == if i == 0 then ' ' else if i == 1 then '[' else if i < |end| - 1 then Show(n)[i - 2] else ']';
    }
  }

  // ---------- what the written sections claim ----------

  // A line claims its point, with the source of its marker as evidence.
  function PointClaim(point: string, n: nat): Claim {
    Claim(Line(point, n), n, true)
  }

  // One claim for each written point, in order; markers rotate through the sources.
  function PointClaims(points: seq<string>, span: seq<int>, sources: nat, k: nat): seq<Claim>
    requires sources > 0 && forall i :: 0 <= i < |span| ==> 0 <= span[i] < |points|
  {
    seq(|span|, i requires 0 <= i < |span| => PointClaim(points[span[i]], Marker(k + i, sources)))
  }

  // What can be closed with one more line.
  ghost predicate CleanBody(space: Spaces, body: string) {
    exists lines :: lines != [] && AllClean(space, lines) && body == Join(lines)
  }

  lemma {:induction false} MarkerBounds(k: nat, sources: nat)
    requires sources > 0
    ensures 1 <= Marker(k, sources) <= sources && Marker(k, sources) <= k + 1
  {
    if k < sources {
      assert k % sources == k;
    }
  }

  lemma {:induction false} LineClaims(s: Script, space: Spaces, point: string, sources: seq<Source>, k: nat)
    requires Apart(s, space) && sources != [] && IsToken(s, point) && (|sources| <= 9999 || k < 9999)
    ensures var n := Marker(k, |sources|);
            Clean(space, Line(point, n)) && ClaimOf(Line(point, n), CitationsOf(sources)) == PointClaim(point, n)
  {
    MarkerBounds(k, |sources|);
    LineIsClean(s, space, point, Marker(k, |sources|));
    assert CitationsOf(sources)[Marker(k, |sources|) - 1].index == Marker(k, |sources|);
  }

  // One section.
  lemma {:induction false} SectionClaims(s: Script, space: Spaces, points: seq<string>, indexes: seq<int>,
          sources: seq<Source>, k: nat)
    requires Apart(s, space) && sources != [] && indexes != [] && AreTokens(s, points)
    requires forall i :: 0 <= i < |indexes| ==> 0 <= indexes[i] < |points|
    requires |sources| <= 9999 || k + |indexes| <= 9999
    ensures var body := Join(LinesOf(points, indexes, |sources|, k));
            CleanBody(space, body)
            && Claims(space, body, CitationsOf(sources)) == PointClaims(points, indexes, |sources|, k)
  {
    var lines := LinesOf(points, indexes, |sources|, k);
    forall i | 0 <= i < |lines|
      ensures Clean(space, lines[i])
              && ClaimOf(lines[i], CitationsOf(sources)) == PointClaims(points, indexes, |sources|, k)[i]
    {
      LineClaims(s, space, points[indexes[i]], sources, k + i);
    }
    SentencesOfLines(space, lines);
  }

  // The claims of all sections, in order.
  function ArticleClaims(space: Spaces, sections: seq<Draft>, citations: seq<Citation>): seq<Claim> {
    if sections == [] then []
    else
      ArticleClaims(space, sections[..|sections| - 1], citations)
          + Claims(space, sections[|sections| - 1].body, citations)
  }

  lemma {:induction false} ClaimsFromFront(space: Spaces, first: Draft, rest: seq<Draft>, citations: seq<Citation>)
    ensures ArticleClaims(space, [first] + rest, citations) ==
              Claims(space, first.body, citations) + ArticleClaims(space, rest, citations)
  {
    var all := [first] + rest;
    if rest == [] {
      assert all[..|all| - 1] == [];
    } else {
      var init, last := rest[..|rest| - 1], rest[|rest| - 1];
      ClaimsFromFront(space, first, init, citations);
      assert all[..|all| - 1] == [first] + init;
      Associates(Claims(space, first.body, citations), ArticleClaims(space, init, citations),
                 Claims(space, last.body, citations));
    }
  }

  lemma {:induction false} FirstDraft(points: seq<string>, secs: seq<Section>, sources: nat, k: nat)
    requires sources > 0 && InRange(secs, |points|) && secs != [] && secs[0].children == []
    ensures Drafts(points, secs, sources, k)
            == [Draft(secs[0].number, Join(LinesOf(points, secs[0].points, sources, k)))]
               + Drafts(points, secs[1..], sources, k + |secs[0].points|)
  {
    hide LinesOf, Join;
    var children := secs[0].children;
    assert Span(children) == [] && Drafts(points, children, sources, k + |secs[0].points|) == [];
    NothingAround([Draft(secs[0].number, Join(LinesOf(points, secs[0].points, sources, k)))]);
  }

  lemma {:induction false} ClaimsJoin(points: seq<string>, a: seq<int>, b: seq<int>, sources: nat, k: nat)
    requires sources > 0
    requires InPoints(a, |points|) && InPoints(b, |points|)
    ensures InPoints(a + b, |points|)
    ensures PointClaims(points, a + b, sources, k) ==
              PointClaims(points, a, sources, k) + PointClaims(points, b, sources, k + |a|)
  {
  }

  lemma {:induction false} SpanSplits(secs: seq<Section>, n: nat)
    requires secs != [] && secs[0].children == [] && InRange(secs, n)
    ensures Span(secs) == secs[0].points + Span(secs[1..]) && InRange(secs[1..], n)
    ensures forall i :: 0 <= i < |secs[0].points| ==> 0 <= secs[0].points[i] < n
  {
    assert secs[0].points + [] == secs[0].points;
  }

  ghost predicate CleanBodies(space: Spaces, drafts: seq<Draft>) {
    forall i :: 0 <= i < |drafts| ==> CleanBody(space, drafts[i].body)
  }

  lemma {:induction false} BodiesFromFront(space: Spaces, first: Draft, rest: seq<Draft>)
    requires CleanBody(space, first.body) && CleanBodies(space, rest)
    ensures CleanBodies(space, [first] + rest)
  {
    hide CleanBody;
  }

  ghost predicate InPoints(span: seq<int>, n: nat) {
    forall i :: 0 <= i < |span| ==> 0 <= span[i] < n
  }

  ghost predicate FlatOutline(secs: seq<Section>) {
    forall i :: 0 <= i < |secs| ==> secs[i].children == [] && secs[i].points != []
  }

  // The drafts of a flat outline claim the points of its span.
  ghost predicate DraftsClaim(space: Spaces, points: seq<string>, span: seq<int>, sources: seq<Source>, k: nat,
          drafts: seq<Draft>)
  {
    sources != [] && InPoints(span, |points|) && CleanBodies(space, drafts)
    && ArticleClaims(space, drafts, CitationsOf(sources)) == PointClaims(points, span, |sources|, k)
  }

  lemma {:induction false} OneMoreDraft(space: Spaces, points: seq<string>, own: seq<int>, span: seq<int>,
          sources: seq<Source>, k: nat, first: Draft, rest: seq<Draft>)
    requires sources != [] && InPoints(own, |points|) && CleanBody(space, first.body)
    requires Claims(space, first.body, CitationsOf(sources)) == PointClaims(points, own, |sources|, k)
    requires DraftsClaim(space, points, span, sources, k + |own|, rest)
    ensures DraftsClaim(space, points, own + span, sources, k, [first] + rest)
  {
    hide CleanBody, Claims, ArticleClaims, CitationsOf;
    BodiesFromFront(space, first, rest);
    ClaimsFromFront(space, first, rest, CitationsOf(sources));
    ClaimsJoin(points, own, span, |sources|, k);
  }

  lemma {:induction false} NoDrafts(space: Spaces, points: seq<string>, secs: seq<Section>, sources: seq<Source>,
          k: nat)
    requires secs == [] && sources != []
    ensures InRange(secs, |points|) && Drafts(points, secs, |sources|, k) == []
    ensures DraftsClaim(space, points, Span(secs), sources, k, [])
  {
  }

  // All sections of a flat outline.
  lemma {:induction false} DraftClaims(s: Script, space: Spaces, points: seq<string>, secs: seq<Section>,
          sources: seq<Source>, k: nat)
    requires Apart(s, space) && sources != [] && InRange(secs, |points|) && AreTokens(s, points) && FlatOutline(secs)
    requires |sources| <= 9999 || k + |Span(secs)| <= 9999
    ensures |Drafts(points, secs, |sources|, k)| == |secs|
    ensures DraftsClaim(space, points, Span(secs), sources, k, Drafts(points, secs, |sources|, k))
    decreases |secs|
  {
    hide Apart, CleanBody, LinesOf, Claims, PointClaims, Drafts, Span, InRange, ArticleClaims, DraftsClaim, AreTokens,
         CitationsOf, Join;
    if secs == [] {
      NoDrafts(space, points, secs, sources, k);
    } else {
      SpanSplits(secs, |points|);
      SectionClaims(s, space, points, secs[0].points, sources, k);
      DraftClaims(s, space, points, secs[1..], sources, k + |secs[0].points|);
      FirstDraft(points, secs, |sources|, k);
      OneMoreDraft(space, points, secs[0].points, Span(secs[1..]), sources, k,
                   Draft(secs[0].number, Join(LinesOf(points, secs[0].points, |sources|, k))),
                   Drafts(points, secs[1..], |sources|, k + |secs[0].points|));
    }
  }

  // ---------- the declaration ----------

  lemma {:induction false} DeclarationIsClean(s: Script, space: Spaces)
    requires Apart(s, space)
    ensures Clean(space, DECLARATION) && FirstMarker(DECLARATION).None?
  {
    assert '[' !in DECLARATION;
    MarkerBehind(DECLARATION, []);
    assert DECLARATION + [] == DECLARATION;
  }

  // A body closed with the declaration claims one thing more, without evidence.
  lemma {:induction false} ClosedBody(s: Script, space: Spaces, body: string, citations: seq<Citation>)
    requires Apart(s, space) && CleanBody(space, body)
    ensures body != ""
    ensures Claims(space, body + "\n\n" + DECLARATION, citations) ==
              Claims(space, body, citations) + [Claim(DECLARATION, 0, false)]
  {
    var lines :| lines != [] && AllClean(space, lines) && body == Join(lines);
    assert Clean(space, lines[0]);
    DeclarationIsClean(s, space);
    SentencesOfLines(space, lines);
    SentencesOfClosed(space, lines, DECLARATION);
  }

  // Polishing adds one claim to an article, its last: the declaration.
  lemma {:induction false} PolishAddsOneClaim(s: Script, space: Spaces, article: Article)
    requires Apart(s, space) && article.sections != []
             && CleanBody(space, article.sections[|article.sections| - 1].body)
    ensures ArticleClaims(space, Polished(article).sections, article.citations)
            == ArticleClaims(space, article.sections, article.citations) + [Claim(DECLARATION, 0, false)]
  {
    var last := |article.sections| - 1;
    var init, end := article.sections[..last], article.sections[last];
    ClosedBody(s, space, end.body, article.citations);
    var closed := Polished(article).sections;
    assert closed[..|closed| - 1] == init;
    Associates(ArticleClaims(space, init, article.citations), Claims(space, end.body, article.citations),
               [Claim(DECLARATION, 0, false)]);
  }

  // ---------- the stages compose ----------

  lemma {:induction false} PointsAreTokens(s: Script, sources: seq<Source>, points: seq<string>)
    requires SoundScript(s) && StrictTotalOrder(s.less) && AllTokens(s, sources) != []
             && AreTop(s, AllTokens(s, sources), points)
    ensures sources != [] && 0 < |points| <= MAX_POINTS && AreTokens(s, points)
  {
    hide AreTop;
    PointsAreBest(s, AllTokens(s, sources), points);
    AllAreTokens(s, sources);
    forall i | 0 <= i < |points| ensures IsToken(s, points[i]) {
      assert points[i] in AllTokens(s, sources);
    }
  }

  // The claims of a finished article: one for each point, citing the sources in rotation,
  // and the declaration.
  function FinalClaims(points: seq<string>, sources: nat): seq<Claim>
    requires sources > 0
  {
    PointClaims(points, Range(0, |points|), sources, 0) + [Claim(DECLARATION, 0, false)]
  }

  // Only the declaration is without evidence.
  lemma {:induction false} OneOpenClaim(points: seq<string>, sources: nat)
    requires sources > 0
    ensures Unevidenced(FinalClaims(points, sources)) == [Claim(DECLARATION, 0, false)]
  {
    var all := FinalClaims(points, sources);
    AllHaveEvidence(PointClaims(points, Range(0, |points|), sources, 0));
    assert all[..|all| - 1] == PointClaims(points, Range(0, |points|), sources, 0);
  }

  lemma {:induction false} AllHaveEvidence(claims: seq<Claim>)
    requires forall i :: 0 <= i < |claims| ==> claims[i].hasEvidence
    ensures Unevidenced(claims) == []
  {
    if claims != [] {
      AllHaveEvidence(claims[..|claims| - 1]);
    }
  }

  // How many claims cite source j.
  function Citing(claims: seq<Claim>, j: nat): nat {
    if claims == [] then 0
    else Citing(claims[..|claims| - 1], j) + (if claims[|claims| - 1].sourceIndex == j + 1 then 1 else 0)
  }

  lemma {:induction false} PointsCite(points: seq<string>, n: nat, sources: nat, j: nat)
    requires sources > 0 && n <= |points|
    ensures Citing(PointClaims(points, Range(0, n), sources, 0), j) == Cited(n, sources, j)
  {
    if n > 0 {
      var claims := PointClaims(points, Range(0, n), sources, 0);
      PointsCite(points, n - 1, sources, j);
      assert claims[..n - 1] == PointClaims(points, Range(0, n - 1), sources, 0);
    }
  }

  // Every source is cited equally often, up to one.
  lemma {:induction false} SourcesCitedEvenly(points: seq<string>, sources: nat, j: nat)
    requires j < sources
    ensures Citing(FinalClaims(points, sources), j) == |points| / sources + (if j < |points| % sources then 1 else 0)
  {
    var all := FinalClaims(points, sources);
    assert all[..|all| - 1] == PointClaims(points, Range(0, |points|), sources, 0);
    PointsCite(points, |points|, sources, j);
    CitedEvenly(|points|, sources, j);
  }

  // All four stages in a row. If the summaries hold any token no stage fails, whatever the
  // number of sources, and the article claims each point once, in order, with evidence.
  method Compile(s: Script, space: Spaces, sources: seq<Source>)
    returns (points: Option<seq<string>>, r: Option<Article>)
    requires SoundScript(s) && StrictTotalOrder(s.less) && Apart(s, space)
    ensures points.Some? <==> AllTokens(s, sources) != []
    ensures points.Some? ==> sources != [] && AreTop(s, AllTokens(s, sources), points.value)
    ensures r.Some? <==> points.Some?
    ensures r.Some? ==>
              r.value.citations == CitationsOf(sources) && |r.value.sections| == Min(MAX_CHAPTERS, |points.value|)
              && ArticleClaims(space, r.value.sections, r.value.citations) == FinalClaims(points.value, |sources|)
  {
    hide AreTop, AllTokens, Drafts, CleanBody, IsToken, Apart, SoundScript, ArticleClaims, PointClaims;
    points := Curate(s, sources);
    if points.None? {
      return points, None;
    }
    PointsAreTokens(s, sources, points.value);
    var outline := Outline(points.value);
    DealtOutlineFits(outline.value, |points.value|);
    var article := WriteArticle(sources, points.value, outline.value);
    DraftClaims(s, space, points.value, outline.value, sources, 0);
    PolishAddsOneClaim(s, space, article.value);
    r := Polish(article.value);
  }
}
