// The deterministic compile stages: frequent tokens as points, points dealt into chapters,
// chapters written out with rotating citation markers, and a closing declaration.
module CompileStages {
  import opened Basics
  import opened Sorting
  import opened Splitter

  const MAX_POINTS := 8
  const MAX_CHAPTERS := 5
  const MIN_ASCII_TOKEN := 2

  datatype Source = Source(docKey: string, revisionId: string, summary: string)

  datatype Section = Section(number: nat, points: seq<int>, children: seq<Section>)

  datatype Citation = Citation(index: nat, docKey: string, revisionId: string)

  datatype Draft = Draft(number: nat, body: string)

  datatype Article = Article(sections: seq<Draft>, citations: seq<Citation>)

  // How characters are classified: Han characters, lower case, and the order of strings.
  datatype Script = Script(han: char -> bool, lower: char -> char, less: (string, string) -> bool)

  // ---------- curate ----------

  predicate AsciiWord(c: char) {
    'a' <= c <= 'z' || 'A' <= c <= 'Z' || '0' <= c <= '9'
  }

  predicate WordChar(s: Script, c: char) {
    AsciiWord(c) || s.han(c)
  }

  // Lower case stays within the classes.
  ghost predicate SoundScript(s: Script) {
    forall c :: WordChar(s, c) ==> WordChar(s, s.lower(c))
  }

  // What is extracted: non-empty runs of word characters.
  predicate IsToken(s: Script, t: string) {
    t != [] && forall i :: 0 <= i < |t| ==> WordChar(s, t[i])
  }

  function Lowered(s: Script, t: string): string {
    seq(|t|, i requires 0 <= i < |t| => s.lower(t[i]))
  }

  // A run is settled by its first character: one lower-case token, or neighbouring pairs.
  function Settled(s: Script, run: string): seq<string> {
    if run == [] then []
    else if AsciiWord(run[0]) then (if |run| >= MIN_ASCII_TOKEN then [Lowered(s, run)] else [])
    else seq(|run| - 1, i requires 0 <= i < |run| - 1 => run[i..i + 2])
  }

  // The tokens settled so far, and the word characters since the last separator.
  datatype Cutting = Cutting(tokens: seq<string>, run: string)

  function Cut(s: Script, text: string): Cutting {
    if text == [] then Cutting([], [])
    else
      var before, c := Cut(s, text[..|text| - 1]), text[|text| - 1];
      if WordChar(s, c) then Cutting(before.tokens, before.run + [c])
      else Cutting(before.tokens + Settled(s, before.run), [])
  }

  function TokensOf(s: Script, text: string): seq<string> {
    var c := Cut(s, text);
    c.tokens + Settled(s, c.run)
  }

  method Tokenize(s: Script, text: string) returns (tokens: seq<string>)
    ensures tokens == TokensOf(s, text)
  {
    tokens := [];
    var run: string := [];
    for i := 0 to |text|
      invariant Cutting(tokens, run) == Cut(s, text[..i])
    {
      assert text[..i + 1][..i] == text[..i];
      if WordChar(s, text[i]) {
        run := run + [text[i]];
      } else {
        tokens, run := tokens + Settled(s, run), [];
      }
    }
    assert text[..|text|] == text;
    tokens := tokens + Settled(s, run);
  }

  lemma {:induction false} CutWord(s: Script, a: string, w: string)
    requires forall i :: 0 <= i < |w| ==> WordChar(s, w[i])
    ensures Cut(s, a + w) == Cutting(Cut(s, a).tokens, Cut(s, a).run + w)
  {
    if w == [] {
      assert a + w == a;
      assert Cut(s, a).run + w == Cut(s, a).run;
    } else {
      var init := w[..|w| - 1];
      assert (a + w)[..|a + w| - 1] == a + init;
      CutWord(s, a, init);
      assert (Cut(s, a).run + init) + [w[|w| - 1]] == Cut(s, a).run + w;
    }
  }

  // Behind a separator everything starts anew.
  lemma {:induction false} CutBehind(s: Script, a: string, b: string)
    requires Cut(s, a).run == []
    ensures Cut(s, a + b) == Cutting(Cut(s, a).tokens + Cut(s, b).tokens, Cut(s, b).run)
  {
    if b == [] {
      assert a + b == a;
      assert Cut(s, a).tokens + [] == Cut(s, a).tokens;
    } else {
      var init := b[..|b| - 1];
      assert (a + b)[..|a + b| - 1] == a + init;
      CutBehind(s, a, init);
      var x, y, z := Cut(s, a).tokens, Cut(s, init).tokens, Settled(s, Cut(s, init).run);
      assert (x + y) + z == x + (y + z);
    }
  }

  // What tokenizing is: a run of word characters is settled whole, and the texts on both
  // sides of any separator are tokenized on their own.
  lemma {:induction false} TokensOfWord(s: Script, w: string)
    requires forall i :: 0 <= i < |w| ==> WordChar(s, w[i])
    ensures TokensOf(s, w) == Settled(s, w)
  {
    CutWord(s, [], w);
    assert [] + w == w;
    assert [] + Settled(s, w) == Settled(s, w);
  }

  lemma {:induction false} TokensAround(s: Script, a: string, sep: char, b: string)
    requires !WordChar(s, sep)
    ensures TokensOf(s, a + [sep] + b) == TokensOf(s, a) + TokensOf(s, b)
  {
    assert (a + [sep])[..|a|] == a;
    CutBehind(s, a + [sep], b);
    var x, y, z := TokensOf(s, a), Cut(s, b).tokens, Settled(s, Cut(s, b).run);
    assert (x + y) + z == x + (y + z);
  }

  ghost predicate AreTokens(s: Script, tokens: seq<string>) {
    forall i :: 0 <= i < |tokens| ==> IsToken(s, tokens[i])
  }

  lemma {:induction false} TokensAreTokens(s: Script, text: string)
    requires SoundScript(s)
    ensures AreTokens(s, Cut(s, text).tokens)
    ensures forall i :: 0 <= i < |Cut(s, text).run| ==> WordChar(s, Cut(s, text).run[i])
    ensures AreTokens(s, TokensOf(s, text))
  {
    if text != [] {
      TokensAreTokens(s, text[..|text| - 1]);
    }
  }

  // The tokens of all summaries, in order.
  function AllTokens(s: Script, sources: seq<Source>): seq<string> {
    if sources == [] then []
    else AllTokens(s, sources[..|sources| - 1]) + TokensOf(s, sources[|sources| - 1].summary)
  }

  lemma {:induction false} AllAreTokens(s: Script, sources: seq<Source>)
    requires SoundScript(s)
    ensures AreTokens(s, AllTokens(s, sources))
  {
    if sources != [] {
      AllAreTokens(s, sources[..|sources| - 1]);
      TokensAreTokens(s, sources[|sources| - 1].summary);
    }
  }

  // How often each token occurs.
  function CountsOf(tokens: seq<string>): map<string, nat> {
    map t | t in tokens :: multiset(tokens)[t]
  }

  function CountOneMore(counts: map<string, nat>, t: string): map<string, nat> {
    counts[t := (if t in counts then counts[t] else 0) + 1]
  }

  lemma {:induction false} CountedOneMore(tokens: seq<string>, t: string)
    ensures CountOneMore(CountsOf(tokens), t) == CountsOf(tokens + [t])
  {
    assert multiset(tokens + [t]) == multiset(tokens) + multiset{t};
    forall x ensures x in tokens <==> x in multiset(tokens) {
    }
  }

  // More frequent tokens first, ties in string order.
  function Frequent(s: Script, counts: map<string, nat>): (string, string) -> bool {
    (a: string, b: string) =>
      var x, y := if a in counts then counts[a] else 0, if b in counts then counts[b] else 0;
      x > y || (x == y && s.less(a, b))
  }

  // The most frequent of these tokens, in order, at most as many as there may be points.
  ghost predicate AreTop(s: Script, tokens: seq<string>, points: seq<string>) {
    exists full :: Ranked(Frequent(s, CountsOf(tokens)), full) && Elements(full) == Elements(tokens)
                   && points == full[..Min(MAX_POINTS, |full|)]
  }

  // The tokens of one summary, counted.
  method CountTokens(s: Script, ghost before: seq<string>, counted: map<string, nat>, summary: string)
    returns (counts: map<string, nat>)
    requires counted == CountsOf(before)
    ensures counts == CountsOf(before + TokensOf(s, summary))
  {
    hide CountsOf, CountOneMore;
    var tokens := Tokenize(s, summary);
    counts := counted;
    assert before + tokens[..0] == before;
    for j := 0 to |tokens|
      invariant counts == CountsOf(before + tokens[..j])
    {
      CountedOneMore(before + tokens[..j], tokens[j]);
      assert (before + tokens[..j]) + [tokens[j]] == before + tokens[..j + 1];
      counts := CountOneMore(counts, tokens[j]);
    }
    assert tokens[..|tokens|] == tokens;
  }

  // The points are the most frequent tokens; there are none exactly if there is no token.
  method Curate(s: Script, sources: seq<Source>) returns (points: Option<seq<string>>)
    requires StrictTotalOrder(s.less)
    ensures points.Some? <==> AllTokens(s, sources) != []
    ensures points.Some? ==> AreTop(s, AllTokens(s, sources), points.value)
  {
    if sources == [] {
      return None;
    }
    var counts: map<string, nat> := map[];
    for i := 0 to |sources|
      invariant counts == CountsOf(AllTokens(s, sources[..i]))
    {
      assert sources[..i + 1][..i] == sources[..i];
      counts := CountTokens(s, AllTokens(s, sources[..i]), counts, sources[i].summary);
    }
    assert sources[..|sources|] == sources;
    var keys := Listing(counts.Keys);
    var full := Sort(Frequent(s, counts), keys);
    FrequentIsStrictTotalOrder(s, counts);
    SortRanks(Frequent(s, counts), keys);
    assert Elements(full) == Elements(AllTokens(s, sources));
    assert AreTop(s, AllTokens(s, sources), full[..Min(MAX_POINTS, |full|)]);
    ElementsOfSome(full);
    ElementsOfSome(AllTokens(s, sources));
    var toks := if |full| > MAX_POINTS then full[..MAX_POINTS] else full;
    if toks == [] {
      return None;
    }
    return Some(toks);
  }

  lemma {:induction false} FrequentIsStrictTotalOrder(s: Script, counts: map<string, nat>)
    requires StrictTotalOrder(s.less)
    ensures StrictTotalOrder(Frequent(s, counts))
  {
  }

  // Points are distinct tokens, at most eight, and none is less frequent than one left out.
  lemma {:induction false} PointsAreBest(s: Script, tokens: seq<string>, points: seq<string>)
    requires StrictTotalOrder(s.less) && AreTop(s, tokens, points) && tokens != []
    ensures 0 < |points| <= MAX_POINTS && Distinct(points) && forall p :: p in points ==> p in tokens
    ensures forall p, t :: p in points && t in tokens && t !in points ==> multiset(tokens)[p] >= multiset(tokens)[t]
  {
    var counts := CountsOf(tokens);
    var full :| Ranked(Frequent(s, counts), full) && Elements(full) == Elements(tokens)
      && points == full[..Min(MAX_POINTS, |full|)];
    ElementsOfSome(full);
    ElementsOfSome(tokens);
    FrequentIsStrictTotalOrder(s, counts);
    forall p | p in points ensures p in tokens {
      assert p in Elements(full);
    }
    forall p, t | p in points && t in tokens && t !in points ensures multiset(tokens)[p] >= multiset(tokens)[t] {
      assert t in Elements(full);
      var i :| 0 <= i < |points| && points[i] == p;
      var j :| 0 <= j < |full| && full[j] == t;
      assert j >= |points|;
      assert Frequent(s, counts)(full[i], full[j]);
    }
  }

  // ---------- outline ----------

  function Range(lo: int, n: nat): seq<int> {
    seq(n, i requires 0 <= i < n => lo + i)
  }

  function Points(secs: seq<Section>): seq<int> {
    if secs == [] then [] else Points(secs[..|secs| - 1]) + secs[|secs| - 1].points
  }

  // The chapters deal 0 to n - 1 into consecutive blocks, of sizes that differ by at most one.
  ghost predicate Deals(secs: seq<Section>, n: nat) {
    |secs| == Min(MAX_CHAPTERS, n) && Points(secs) == Range(0, n)
    && forall i :: 0 <= i < |secs| ==>
         secs[i].children == [] && secs[i].number == i + 1 && secs[i].points != []
         && n / |secs| <= |secs[i].points| <= n / |secs| + 1
  }

  lemma {:induction false} PointsOneMore(secs: seq<Section>, s: Section)
    ensures Points(secs + [s]) == Points(secs) + s.points
  {
    assert (secs + [s])[..|secs|] == secs;
  }

  lemma {:induction false} RangesJoin(n: nat, m: nat)
    ensures Range(0, n) + Range(n, m) == Range(0, n + m)
  {
  }

  // Where chapter i starts if the first `rem` chapters have one point more.
  function StartOf(i: nat, size: nat, rem: nat): nat {
    if i == 0 then 0 else StartOf(i - 1, size, rem) + (if i - 1 < rem then size + 1 else size)
  }

  lemma {:induction false} StartOfAll(i: nat, size: nat, rem: nat)
    ensures StartOf(i, size, rem) == i * size + Min(i, rem)
  {
    if i > 0 {
      StartOfAll(i - 1, size, rem);
      assert i * size == (i - 1) * size + size;
    }
  }

  method Deal(chapters: nat, size: nat, rem: nat) returns (sections: seq<Section>)
    requires size >= 1
    ensures |sections| == chapters && Points(sections) == Range(0, StartOf(chapters, size, rem))
    ensures forall k :: 0 <= k < chapters ==>
              sections[k].children == [] && sections[k].number == k + 1 && sections[k].points != []
              && size <= |sections[k].points| <= size + 1
  {
    sections := [];
    var pos := 0;
    for i := 0 to chapters
      invariant |sections| == i && pos == StartOf(i, size, rem) && Points(sections) == Range(0, pos)
      invariant forall k :: 0 <= k < i ==>
                  sections[k].children == [] && sections[k].number == k + 1 && sections[k].points != []
                  && size <= |sections[k].points| <= size + 1
    {
      var block := if i < rem then size + 1 else size;
      var section := Section(i + 1, Range(pos, block), []);
      PointsOneMore(sections, section);
      RangesJoin(pos, block);
      pos := pos + block;
      sections := sections + [section];
    }
  }

  method Outline(points: seq<string>) returns (secs: Option<seq<Section>>)
    ensures secs.Some? <==> points != []
    ensures secs.Some? ==> Deals(secs.value, |points|)
  {
    if points == [] {
      return None;
    }
    var chapters := Min(MAX_CHAPTERS, |points|);
    var size, rem := |points| / chapters, |points| % chapters;
    var sections := Deal(chapters, size, rem);
    StartOfAll(chapters, size, rem);
    return Some(sections);
  }

  // ---------- article ----------

  // Point indexes in document order, parents before their children.
  function Span(secs: seq<Section>): seq<int>
    decreases secs
  {
    if secs == [] then [] else secs[0].points + Span(secs[0].children) + Span(secs[1..])
  }

  predicate Increasing(span: seq<int>) {
    forall i, j :: 0 <= i < j < |span| ==> span[i] < span[j]
  }

  // Strictly increasing indexes of existing points.
  predicate FitsPoints(span: seq<int>, n: nat) {
    Increasing(span) && forall i :: 0 <= i < |span| ==> 0 <= span[i] < n
  }

  lemma {:induction false} FlatSpan(secs: seq<Section>)
    requires forall i :: 0 <= i < |secs| ==> secs[i].children == []
    ensures Span(secs) == Points(secs)
  {
    if secs != [] {
      PointsFromFront(secs);
      FlatSpan(secs[1..]);
      assert Span(secs[0].children) == [];
      assert secs[0].points + [] == secs[0].points;
    }
  }

  lemma {:induction false} PointsFromFront(secs: seq<Section>)
    requires secs != []
    ensures Points(secs) == secs[0].points + Points(secs[1..])
  {
    var init := secs[..|secs| - 1];
    if init != [] {
      PointsFromFront(init);
      assert secs[1..][..|secs| - 2] == init[1..];
      Associates(secs[0].points, Points(init[1..]), secs[|secs| - 1].points);
    } else {
      assert Points(secs[1..]) == [];
      assert [] + secs[0].points == secs[0].points + [];
    }
  }

  function DigitChar(d: int): char
    requires 0 <= d < 10
  {
    ('0' as int + d) as char
  }

  function Show(n: nat): string {
    if n < 10 then [DigitChar(n)] else Show(n / 10) + [DigitChar(n % 10)]
  }

  // The marker of the k-th written point.
  function Marker(k: nat, sources: nat): nat
    requires sources > 0
  {
    k % sources + 1
  }

  function Line(point: string, n: nat): string {
    point + (" [" + (Show(n) + "]"))
  }

  // The lines of one section, from the k-th point on.
  function LinesOf(points: seq<string>, indexes: seq<int>, sources: nat, k: nat): seq<string>
    requires sources > 0 && forall i :: 0 <= i < |indexes| ==> 0 <= indexes[i] < |points|
  {
    seq(|indexes|, i requires 0 <= i < |indexes| => Line(points[indexes[i]], Marker(k + i, sources)))
  }

  predicate InRange(secs: seq<Section>, n: nat)
    decreases secs
  {
    secs == []
    || ((forall i :: 0 <= i < |secs[0].points| ==> 0 <= secs[0].points[i] < n) && InRange(secs[0].children, n)
         && InRange(secs[1..], n))
  }

  // The drafts of a tree: a section's own lines, then its children, then its draft.
  function Drafts(points: seq<string>, secs: seq<Section>, sources: nat, k: nat): seq<Draft>
    requires sources > 0 && InRange(secs, |points|)
    decreases secs
  {
    if secs == [] then []
    else
      var own := k + |secs[0].points|;
      Drafts(points, secs[0].children, sources, own)
      + [Draft(secs[0].number, Join(LinesOf(points, secs[0].points, sources, k)))]
      + Drafts(points, secs[1..], sources, own + |Span(secs[0].children)|)
  }

  lemma {:induction false} SpanInRange(secs: seq<Section>, n: nat)
    requires forall i :: 0 <= i < |Span(secs)| ==> 0 <= Span(secs)[i] < n
    ensures InRange(secs, n)
    decreases secs
  {
    if secs != [] {
      var a, b, c := secs[0].points, Span(secs[0].children), Span(secs[1..]);
      assert forall i :: 0 <= i < |a| ==> Span(secs)[i] == a[i];
      assert forall i :: 0 <= i < |b| ==> Span(secs)[|a| + i] == b[i];
      assert forall i :: 0 <= i < |c| ==> Span(secs)[|a| + |b| + i] == c[i];
      SpanInRange(secs[0].children, n);
      SpanInRange(secs[1..], n);
    }
  }

  method WriteLines(points: seq<string>, indexes: seq<int>, sources: nat, start: nat)
    returns (lines: seq<string>, k: nat)
    requires sources > 0 && forall i :: 0 <= i < |indexes| ==> 0 <= indexes[i] < |points|
    ensures lines == LinesOf(points, indexes, sources, start) && k == start + |indexes|
  {
    lines, k := [], start;
    for i := 0 to |indexes|
      invariant k == start + i && lines == LinesOf(points, indexes, sources, start)[..i]
    {
      lines := lines + [Line(points[indexes[i]], Marker(k, sources))];
      k := k + 1;
    }
  }

  method WriteSections(points: seq<string>, secs: seq<Section>, sources: nat, start: nat)
    returns (drafts: seq<Draft>, k: nat)
    requires sources > 0 && InRange(secs, |points|)
    ensures drafts == Drafts(points, secs, sources, start) && k == start + |Span(secs)|
    decreases secs
  {
    if secs == [] {
      return [], start;
    }
    var sec := secs[0];
    var lines, below, above;
    lines, k := WriteLines(points, sec.points, sources, start);
    below, k := WriteSections(points, sec.children, sources, k);
    above, k := WriteSections(points, secs[1..], sources, k);
    drafts := below + [Draft(sec.number, Join(lines))] + above;
  }

  function CitationsOf(sources: seq<Source>): seq<Citation> {
    seq(|sources|, j requires 0 <= j < |sources| => Citation(j + 1, sources[j].docKey, sources[j].revisionId))
  }

  method CheckIncreasing(span: seq<int>) returns (ok: bool)
    ensures ok <==> Increasing(span) && (span != [] ==> span[0] > -1)
  {
    var prev := -1;
    for i := 0 to |span|
      invariant prev == if i == 0 then -1 else span[i - 1]
      invariant Increasing(span[..i]) && (i > 0 ==> span[0] > -1)
    {
      if span[i] <= prev {
        return false;
      }
      prev := span[i];
    }
    assert span[..|span|] == span;
    ok := true;
  }

  // The writer takes an outline exactly if its span fits the points.
  method WriteArticle(sources: seq<Source>, points: seq<string>, outline: seq<Section>) returns (r: Option<Article>)
    ensures r.Some? <==> sources != [] && points != [] && outline != [] && FitsPoints(Span(outline), |points|)
    ensures r.Some? ==> InRange(outline, |points|)
                        && r.value == Article(Drafts(points, outline, |sources|, 0), CitationsOf(sources))
  {
    if sources == [] || points == [] || outline == [] {
      return None;
    }
    var span := Span(outline);
    var ok := CheckIncreasing(span);
    if !ok {
      return None;
    }
    for i := 0 to |span|
      invariant forall k :: 0 <= k < i ==> 0 <= span[k] < |points|
    {
      if span[i] < 0 || span[i] >= |points| {
        return None;
      }
    }
    SpanInRange(outline, |points|);
    var drafts, _ := WriteSections(points, outline, |sources|, 0);
    return Some(Article(drafts, CitationsOf(sources)));
  }

  // ---------- polish ----------

  const DECLARATION := "由 AI 编制，待人工修订"

  method Polish(article: Article) returns (r: Option<Article>)
    ensures r.Some? <==> article.sections != []
    ensures r.Some? ==> r.value == Polished(article)
  {
    if article.sections == [] {
      return None;
    }
    var last := |article.sections| - 1;
    var body := article.sections[last].body;
    if body == "" {
      body := DECLARATION;
    } else {
      body := body + "\n\n" + DECLARATION;
    }
    return Some(article.(sections := article.sections[last := article.sections[last].(body := body)]));
  }

  // The article as it was, with the declaration behind its last section.
  function Polished(article: Article): Article
    requires article.sections != []
  {
    var last := |article.sections| - 1;
    var body := article.sections[last].body;
    var closed := if body == "" then DECLARATION else body + "\n\n" + DECLARATION;
    article.(sections := article.sections[..last] + [article.sections[last].(body := closed)])
  }

  // ---------- the stages compose ----------

  // A dealt outline is never rejected by the writer.
  lemma {:induction false} DealtOutlineFits(secs: seq<Section>, n: nat)
    requires Deals(secs, n) && n > 0
    ensures secs != [] && Span(secs) == Range(0, n) && FitsPoints(Span(secs), n)
  {
    FlatSpan(secs);
  }

  // How often the first n points cite source j.
  function Cited(n: nat, sources: nat, j: nat): nat
    requires sources > 0
  {
    if n == 0 then 0 else Cited(n - 1, sources, j) + (if Marker(n - 1, sources) == j + 1 then 1 else 0)
  }

  lemma {:induction false} DivideNext(n: nat, m: nat)
    requires m > 0
    ensures if n % m == m - 1 then (n + 1) / m == n / m + 1 && (n + 1) % m == 0
            else (n + 1) / m == n / m && (n + 1) % m == n % m + 1
  {
    var q, r := n / m, n % m;
    assert n == q * m + r;
    if r == m - 1 {
      assert n + 1 == (q + 1) * m;
      Quotient(n + 1, m, q + 1, 0);
    } else {
      Quotient(n + 1, m, q, r + 1);
    }
  }

  lemma {:induction false} Quotient(n: nat, m: nat, q: nat, r: nat)
    requires r < m && n == q * m + r
    ensures n / m == q && n % m == r
  {
    var a, b := n / m, n % m;
    assert n == a * m + b;
    var d := if a >= q then a - q else q - a;
    assert d * m == if a >= q then a * m - q * m else q * m - a * m;
    SmallMultiple(d, m);
  }

  lemma {:induction false} SmallMultiple(d: nat, m: nat)
    requires d * m < m
    ensures d == 0
  {
    if d > 0 {
      Multiples(d, m);
    }
  }

  lemma {:induction false} Multiples(d: nat, m: nat)
    requires d >= 1
    ensures d * m >= m
  {
    if d > 1 {
      Multiples(d - 1, m);
      assert d * m == (d - 1) * m + m;
    }
  }

  // Every source is cited equally often, up to one.
  lemma {:induction false} CitedEvenly(n: nat, sources: nat, j: nat)
    requires j < sources
    ensures Cited(n, sources, j) == n / sources + (if j < n % sources then 1 else 0)
  {
    if n > 0 {
      CitedEvenly(n - 1, sources, j);
      DivideNext(n - 1, sources);
    }
  }
}
