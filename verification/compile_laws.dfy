// What the tokens of a text and the markers of a sentence are, character by character.
module CompileLaws {
  import opened Basics
  import opened Sorting
  import opened Splitter
  import opened CompileStages
  import opened CompileClaims

  // ---------- tokens ----------

  // Digits and letters of ASCII, by their codes.
  predicate IsAscii(c: char) {
    48 <= c as int <= 57 || 65 <= c as int <= 90 || 97 <= c as int <= 122
  }

  ghost predicate IsWord(s: Script, w: string) {
    w != [] && forall i :: 0 <= i < |w| ==> IsAscii(w[i]) || s.han(w[i])
  }

  // A run that starts with an ASCII character is one token, in lower case, if it has two
  // characters or more, and none otherwise.
  lemma {:induction false} AsciiRun(s: Script, w: string)
    requires IsWord(s, w) && IsAscii(w[0])
    ensures |TokensOf(s, w)| == if |w| >= 2 then 1 else 0
    ensures |w| >= 2 ==>
              |TokensOf(s, w)[0]| == |w| && forall i :: 0 <= i < |w| ==> TokensOf(s, w)[0][i] == s.lower(w[i])
  {
    TokensOfWord(s, w);
  }

  // Any other run gives its neighbouring pairs, in order and as they are.
  lemma {:induction false} PairsOfRun(s: Script, w: string)
    requires IsWord(s, w) && !IsAscii(w[0])
    ensures |TokensOf(s, w)| == |w| - 1
    ensures forall i :: 0 <= i < |w| - 1 ==> TokensOf(s, w)[i] == [w[i], w[i + 1]]
  {
    TokensOfWord(s, w);
  }

  // Any other character separates.
  lemma {:induction false} OthersSeparate(s: Script, a: string, sep: char, b: string)
    requires !IsAscii(sep) && !s.han(sep)
    ensures TokensOf(s, a + [sep] + b) == TokensOf(s, a) + TokensOf(s, b)
  {
    TokensAround(s, a, sep, b);
  }

  lemma {:induction false} NoTokens(s: Script)
    ensures TokensOf(s, []) == []
  {
  }

  // ---------- points ----------

  // More occurrences, or as many and earlier in the order of strings.
  predicate Precedes(s: Script, tokens: seq<string>, a: string, b: string) {
    var n := multiset(tokens);
    n[a] > n[b] || (n[a] == n[b] && s.less(a, b))
  }

  // What is ranked by frequency is ranked so.
  lemma {:induction false} RankedPrecedes(s: Script, tokens: seq<string>, full: seq<string>, i: nat, j: nat)
    requires Ranked(Frequent(s, CountsOf(tokens)), full) && Elements(full) == Elements(tokens) && i < j < |full|
    ensures Precedes(s, tokens, full[i], full[j])
  {
    assert Frequent(s, CountsOf(tokens))(full[i], full[j]);
    assert full[i] in Elements(full) && full[j] in Elements(full);
  }

  // The points come in this order; where tokens are left out there are eight points, all before
  // those.
  lemma {:induction false} PointsAreRanked(s: Script, tokens: seq<string>, points: seq<string>, i: nat)
    requires AreTop(s, tokens, points) && i < |points|
    ensures forall j :: i < j < |points| ==> Precedes(s, tokens, points[i], points[j])
    ensures forall t :: t in tokens && t !in points ==> |points| == 8 && Precedes(s, tokens, points[i], t)
  {
    hide Precedes, Frequent, CountsOf;
    var full :| Ranked(Frequent(s, CountsOf(tokens)), full) && Elements(full) == Elements(tokens)
      && points == full[..Min(MAX_POINTS, |full|)];
    forall j | i < j < |points| ensures Precedes(s, tokens, points[i], points[j]) {
      RankedPrecedes(s, tokens, full, i, j);
    }
    forall t | t in tokens && t !in points ensures |points| == 8 && Precedes(s, tokens, points[i], t) {
      assert t in Elements(full);
      var j :| 0 <= j < |full| && full[j] == t;
      assert forall k :: 0 <= k < |points| ==> full[k] == points[k] && points[k] != t;
      RankedPrecedes(s, tokens, full, i, j);
    }
  }

  // Citation j, counted from 1, is that of source j.
  lemma {:induction false} CitationOfSource(sources: seq<Source>, j: nat)
    requires j < |sources|
    ensures |CitationsOf(sources)| == |sources| && CitationsOf(sources)[j].index == j + 1
    ensures CitationsOf(sources)[j].docKey == sources[j].docKey
            && CitationsOf(sources)[j].revisionId == sources[j].revisionId
  {
  }

  // ---------- markers ----------

  ghost predicate AllDigits(d: string) {
    forall i :: 0 <= i < |d| ==> IsDigit(d[i])
  }

  lemma {:induction false} DigitRunStops(d: string, rest: string)
    requires AllDigits(d) && (rest != [] ==> !IsDigit(rest[0]))
    ensures DigitRun(d + rest) == |d|
  {
    if d == [] {
      assert d + rest == rest;
    } else {
      assert (d + rest)[1..] == d[1..] + rest;
      DigitRunStops(d[1..], rest);
    }
  }

  // A marker stands where a bracket opens, one to four digits follow, and a bracket closes.
  lemma {:induction false} MarkerStandsHere(d: string, rest: string)
    requires AllDigits(d) && 1 <= |d| <= 4
    ensures MarkerHere("[" + d + "]" + rest) == Some(ValueOf(d))
  {
    var s := "[" + d + "]" + rest;
    assert s[1..] == d + ("]" + rest);
    DigitRunStops(d, "]" + rest);
    assert s[1..][..|d|] == d && s[|d| + 1] == ']';
  }

  lemma {:induction false} OnlyThereAMarkerStands(s: string) returns (d: string, rest: string)
    requires MarkerHere(s).Some?
    ensures s == "[" + d + "]" + rest && AllDigits(d) && 1 <= |d| <= 4 && MarkerHere(s) == Some(ValueOf(d))
  {
    var n := DigitRun(s[1..]);
    d, rest := s[1..][..n], s[n + 2..];
    assert s == [s[0]] + s[1..][..n] + [s[n + 1]] + s[n + 2..];
  }

  // The value of digits: ten times that of those before, plus the last.
  lemma {:induction false} DigitsCount(d: string, c: char)
    requires AllDigits(d) && IsDigit(c)
    ensures ValueOf(d + [c]) == 10 * ValueOf(d) + (c as int - '0' as int) && ValueOf([]) == 0
  {
    assert (d + [c])[..|d|] == d;
  }

  // The marker of a sentence is the first one in it.
  lemma {:induction false} MarkerIsTheFirst(s: string, n: nat)
    requires n < |s| && MarkerHere(s[n..]).Some? && forall k :: 0 <= k < n ==> MarkerHere(s[k..]).None?
    ensures FirstMarker(s) == MarkerHere(s[n..])
  {
    assert s[0..] == s;
    if n > 0 {
      assert MarkerHere(s[0..]).None?;
      forall k | 0 <= k < n - 1 ensures MarkerHere(s[1..][k..]).None? {
        assert s[1..][k..] == s[k + 1..];
      }
      assert s[1..][n - 1..] == s[n..];
      MarkerIsTheFirst(s[1..], n - 1);
    }
  }

  lemma {:induction false} NoMarkerAtAll(s: string)
    requires forall k :: 0 <= k < |s| ==> MarkerHere(s[k..]).None?
    ensures FirstMarker(s).None?
  {
    if s != [] {
      assert s[0..] == s && MarkerHere(s[0..]).None?;
      forall k | 0 <= k < |s| - 1 ensures MarkerHere(s[1..][k..]).None? {
        assert s[1..][k..] == s[k + 1..];
      }
      NoMarkerAtAll(s[1..]);
    }
  }

  // ---------- claims ----------

  ghost predicate Cited(citations: seq<Citation>, n: nat) {
    exists j :: 0 <= j < |citations| && citations[j].index == n
  }

  // A sentence whose first marker names a listed source has that source as evidence; with a
  // marker that names none it has the number but no evidence; without a marker, neither.
  lemma {:induction false} ClaimOfMarked(before: string, d: string, rest: string, citations: seq<Citation>)
    requires AllDigits(d) && 1 <= |d| <= 4 && '[' !in before
    ensures var sentence := before + ("[" + d + "]" + rest);
            ClaimOf(sentence, citations) == Claim(sentence, ValueOf(d), Cited(citations, ValueOf(d)))
  {
    MarkerStandsHere(d, rest);
    MarkerBehind(before, "[" + d + "]" + rest);
  }

  lemma {:induction false} ClaimOfUnmarked(sentence: string, citations: seq<Citation>)
    requires forall k :: 0 <= k < |sentence| ==> MarkerHere(sentence[k..]).None?
    ensures ClaimOf(sentence, citations) == Claim(sentence, 0, false)
  {
    NoMarkerAtAll(sentence);
  }
}
