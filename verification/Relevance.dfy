/** Evidence selection: which knowledge chunks ground a conversation, and how chunks are ranked.

    Tokenizing, case folding and the closed word lists are inputs. A chunk carries its whole text and
    its bounded excerpt, both already folded. */
module Relevance {
  import opened Options

  datatype Chunk = Chunk(id: string, excerpt: string, text: string)

  datatype Parsed = Parsed(terms: seq<string>, technical: set<string>)

  datatype Lexicon = Lexicon(stopWords: set<string>, filler: set<string>, wordCharacters: set<char>)

  const MINIMUM_SIGNIFICANT_TERM_LENGTH: nat := 3

  /** One chunk beside the positions of the terms it matches. */
  datatype Scored = Scored(matched: set<nat>, chunk: Chunk) {
    function Size(): nat { |matched| }
  }

  predicate Significant(term: string, p: Parsed, lex: Lexicon) {
    term !in lex.stopWords && (term in p.technical || |term| >= MINIMUM_SIGNIFICANT_TERM_LENGTH)
  }

  /** The distinct significant terms after those in `seen`, in the order in which they first occur. */
  function SignificantAfter(terms: seq<string>, p: Parsed, lex: Lexicon, seen: set<string>): (r: seq<string>)
    ensures forall t :: t in r <==> t in terms && Significant(t, p, lex) && t !in seen
    ensures forall i, j :: 0 <= i < j < |r| ==> r[i] != r[j]
  {
    if terms == [] then []
    else if Significant(terms[0], p, lex) && terms[0] !in seen
    then [terms[0]] + SignificantAfter(terms[1..], p, lex, seen + {terms[0]})
    else SignificantAfter(terms[1..], p, lex, seen)
  }

  function SignificantTerms(p: Parsed, lex: Lexicon): seq<string> { SignificantAfter(p.terms, p, lex, {}) }

  function WithoutFiller(terms: seq<string>, filler: set<string>): (r: seq<string>)
    ensures forall t :: t in r <==> t in terms && t !in filler
    ensures (forall i, j :: 0 <= i < j < |terms| ==> terms[i] != terms[j]) ==> forall i, j :: 0 <= i < j < |r| ==> r[i] != r[j]
  {
    if terms == [] then []
    else if terms[0] in filler then WithoutFiller(terms[1..], filler)
    else [terms[0]] + WithoutFiller(terms[1..], filler)
  }

  /** Where a term first occurs. */
  function FirstAt(terms: seq<string>, t: string): nat {
    if terms == [] || terms[0] == t then 0 else 1 + FirstAt(terms[1..], t)
  }

  /** Listed in the order in which they first occur. */
  predicate InOrder(r: seq<string>, terms: seq<string>) {
    forall i, j :: 0 <= i < j < |r| ==> FirstAt(terms, r[i]) < FirstAt(terms, r[j])
  }

  lemma OrderGoesOn(r: seq<string>, terms: seq<string>)
    requires terms != [] && InOrder(r, terms[1..]) && terms[0] !in r
    ensures InOrder(r, terms) && InOrder([terms[0]] + r, terms)
  {
    forall i | 0 <= i < |r| ensures FirstAt(terms, r[i]) == 1 + FirstAt(terms[1..], r[i]) {
      assert r[i] in r;
    }
  }

  lemma {:induction false} SignificantInOrder(terms: seq<string>, p: Parsed, lex: Lexicon, seen: set<string>)
    ensures InOrder(SignificantAfter(terms, p, lex, seen), terms)
  {
    if terms != [] {
      var now := if Significant(terms[0], p, lex) then seen + {terms[0]} else seen;
      SignificantInOrder(terms[1..], p, lex, seen);
      SignificantInOrder(terms[1..], p, lex, now);
      hide InOrder;
      OrderGoesOn(SignificantAfter(terms[1..], p, lex, now), terms);
    }
  }

  lemma {:induction false} ResidualInOrder(terms: seq<string>, filler: set<string>)
    requires forall i, j :: 0 <= i < j < |terms| ==> terms[i] != terms[j]
    ensures InOrder(WithoutFiller(terms, filler), terms)
  {
    if terms != [] {
      ResidualInOrder(terms[1..], filler);
      hide InOrder;
      OrderGoesOn(WithoutFiller(terms[1..], filler), terms);
    }
  }

  /** The terms a conversation asks about: each once, no stop word and no filler, and technical or of at
      least three characters. */
  lemma ResidualTerms(p: Parsed, lex: Lexicon, t: string)
    ensures var terms := WithoutFiller(SignificantTerms(p, lex), lex.filler);
            && (t in terms <==> t in p.terms && t !in lex.stopWords && t !in lex.filler && (t in p.technical || |t| >= 3))
            && forall i, j :: 0 <= i < j < |terms| ==> terms[i] != terms[j]
  {
  }

  predicate OccursAt(text: string, term: string, i: nat) { i + |term| <= |text| && text[i..i + |term|] == term }

  predicate Contains(text: string, term: string) { exists i :: 0 <= i <= |text| && OccursAt(text, term, i) }

  /** The term stands alone: no word character touches it on either side. */
  predicate WholeTerm(text: string, term: string, word: set<char>) {
    exists i :: 0 <= i <= |text| && OccursAt(text, term, i)
                && (i > 0 ==> text[i - 1] !in word) && (i + |term| < |text| ==> text[i + |term|] !in word)
  }

  /** `text` is `before`, the term and `after`. */
  predicate Splits(text: string, before: string, term: string, after: string) { text == before + term + after }

  lemma SplitsAt(text: string, before: string, term: string, after: string)
    requires Splits(text, before, term, after)
    ensures OccursAt(text, term, |before|) && |before| <= |text|
    ensures before != "" ==> text[|before| - 1] == before[|before| - 1]
    ensures |before| + |term| < |text| <==> after != ""
    ensures after != "" ==> text[|before| + |term|] == after[0]
  {
  }

  lemma OccursSplits(text: string, term: string, i: nat)
    requires OccursAt(text, term, i)
    ensures Splits(text, text[..i], term, text[i + |term|..])
  {
  }

  lemma ContainsLaw(text: string, term: string)
    ensures Contains(text, term) <==> exists before, after :: Splits(text, before, term, after)
  {
    hide Splits, OccursAt;
    if i :| 0 <= i <= |text| && OccursAt(text, term, i) {
      OccursSplits(text, term, i);
    }
    if before, after :| Splits(text, before, term, after) {
      SplitsAt(text, before, term, after);
    }
  }

  /** The term is there, and no word character comes right before or right after it. */
  predicate SplitsApart(text: string, before: string, term: string, after: string, word: set<char>) {
    && Splits(text, before, term, after)
    && (before != "" ==> before[|before| - 1] !in word) && (after != "" ==> after[0] !in word)
  }

  lemma WholeTermLaw(text: string, term: string, word: set<char>)
    ensures WholeTerm(text, term, word) <==> exists before, after :: SplitsApart(text, before, term, after, word)
  {
    hide Splits, OccursAt;
    if WholeTerm(text, term, word) {
      var i :| 0 <= i <= |text| && OccursAt(text, term, i)
               && (i > 0 ==> text[i - 1] !in word) && (i + |term| < |text| ==> text[i + |term|] !in word);
      OccursSplits(text, term, i);
      SplitsAt(text, text[..i], term, text[i + |term|..]);
      assert SplitsApart(text, text[..i], term, text[i + |term|..], word);
    }
    if before, after :| SplitsApart(text, before, term, after, word) {
      SplitsAt(text, before, term, after);
    }
  }

  // -- the stable sort, most matches first ------------------------------------------------

  function Insert(x: Scored, s: seq<Scored>): seq<Scored> {
    if s == [] || s[0].Size() <= x.Size() then [x] + s else [s[0]] + Insert(x, s[1..])
  }

  function Ranked(s: seq<Scored>): seq<Scored> {
    if s == [] then [] else Insert(s[0], Ranked(s[1..]))
  }

  predicate Descending(s: seq<Scored>) {
    forall i, j :: 0 <= i < j < |s| ==> s[i].Size() >= s[j].Size()
  }

  function OfSize(s: seq<Scored>, n: nat): seq<Scored> {
    if s == [] then [] else if s[0].Size() == n then [s[0]] + OfSize(s[1..], n) else OfSize(s[1..], n)
  }

  lemma {:induction false} InsertedElements(x: Scored, s: seq<Scored>)
    ensures multiset(Insert(x, s)) == multiset{x} + multiset(s)
    ensures |Insert(x, s)| == |s| + 1 && forall y :: y in Insert(x, s) ==> y == x || y in s
  {
    if s == [] || s[0].Size() <= x.Size() {
    } else {
      InsertedElements(x, s[1..]);
      assert s == [s[0]] + s[1..];
    }
  }

  lemma {:induction false} InsertedDescends(x: Scored, s: seq<Scored>)
    requires Descending(s)
    ensures Descending(Insert(x, s))
  {
    if s == [] || s[0].Size() <= x.Size() {
    } else {
      InsertedDescends(x, s[1..]);
      InsertedElements(x, s[1..]);
      var rest := Insert(x, s[1..]);
      forall j | 0 <= j < |rest| ensures rest[j].Size() <= s[0].Size() {
        assert rest[j] in rest;
      }
    }
  }

  lemma {:induction false} InsertedKeepsTies(x: Scored, s: seq<Scored>, n: nat)
    requires Descending(s)
    ensures OfSize(Insert(x, s), n) == OfSize([x] + s, n)
  {
    if s == [] || s[0].Size() <= x.Size() {
    } else {
      InsertedKeepsTies(x, s[1..], n);
      assert ([x] + s)[1..] == s && ([x] + s[1..])[1..] == s[1..];
      assert ([s[0]] + Insert(x, s[1..]))[1..] == Insert(x, s[1..]);
    }
  }

  /** Ranking is a permutation, most matches first, and keeps the order of chunks that tie. */
  lemma {:induction false} RankedFacts(s: seq<Scored>, n: nat)
    ensures multiset(Ranked(s)) == multiset(s) && Descending(Ranked(s))
    ensures OfSize(Ranked(s), n) == OfSize(s, n)
  {
    if s != [] {
      RankedFacts(s[1..], n);
      InsertedElements(s[0], Ranked(s[1..]));
      InsertedDescends(s[0], Ranked(s[1..]));
      InsertedKeepsTies(s[0], Ranked(s[1..]), n);
      assert s == [s[0]] + s[1..];
      assert ([s[0]] + Ranked(s[1..]))[1..] == Ranked(s[1..]);
    }
  }

  lemma {:induction false} FirstOfSize(s: seq<Scored>, n: nat, k: nat)
    requires k < |s| && s[k].Size() == n && forall j :: 0 <= j < k ==> s[j].Size() != n
    ensures OfSize(s, n) != [] && OfSize(s, n)[0] == s[k]
  {
    if k > 0 {
      FirstOfSize(s[1..], n, k - 1);
    }
  }

  /** The first chunk of the greatest size anywhere is the first of the ranking. */
  lemma GreatestComesFirst(s: seq<Scored>, n: nat, k: nat)
    requires k < |s| && s[k].Size() == n && forall j :: 0 <= j < k ==> s[j].Size() != n
    requires forall j :: 0 <= j < |s| ==> s[j].Size() <= n
    ensures Ranked(s) != [] && Ranked(s)[0] == s[k]
  {
    RankedFacts(s, n);
    FirstOfSize(s, n, k);
    var r := Ranked(s);
    assert s[k] in multiset(s);
    var j :| 0 <= j < |r| && r[j] == s[k];
    assert r[0] in multiset(r);
    assert r[0].Size() == n;
    FirstOfSize(r, n, 0);
  }

  // -- the selection ------------------------------------------------------------------------

  /** What a chunk matches. */
  function MatchedBy(c: Chunk, n: nat, matches: (Chunk, nat) -> bool): set<nat> {
    set k: nat | 0 <= k < n && matches(c, k)
  }

  function Scores(chunks: seq<Chunk>, n: nat, matches: (Chunk, nat) -> bool): (r: seq<Scored>)
    ensures |r| == |chunks|
    ensures forall i :: 0 <= i < |chunks| ==> r[i].chunk == chunks[i] && r[i].matched == MatchedBy(chunks[i], n, matches)
  {
    seq(|chunks|, i requires 0 <= i < |chunks| => Scored(MatchedBy(chunks[i], n, matches), chunks[i]))
  }

  function Relevant(s: seq<Scored>): (r: seq<Scored>)
    ensures forall x :: x in r <==> x in s && x.matched != {}
  {
    if s == [] then [] else if s[0].matched != {} then [s[0]] + Relevant(s[1..]) else Relevant(s[1..])
  }

  function Covered(s: seq<Scored>): set<nat> {
    if s == [] then {} else Covered(s[..|s| - 1]) + s[|s| - 1].matched
  }

  /** One pass over the ranking: each excerpt that adds coverage, until all is covered or the room is used. */
  function Greedy(s: seq<Scored>, covered: set<nat>, room: nat, n: nat): seq<Scored> {
    if s == [] || |covered| == n || room == 0 then []
    else if s[0].matched <= covered then Greedy(s[1..], covered, room, n)
    else [s[0]] + Greedy(s[1..], covered + s[0].matched, room - 1, n)
  }

  function AllUpTo(n: nat): (r: set<nat>)
    ensures forall k: nat :: k in r <==> k < n
  {
    if n == 0 then {} else AllUpTo(n - 1) + {n - 1}
  }

  predicate Positions(a: set<nat>, n: nat) { forall k :: k in a ==> k < n }

  lemma {:induction false} PositionsAreFew(a: set<nat>, n: nat)
    requires Positions(a, n)
    ensures |a| <= n && (|a| == n ==> a == AllUpTo(n))
  {
    if n == 0 {
      assert a == {};
    } else {
      PositionsAreFew(a - {n - 1}, n - 1);
      if n - 1 in a {
        assert a == (a - {n - 1}) + {n - 1};
      } else {
        assert a - {n - 1} == a;
      }
    }
  }

  lemma {:induction false} CoveredAfterFirst(x: Scored, s: seq<Scored>)
    ensures Covered([x] + s) == x.matched + Covered(s)
  {
    if s == [] {
      assert [x] + s == [x] && [x][..0] == [];
    } else {
      CoveredAfterFirst(x, s[..|s| - 1]);
      assert ([x] + s)[..|[x] + s| - 1] == [x] + s[..|s| - 1];
    }
  }

  /** The pass takes chunks of the ranking, no more of them than there is room or need for. */
  lemma {:induction false} GreedyIsBounded(s: seq<Scored>, covered: set<nat>, room: nat, n: nat)
    requires Positions(covered, n) && forall x :: x in s ==> Positions(x.matched, n)
    ensures var r := Greedy(s, covered, room, n);
            && (forall x :: x in r ==> x in s)
            && |r| <= room && |covered| + |r| <= |covered + Covered(r)| && Positions(covered + Covered(r), n)
  {
    var r := Greedy(s, covered, room, n);
    if s == [] || |covered| == n || room == 0 {
      assert covered + Covered(r) == covered;
    } else if s[0].matched <= covered {
      GreedyIsBounded(s[1..], covered, room, n);
    } else {
      var more := covered + s[0].matched;
      assert s[0] in s;
      GreedyIsBounded(s[1..], more, room - 1, n);
      CoveredAfterFirst(s[0], Greedy(s[1..], more, room - 1, n));
      assert covered + Covered(r) == more + Covered(Greedy(s[1..], more, room - 1, n));
      StrictlyMore(covered, more);
    }
  }

  /** Every excerpt it takes adds coverage to all those before it. */
  lemma {:induction false} GreedyAddsCoverage(s: seq<Scored>, covered: set<nat>, room: nat, n: nat, i: nat)
    requires i < |Greedy(s, covered, room, n)|
    ensures var r := Greedy(s, covered, room, n); !(r[i].matched <= covered + Covered(r[..i]))
  {
    var r := Greedy(s, covered, room, n);
    if s[0].matched <= covered {
      GreedyAddsCoverage(s[1..], covered, room, n, i);
    } else if i > 0 {
      var more := covered + s[0].matched;
      var rest := Greedy(s[1..], more, room - 1, n);
      GreedyAddsCoverage(s[1..], more, room - 1, n, i - 1);
      assert r[..i] == [s[0]] + rest[..i - 1];
      CoveredAfterFirst(s[0], rest[..i - 1]);
      assert covered + Covered(r[..i]) == more + Covered(rest[..i - 1]);
    } else {
      assert covered + Covered(r[..0]) == covered;
    }
  }

  lemma StrictlyMore(a: set<nat>, b: set<nat>)
    requires a < b
    ensures |a| < |b|
  {
    assert b == a + (b - a);
  }

  /** `rank_chunks_for_conversation`, once the terms and their matches are known. */
  function Selection(chunks: seq<Chunk>, n: nat, matches: (Chunk, nat) -> bool, maxResults: int): seq<Chunk> {
    if maxResults <= 0 || n == 0 then []
    else
      var picked := Greedy(Ranked(Relevant(Scores(chunks, n, matches))), {}, maxResults, n);
      if |Covered(picked)| != n then [] else ChunksOf(picked)
  }

  function ChunksOf(s: seq<Scored>): seq<Chunk> { seq(|s|, i requires 0 <= i < |s| => s[i].chunk) }

  lemma SelectionComesFromChunks(chunks: seq<Chunk>, n: nat, matches: (Chunk, nat) -> bool, x: Scored)
    requires x in Ranked(Relevant(Scores(chunks, n, matches)))
    ensures x.chunk in chunks && x.matched == MatchedBy(x.chunk, n, matches) && Positions(x.matched, n)
  {
    var scored := Scores(chunks, n, matches);
    RankedFacts(Relevant(scored), 0);
    assert x in multiset(Ranked(Relevant(scored)));
    assert x in scored;
    var i :| 0 <= i < |scored| && scored[i] == x;
  }

  /** What the pass picks when nothing is covered yet. */
  lemma PickedFacts(ranked: seq<Scored>, room: nat, n: nat, i: nat)
    requires forall x :: x in ranked ==> Positions(x.matched, n)
    ensures var picked := Greedy(ranked, {}, room, n);
            && |picked| <= room && |picked| <= |Covered(picked)| <= n && (|Covered(picked)| == n ==> Covered(picked) == AllUpTo(n))
            && (i < |picked| ==> picked[i] in ranked && exists k :: k in picked[i].matched && k !in Covered(picked[..i]))
  {
    var picked := Greedy(ranked, {}, room, n);
    GreedyIsBounded(ranked, {}, room, n);
    assert {} + Covered(picked) == Covered(picked);
    PositionsAreFew(Covered(picked), n);
    if i < |picked| {
      GreedyAddsCoverage(ranked, {}, room, n, i);
      assert {} + Covered(picked[..i]) == Covered(picked[..i]);
      assert picked[i] in picked;
    }
  }

  /** The excerpt at `i` matches a term none before it matches. */
  predicate AddsATerm(r: seq<Chunk>, i: nat, n: nat, matches: (Chunk, nat) -> bool)
    requires i < |r|
  {
    exists k :: 0 <= k < n && matches(r[i], k) && forall j :: 0 <= j < i ==> !matches(r[j], k)
  }

  lemma PickedAddsATerm(chunks: seq<Chunk>, n: nat, matches: (Chunk, nat) -> bool, room: nat, i: nat)
    requires i < |Greedy(Ranked(Relevant(Scores(chunks, n, matches))), {}, room, n)|
    ensures var r := ChunksOf(Greedy(Ranked(Relevant(Scores(chunks, n, matches))), {}, room, n));
            r[i] in chunks && AddsATerm(r, i, n, matches)
  {
    var ranked := Ranked(Relevant(Scores(chunks, n, matches)));
    forall x | x in ranked ensures Positions(x.matched, n) && x.chunk in chunks && x.matched == MatchedBy(x.chunk, n, matches) {
      SelectionComesFromChunks(chunks, n, matches, x);
    }
    var picked := Greedy(ranked, {}, room, n);
    PickedFacts(ranked, room, n, i);
    var k :| k in picked[i].matched && k !in Covered(picked[..i]);
    forall j | 0 <= j < i ensures !matches(picked[j].chunk, k) {
      PickedFacts(ranked, room, n, j);
      assert picked[..i][j] == picked[j];
      if k in picked[j].matched {
        InCovered(picked[..i], j, k);
      }
    }
  }

  predicate MatchedBySome(r: seq<Chunk>, k: nat, matches: (Chunk, nat) -> bool) {
    exists i :: 0 <= i < |r| && matches(r[i], k)
  }

  lemma PickedCovers(chunks: seq<Chunk>, n: nat, matches: (Chunk, nat) -> bool, room: nat, k: nat)
    requires k < n && |Covered(Greedy(Ranked(Relevant(Scores(chunks, n, matches))), {}, room, n))| == n
    ensures MatchedBySome(ChunksOf(Greedy(Ranked(Relevant(Scores(chunks, n, matches))), {}, room, n)), k, matches)
  {
    var ranked := Ranked(Relevant(Scores(chunks, n, matches)));
    forall x | x in ranked ensures Positions(x.matched, n) && x.matched == MatchedBy(x.chunk, n, matches) {
      SelectionComesFromChunks(chunks, n, matches, x);
    }
    var picked := Greedy(ranked, {}, room, n);
    PickedFacts(ranked, room, n, 0);
    assert k in AllUpTo(n);
    CoveredBySome(picked, k);
    var i :| 0 <= i < |picked| && k in picked[i].matched;
    PickedFacts(ranked, room, n, i);
    assert matches(ChunksOf(picked)[i], k);
  }

  /** A selection is empty, or its excerpts together cover every term, each one adding a term the ones
      before it lacked; it is no larger than asked for, nor than the number of terms. */
  lemma SelectionCovers(chunks: seq<Chunk>, n: nat, matches: (Chunk, nat) -> bool, maxResults: int)
    ensures var r := Selection(chunks, n, matches, maxResults);
            r != [] ==>
              && |r| <= maxResults && |r| <= n
              && (forall k :: 0 <= k < n ==> MatchedBySome(r, k, matches))
              && (forall i :: 0 <= i < |r| ==> r[i] in chunks && AddsATerm(r, i, n, matches))
  {
    var r := Selection(chunks, n, matches, maxResults);
    if r != [] {
      var ranked := Ranked(Relevant(Scores(chunks, n, matches)));
      forall x | x in ranked ensures Positions(x.matched, n) {
        SelectionComesFromChunks(chunks, n, matches, x);
      }
      PickedFacts(ranked, maxResults, n, 0);
      forall k | 0 <= k < n ensures MatchedBySome(r, k, matches) {
        PickedCovers(chunks, n, matches, maxResults, k);
      }
      forall i | 0 <= i < |r| ensures r[i] in chunks && AddsATerm(r, i, n, matches) {
        PickedAddsATerm(chunks, n, matches, maxResults, i);
      }
    }
  }

  lemma {:induction false} CoveredBySome(s: seq<Scored>, k: nat)
    requires k in Covered(s)
    ensures exists i :: 0 <= i < |s| && k in s[i].matched
  {
    if k !in s[|s| - 1].matched {
      CoveredBySome(s[..|s| - 1], k);
      var i :| 0 <= i < |s| - 1 && k in s[..|s| - 1][i].matched;
      assert k in s[i].matched;
    }
  }

  lemma {:induction false} InCovered(s: seq<Scored>, j: nat, k: nat)
    requires j < |s| && k in s[j].matched
    ensures k in Covered(s)
  {
    if j < |s| - 1 {
      InCovered(s[..|s| - 1], j, k);
    }
  }

  predicate CoversAll(c: Chunk, n: nat, matches: (Chunk, nat) -> bool) { forall k :: 0 <= k < n ==> matches(c, k) }

  lemma {:induction false} RelevantKeepsFirst(s: seq<Scored>, n: nat, k: nat) returns (i: nat)
    requires n > 0 && k < |s| && s[k].Size() == n && forall j :: 0 <= j < k ==> s[j].Size() != n
    ensures i < |Relevant(s)| && Relevant(s)[i] == s[k] && forall j :: 0 <= j < i ==> Relevant(s)[j].Size() != n
  {
    if k == 0 {
      i := 0;
    } else {
      i := RelevantKeepsFirst(s[1..], n, k - 1);
      if s[0].matched != {} {
        i := i + 1;
      }
    }
  }

  lemma {:induction false} AllPositions(n: nat)
    ensures |AllUpTo(n)| == n
  {
    if n > 0 {
      AllPositions(n - 1);
      assert AllUpTo(n) == AllUpTo(n - 1) + {n - 1};
    }
  }

  /** If some chunk covers every term, the selection is just the first such chunk. */
  lemma FullCoverIsEnough(chunks: seq<Chunk>, n: nat, matches: (Chunk, nat) -> bool, maxResults: int, k: nat)
    requires maxResults > 0 && n > 0 && k < |chunks| && CoversAll(chunks[k], n, matches)
    requires forall j :: 0 <= j < k ==> !CoversAll(chunks[j], n, matches)
    ensures Selection(chunks, n, matches, maxResults) == [chunks[k]]
  {
    var scored := Scores(chunks, n, matches);
    var relevant := Relevant(scored);
    FullCoverRanksFirst(chunks, n, matches, k);
    var ranked := Ranked(relevant);
    var all := AllUpTo(n);
    AllPositions(n);
    GreedyStopsWhenAllIsCovered(ranked, maxResults, n);
  }

  /** A first chunk that covers everything is all the pass takes. */
  lemma GreedyStopsWhenAllIsCovered(ranked: seq<Scored>, room: nat, n: nat)
    requires ranked != [] && room > 0 && n > 0 && ranked[0].matched == AllUpTo(n)
    ensures Greedy(ranked, {}, room, n) == [ranked[0]] && |Covered([ranked[0]])| == n
  {
    var all := AllUpTo(n);
    AllPositions(n);
    assert {} + all == all && !(all <= {}) by {
      assert 0 in all;
    }
    assert Greedy(ranked[1..], all, room - 1, n) == [];
    CoveredAfterFirst(ranked[0], []);
    assert [ranked[0]] + [] == [ranked[0]];
    assert Covered([ranked[0]]) == all;
  }

  lemma CoversAllIffMatchesAll(c: Chunk, n: nat, matches: (Chunk, nat) -> bool)
    ensures |MatchedBy(c, n, matches)| <= n
    ensures CoversAll(c, n, matches) <==> |MatchedBy(c, n, matches)| == n
    ensures CoversAll(c, n, matches) ==> MatchedBy(c, n, matches) == AllUpTo(n)
  {
    var m := MatchedBy(c, n, matches);
    PositionsAreFew(m, n);
    AllPositions(n);
    if CoversAll(c, n, matches) {
      assert m == AllUpTo(n);
    }
    if |m| == n {
      forall k | 0 <= k < n ensures matches(c, k) {
        assert k in AllUpTo(n);
      }
    }
  }

  lemma FullCoverRanksFirst(chunks: seq<Chunk>, n: nat, matches: (Chunk, nat) -> bool, k: nat)
    requires n > 0 && k < |chunks| && CoversAll(chunks[k], n, matches)
    requires forall j :: 0 <= j < k ==> !CoversAll(chunks[j], n, matches)
    ensures var ranked := Ranked(Relevant(Scores(chunks, n, matches)));
            ranked != [] && ranked[0].chunk == chunks[k] && ranked[0].matched == AllUpTo(n)
  {
    var scored := Scores(chunks, n, matches);
    forall j | 0 <= j < |scored| ensures scored[j].Size() <= n && (scored[j].Size() == n <==> CoversAll(chunks[j], n, matches)) {
      CoversAllIffMatchesAll(chunks[j], n, matches);
    }
    CoversAllIffMatchesAll(chunks[k], n, matches);
    var i := RelevantKeepsFirst(scored, n, k);
    var relevant := Relevant(scored);
    forall j | 0 <= j < |relevant| ensures relevant[j].Size() <= n {
      assert relevant[j] in scored;
    }
    GreatestComesFirst(relevant, n, i);
  }

  // -- what the selection is ----------------------------------------------------------------------

  /** The ranking: most matches first, those that tie as they came, and none that matches nothing. */
  ghost predicate IsRanking(r: seq<Scored>, s: seq<Scored>) {
    Descending(r) && OfSize(r, 0) == [] && forall m: nat :: m > 0 ==> OfSize(r, m) == OfSize(s, m)
  }

  lemma {:induction false} RelevantKeepsTies(s: seq<Scored>, m: nat)
    ensures OfSize(Relevant(s), m) == if m > 0 then OfSize(s, m) else []
  {
    if s != [] {
      RelevantKeepsTies(s[1..], m);
      if s[0].matched != {} {
        assert s[0].Size() != 0;
        assert ([s[0]] + Relevant(s[1..]))[1..] == Relevant(s[1..]);
      }
    }
  }

  lemma RankedIsTheRanking(s: seq<Scored>)
    ensures IsRanking(Ranked(Relevant(s)), s)
  {
    forall m: nat ensures OfSize(Ranked(Relevant(s)), m) == if m > 0 then OfSize(s, m) else [] {
      RankedFacts(Relevant(s), m);
      RelevantKeepsTies(s, m);
    }
    RankedFacts(Relevant(s), 0);
  }

  /** The chunks of a ranking that match some term nothing before them matches. */
  function Adders(r: seq<Chunk>, n: nat, matches: (Chunk, nat) -> bool): seq<Chunk> {
    if r == [] then []
    else Adders(r[..|r| - 1], n, matches) + if AddsATerm(r, |r| - 1, n, matches) then [r[|r| - 1]] else []
  }

  /** The pass with all the room it may want. */
  function Unbounded(s: seq<Scored>, covered: set<nat>): seq<Scored> {
    if s == [] then []
    else if s[0].matched <= covered then Unbounded(s[1..], covered)
    else [s[0]] + Unbounded(s[1..], covered + s[0].matched)
  }

  lemma {:induction false} NothingMoreToAdd(s: seq<Scored>, covered: set<nat>)
    requires forall x :: x in s ==> x.matched <= covered
    ensures Unbounded(s, covered) == []
  {
    if s != [] {
      assert s[0] in s;
      NothingMoreToAdd(s[1..], covered);
    }
  }

  lemma {:induction false} GreedyIsAPrefix(s: seq<Scored>, covered: set<nat>, room: nat, n: nat)
    requires Positions(covered, n) && forall x :: x in s ==> Positions(x.matched, n)
    ensures var all := Unbounded(s, covered);
            Greedy(s, covered, room, n) == all[..if |all| <= room then |all| else room]
  {
    if s != [] && |covered| == n {
      PositionsAreFew(covered, n);
      NothingMoreToAdd(s, covered);
    } else if s != [] && room > 0 {
      assert s[0] in s;
      if s[0].matched <= covered {
        GreedyIsAPrefix(s[1..], covered, room, n);
      } else {
        GreedyIsAPrefix(s[1..], covered + s[0].matched, room - 1, n);
      }
    }
  }

  lemma {:induction false} UnboundedCovers(s: seq<Scored>, covered: set<nat>)
    ensures covered + Covered(Unbounded(s, covered)) == covered + Covered(s)
  {
    if s != [] {
      CoveredAfterFirst(s[0], s[1..]);
      assert s == [s[0]] + s[1..];
      if s[0].matched <= covered {
        UnboundedCovers(s[1..], covered);
      } else {
        var more := covered + s[0].matched;
        UnboundedCovers(s[1..], more);
        CoveredAfterFirst(s[0], Unbounded(s[1..], more));
        assert covered + Covered(Unbounded(s, covered)) == more + Covered(Unbounded(s[1..], more));
        assert covered + Covered(s) == more + Covered(s[1..]);
      }
    }
  }

  lemma {:induction false} UnboundedAtTheEnd(s: seq<Scored>, x: Scored, covered: set<nat>)
    ensures Unbounded(s + [x], covered) == Unbounded(s, covered) + if x.matched <= covered + Covered(s) then [] else [x]
  {
    if s == [] {
      assert [] + [x] == [x] && [x][1..] == [] && covered + Covered([]) == covered;
    } else {
      assert (s + [x])[1..] == s[1..] + [x] && (s + [x])[0] == s[0];
      var more := covered + s[0].matched;
      CoveredAfterFirst(s[0], s[1..]);
      assert s == [s[0]] + s[1..];
      assert covered + Covered(s) == more + Covered(s[1..]);
      assert s[0].matched <= covered ==> more == covered;
      UnboundedAtTheEnd(s[1..], x, more);
    }
  }

  predicate ScoredRightly(s: seq<Scored>, n: nat, matches: (Chunk, nat) -> bool) {
    forall i :: 0 <= i < |s| ==> s[i].matched == MatchedBy(s[i].chunk, n, matches)
  }

  lemma {:induction false} UnboundedTakesTheAdders(s: seq<Scored>, n: nat, matches: (Chunk, nat) -> bool)
    requires ScoredRightly(s, n, matches)
    ensures ChunksOf(Unbounded(s, {})) == Adders(ChunksOf(s), n, matches)
  {
    if s != [] {
      var (rest, x) := (s[..|s| - 1], s[|s| - 1]);
      UnboundedTakesTheAdders(rest, n, matches);
      UnboundedAtTheEnd(rest, x, {});
      assert s == rest + [x] && ChunksOf(s)[..|s| - 1] == ChunksOf(rest);
      AddsIffUncovered(s, n, matches);
      assert {} + Covered(rest) == Covered(rest);
      assert ChunksOf(Unbounded(rest, {}) + [x]) == ChunksOf(Unbounded(rest, {})) + [x.chunk];
      assert Unbounded(rest, {}) + [] == Unbounded(rest, {});
    }
  }

  lemma AddsIffUncovered(s: seq<Scored>, n: nat, matches: (Chunk, nat) -> bool)
    requires ScoredRightly(s, n, matches) && s != []
    ensures AddsATerm(ChunksOf(s), |s| - 1, n, matches) <==> !(s[|s| - 1].matched <= Covered(s[..|s| - 1]))
  {
    var (last, rest) := (|s| - 1, s[..|s| - 1]);
    if !(s[last].matched <= Covered(rest)) {
      var k :| k in s[last].matched && k !in Covered(rest);
      forall j | 0 <= j < last ensures !matches(ChunksOf(s)[j], k) {
        if k in rest[j].matched {
          InCovered(rest, j, k);
        }
        assert rest[j] == s[j];
      }
      assert s[last].matched == MatchedBy(s[last].chunk, n, matches);
      assert matches(ChunksOf(s)[last], k);
    }
    if AddsATerm(ChunksOf(s), last, n, matches) {
      var k :| 0 <= k < n && matches(ChunksOf(s)[last], k) && forall j :: 0 <= j < last ==> !matches(ChunksOf(s)[j], k);
      if k in Covered(rest) {
        CoveredBySome(rest, k);
        var j :| 0 <= j < |rest| && k in rest[j].matched;
        assert s[j].matched == MatchedBy(s[j].chunk, n, matches) && rest[j] == s[j];
        assert matches(ChunksOf(s)[j], k);
      }
      assert s[last].matched == MatchedBy(s[last].chunk, n, matches);
      assert k in s[last].matched;
    }
  }

  /** With enough room the pass covers what any chunk of the ranking does. */
  lemma RoomEnough(ranked: seq<Scored>, room: nat, n: nat)
    requires forall x :: x in ranked ==> Positions(x.matched, n)
    requires |Unbounded(ranked, {})| <= room
    ensures Greedy(ranked, {}, room, n) == Unbounded(ranked, {})
    ensures |Covered(Unbounded(ranked, {}))| == n <==> AllUpTo(n) <= Covered(ranked)
  {
    var all := Unbounded(ranked, {});
    GreedyIsAPrefix(ranked, {}, room, n);
    PickedFacts(ranked, room, n, 0);
    AllPositions(n);
    UnboundedCovers(ranked, {});
    assert {} + Covered(all) == Covered(all) && {} + Covered(ranked) == Covered(ranked);
    if AllUpTo(n) <= Covered(all) {
      GreedyIsBounded(ranked, {}, room, n);
      assert Positions({} + Covered(all), n);
      assert Covered(all) == AllUpTo(n);
    }
  }

  /** With too little, the chunk that found none would have added a term. */
  lemma RoomShort(ranked: seq<Scored>, room: nat, n: nat)
    requires forall x :: x in ranked ==> Positions(x.matched, n)
    requires |Unbounded(ranked, {})| > room
    ensures |Covered(Greedy(ranked, {}, room, n))| != n
  {
    var (picked, more) := (Greedy(ranked, {}, room, n), Greedy(ranked, {}, room + 1, n));
    GreedyIsAPrefix(ranked, {}, room, n);
    GreedyIsAPrefix(ranked, {}, room + 1, n);
    assert picked == more[..room];
    PickedFacts(ranked, room, n, 0);
    PickedFacts(ranked, room + 1, n, room);
    var k :| k in more[room].matched && k !in Covered(more[..room]);
    assert Positions(more[room].matched, n);
    assert k in AllUpTo(n);
  }

  lemma CoveredIsMatched(chunks: seq<Chunk>, n: nat, matches: (Chunk, nat) -> bool, k: nat)
    requires k < n && k in Covered(Ranked(Relevant(Scores(chunks, n, matches))))
    ensures MatchedBySome(chunks, k, matches)
  {
    var ranked := Ranked(Relevant(Scores(chunks, n, matches)));
    CoveredBySome(ranked, k);
    var i :| 0 <= i < |ranked| && k in ranked[i].matched;
    SelectionComesFromChunks(chunks, n, matches, ranked[i]);
    var at :| 0 <= at < |chunks| && chunks[at] == ranked[i].chunk;
    assert matches(chunks[at], k);
  }

  lemma MatchedIsCovered(chunks: seq<Chunk>, n: nat, matches: (Chunk, nat) -> bool, k: nat)
    requires k < n && MatchedBySome(chunks, k, matches)
    ensures k in Covered(Ranked(Relevant(Scores(chunks, n, matches))))
  {
    var scored := Scores(chunks, n, matches);
    var ranked := Ranked(Relevant(scored));
    RankedFacts(Relevant(scored), 0);
    var i :| 0 <= i < |chunks| && matches(chunks[i], k);
    assert k in scored[i].matched && scored[i] in Relevant(scored);
    assert scored[i] in multiset(ranked);
    var j :| 0 <= j < |ranked| && ranked[j] == scored[i];
    InCovered(ranked, j, k);
  }

  lemma CoveredIffMatched(chunks: seq<Chunk>, n: nat, matches: (Chunk, nat) -> bool)
    ensures AllUpTo(n) <= Covered(Ranked(Relevant(Scores(chunks, n, matches)))) <==> forall k :: 0 <= k < n ==> MatchedBySome(chunks, k, matches)
  {
    hide Covered, Ranked, Relevant, Scores, MatchedBySome, AllUpTo;
    var covered := Covered(Ranked(Relevant(Scores(chunks, n, matches))));
    forall k | 0 <= k < n ensures k in covered <==> MatchedBySome(chunks, k, matches) {
      if k in covered {
        CoveredIsMatched(chunks, n, matches, k);
      }
      if MatchedBySome(chunks, k, matches) {
        MatchedIsCovered(chunks, n, matches, k);
      }
    }
    assert forall k :: k in AllUpTo(n) <==> 0 <= k < n;
  }

  /** Over the ranking of the chunks, the selection is every chunk that adds a term, in rank order, when each
      term is matched by some chunk and there is room for all that add one; otherwise it is empty. */
  lemma SelectionIsTheAdders(chunks: seq<Chunk>, n: nat, matches: (Chunk, nat) -> bool, maxResults: int) returns (ranked: seq<Scored>)
    ensures IsRanking(ranked, Scores(chunks, n, matches))
    ensures var adders := Adders(ChunksOf(ranked), n, matches);
            Selection(chunks, n, matches, maxResults) ==
              if maxResults > 0 && n > 0 && |adders| <= maxResults && (forall k :: 0 <= k < n ==> MatchedBySome(chunks, k, matches))
              then adders else []
  {
    ranked := Ranked(Relevant(Scores(chunks, n, matches)));
    RankedIsTheRanking(Scores(chunks, n, matches));
    forall x | x in ranked ensures Positions(x.matched, n) && x.matched == MatchedBy(x.chunk, n, matches) {
      SelectionComesFromChunks(chunks, n, matches, x);
    }
    assert forall i :: 0 <= i < |ranked| ==> ranked[i] in ranked;
    UnboundedTakesTheAdders(ranked, n, matches);
    CoveredIffMatched(chunks, n, matches);
    if maxResults > 0 && |Unbounded(ranked, {})| <= maxResults {
      RoomEnough(ranked, maxResults, n);
    } else if maxResults > 0 {
      RoomShort(ranked, maxResults, n);
    }
  }

  /** There is only one ranking. */
  lemma RankingIsOne(a: seq<Scored>, b: seq<Scored>, s: seq<Scored>)
    requires IsRanking(a, s) && IsRanking(b, s)
    ensures a == b
  {
    forall m: nat ensures OfSize(a, m) == OfSize(b, m) {
      assert m > 0 ==> OfSize(a, m) == OfSize(s, m);
    }
    SortedBySizes(a, b);
  }

  lemma {:induction false} SortedBySizes(a: seq<Scored>, b: seq<Scored>)
    requires Descending(a) && Descending(b) && forall m: nat :: OfSize(a, m) == OfSize(b, m)
    ensures a == b
  {
    if a == [] {
      SomeSize(b);
    } else {
      FirstOfSize(a, a[0].Size(), 0);
      SizedIn(b, a[0].Size());
      FirstOfSize(b, b[0].Size(), 0);
      SizedIn(a, b[0].Size());
      assert a[0].Size() == b[0].Size();
      assert a[0] == b[0];
      forall m: nat ensures OfSize(a[1..], m) == OfSize(b[1..], m) {
        assert OfSize(a, m) == OfSize(b, m);
        if a[0].Size() == m {
          assert OfSize(a, m)[1..] == OfSize(a[1..], m) && OfSize(b, m)[1..] == OfSize(b[1..], m);
        }
      }
      SortedBySizes(a[1..], b[1..]);
    }
  }

  lemma SomeSize(s: seq<Scored>)
    ensures s != [] ==> exists m: nat :: OfSize(s, m) != []
  {
    if s != [] {
      FirstOfSize(s, s[0].Size(), 0);
    }
  }

  lemma {:induction false} SizedIn(s: seq<Scored>, m: nat)
    requires OfSize(s, m) != []
    ensures exists i :: 0 <= i < |s| && s[i].Size() == m
  {
    if s[0].Size() != m {
      SizedIn(s[1..], m);
      var i :| 0 <= i < |s[1..]| && s[1..][i].Size() == m;
      assert s[i + 1].Size() == m;
    }
  }

  // -- the two rankings as the service computes them --------------------------------------------

  /** Which of these terms stand alone in a chunk's excerpt. */
  function StandsAlone(terms: seq<string>, word: set<char>): (Chunk, nat) -> bool {
    (c: Chunk, k: nat) => k < |terms| && WholeTerm(c.excerpt, terms[k], word)
  }

  /** Which of these terms a chunk's text contains. */
  function Mentions(terms: seq<string>): (Chunk, nat) -> bool {
    (c: Chunk, k: nat) => k < |terms| && Contains(c.text, terms[k])
  }

  /** Each chunk that adds a term adds one of its own. */
  lemma AddersAreFew(ranked: seq<Scored>, n: nat)
    requires forall x :: x in ranked ==> Positions(x.matched, n)
    ensures |Unbounded(ranked, {})| <= n
  {
    var all := Unbounded(ranked, {});
    GreedyIsAPrefix(ranked, {}, |all|, n);
    PickedFacts(ranked, |all|, n, 0);
  }

  lemma NothingCovers(s: seq<Scored>)
    requires |Covered(s)| > 0
    ensures s != []
  {
  }

  /** With room for as many excerpts as there are terms, something is returned if and only if each term is
      matched by some chunk. */
  lemma SelectedIffAllMatched(chunks: seq<Chunk>, n: nat, matches: (Chunk, nat) -> bool, maxResults: nat)
    requires 0 < n <= maxResults
    ensures Selection(chunks, n, matches, maxResults) != [] <==> forall k :: 0 <= k < n ==> MatchedBySome(chunks, k, matches)
  {
    var ranked := Ranked(Relevant(Scores(chunks, n, matches)));
    forall x | x in ranked ensures Positions(x.matched, n) {
      SelectionComesFromChunks(chunks, n, matches, x);
    }
    hide Ranked, Relevant, Scores, Greedy, Unbounded, Covered, AllUpTo, MatchedBySome, Positions;
    AddersAreFew(ranked, n);
    RoomEnough(ranked, maxResults, n);
    CoveredIffMatched(chunks, n, matches);
    var picked := Greedy(ranked, {}, maxResults, n);
    if |Covered(picked)| == n {
      NothingCovers(picked);
      assert |ChunksOf(picked)| == |picked|;
    }
  }

  lemma StandsIn(chunks: seq<Chunk>, terms: seq<string>, word: set<char>, k: nat)
    requires k < |terms|
    ensures MatchedBySome(chunks, k, StandsAlone(terms, word)) <==> exists c :: c in chunks && WholeTerm(c.excerpt, terms[k], word)
  {
    var matches := StandsAlone(terms, word);
    if c :| c in chunks && WholeTerm(c.excerpt, terms[k], word) {
      var i :| 0 <= i < |chunks| && chunks[i] == c;
      assert matches(chunks[i], k);
    }
    if i :| 0 <= i < |chunks| && matches(chunks[i], k) {
      assert chunks[i] in chunks;
    }
  }

  /** Then something is returned if and only if each term stands alone in the excerpt of some chunk. */
  lemma GroundedIffEveryTermStands(chunks: seq<Chunk>, terms: seq<string>, word: set<char>, maxResults: nat)
    requires 0 < |terms| <= maxResults
    ensures Selection(chunks, |terms|, StandsAlone(terms, word), maxResults) != [] <==>
              forall k :: 0 <= k < |terms| ==> exists c :: c in chunks && WholeTerm(c.excerpt, terms[k], word)
  {
    SelectedIffAllMatched(chunks, |terms|, StandsAlone(terms, word), maxResults);
    hide Selection, WholeTerm, MatchedBySome;
    forall k | 0 <= k < |terms|
      ensures MatchedBySome(chunks, k, StandsAlone(terms, word)) <==> exists c :: c in chunks && WholeTerm(c.excerpt, terms[k], word)
    {
      StandsIn(chunks, terms, word, k);
    }
  }

  /** Each excerpt of a grounding holds, standing alone, some term that none before it holds so. */
  lemma EachExcerptGrounds(chunks: seq<Chunk>, terms: seq<string>, word: set<char>, maxResults: int, i: nat)
    requires i < |Selection(chunks, |terms|, StandsAlone(terms, word), maxResults)|
    ensures var r := Selection(chunks, |terms|, StandsAlone(terms, word), maxResults);
            exists t :: t in terms && WholeTerm(r[i].excerpt, t, word) && forall j :: 0 <= j < i ==> !WholeTerm(r[j].excerpt, t, word)
  {
    SelectionCovers(chunks, |terms|, StandsAlone(terms, word), maxResults);
    var r := Selection(chunks, |terms|, StandsAlone(terms, word), maxResults);
    assert AddsATerm(r, i, |terms|, StandsAlone(terms, word));
    var k :| 0 <= k < |terms| && StandsAlone(terms, word)(r[i], k) && forall j :: 0 <= j < i ==> !StandsAlone(terms, word)(r[j], k);
    assert terms[k] in terms;
  }

  /** Conservatively ground chat: only when all residual terms are covered. */
  method RankChunksForConversation(chunks: seq<Chunk>, parsed: Option<Parsed>, lex: Lexicon, maxResults: int) returns (r: seq<Chunk>)
    ensures parsed.None? ==> r == []
    ensures parsed.Some? ==>
              var terms := WithoutFiller(SignificantTerms(parsed.value, lex), lex.filler);
              r == Selection(chunks, |terms|, StandsAlone(terms, lex.wordCharacters), maxResults)
  {
    if maxResults <= 0 || parsed.None? {
      return [];
    }
    var terms := WithoutFiller(SignificantTerms(parsed.value, lex), lex.filler);
    if terms == [] {
      return [];
    }
    var relevant := Ranked(Relevant(Scores(chunks, |terms|, StandsAlone(terms, lex.wordCharacters))));
    var selected := Select(relevant, maxResults, |terms|);
    r := if |Covered(selected)| != |terms| then [] else ChunksOf(selected);
  }

  /** The loop over the ranking. */
  method Select(relevant: seq<Scored>, room: nat, n: nat) returns (selected: seq<Scored>)
    ensures selected == Greedy(relevant, {}, room, n)
  {
    selected := [];
    var covered: set<nat>, k := {}, 0;
    while k < |relevant| && |covered| != n && |selected| != room
      invariant k <= |relevant| && |selected| <= room && covered == Covered(selected)
      invariant Greedy(relevant, {}, room, n) == selected + Greedy(relevant[k..], covered, room - |selected|, n)
    {
      if !(relevant[k].matched <= covered) {
        assert (selected + [relevant[k]])[..|selected|] == selected;
        selected := selected + [relevant[k]];
        covered := covered + relevant[k].matched;
      }
      k := k + 1;
    }
    assert selected + [] == selected;
  }

  /** `rank_chunks_by_term_relevance`: the chunks that contain any significant term. */
  function RankedByTerms(chunks: seq<Chunk>, parsed: Parsed, lex: Lexicon): seq<Chunk> {
    var terms := SignificantTerms(parsed, lex);
    if terms == [] then []
    else ChunksOf(Ranked(Relevant(Scores(chunks, |terms|, Mentions(terms)))))
  }

  /** A chunk is ranked exactly when it contains some significant term, and one that contains more
      of them never comes after one that contains fewer. */
  lemma RankedByTermsFacts(chunks: seq<Chunk>, parsed: Parsed, lex: Lexicon)
    ensures var terms, r := SignificantTerms(parsed, lex), RankedByTerms(chunks, parsed, lex);
            && (forall c :: c in r <==> c in chunks && exists t :: t in terms && Contains(c.text, t))
            && (forall i, j :: 0 <= i < j < |r| ==> |MatchedBy(r[i], |terms|, Mentions(terms))| >= |MatchedBy(r[j], |terms|, Mentions(terms))|)
  {
    var terms, r := SignificantTerms(parsed, lex), RankedByTerms(chunks, parsed, lex);
    var matches := Mentions(terms);
    if terms != [] {
      var scored := Scores(chunks, |terms|, matches);
      var ranked := Ranked(Relevant(scored));
      RankedFacts(Relevant(scored), 0);
      forall x | x in ranked ensures x.chunk in chunks && x.matched == MatchedBy(x.chunk, |terms|, matches) {
        SelectionComesFromChunks(chunks, |terms|, matches, x);
      }
      forall c ensures c in r <==> c in chunks && exists t :: t in terms && Contains(c.text, t) {
        RankedIffContains(chunks, terms, c);
      }
    }
  }

  lemma RankedIsMentioned(chunks: seq<Chunk>, terms: seq<string>, c: Chunk)
    requires c in ChunksOf(Ranked(Relevant(Scores(chunks, |terms|, Mentions(terms)))))
    ensures c in chunks && exists t :: t in terms && Contains(c.text, t)
  {
    var scored := Scores(chunks, |terms|, Mentions(terms));
    var ranked := Ranked(Relevant(scored));
    RankedFacts(Relevant(scored), 0);
    var i :| 0 <= i < |ranked| && ranked[i].chunk == c;
    assert ranked[i] in multiset(ranked);
    assert ranked[i] in Relevant(scored);
    SelectionComesFromChunks(chunks, |terms|, Mentions(terms), ranked[i]);
    var k :| k in ranked[i].matched;
    assert terms[k] in terms;
  }

  lemma MentionedIsRanked(chunks: seq<Chunk>, terms: seq<string>, c: Chunk, t: string)
    requires c in chunks && t in terms && Contains(c.text, t)
    ensures c in ChunksOf(Ranked(Relevant(Scores(chunks, |terms|, Mentions(terms)))))
  {
    var scored := Scores(chunks, |terms|, Mentions(terms));
    var ranked := Ranked(Relevant(scored));
    RankedFacts(Relevant(scored), 0);
    var k: nat :| k < |terms| && terms[k] == t;
    var i :| 0 <= i < |chunks| && chunks[i] == c;
    assert k in scored[i].matched;
    assert scored[i] in Relevant(scored);
    assert scored[i] in multiset(ranked);
    var j :| 0 <= j < |ranked| && ranked[j] == scored[i];
    assert ChunksOf(ranked)[j] == c;
  }

  lemma RankedIffContains(chunks: seq<Chunk>, terms: seq<string>, c: Chunk)
    ensures c in ChunksOf(Ranked(Relevant(Scores(chunks, |terms|, Mentions(terms))))) <==>
            c in chunks && exists t :: t in terms && Contains(c.text, t)
  {
    if c in ChunksOf(Ranked(Relevant(Scores(chunks, |terms|, Mentions(terms))))) {
      RankedIsMentioned(chunks, terms, c);
    }
    if t :| c in chunks && t in terms && Contains(c.text, t) {
      MentionedIsRanked(chunks, terms, c, t);
    }
  }
}
