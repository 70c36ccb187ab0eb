/** Scoring, ordering and bounding of the history entries for one query (the `filter_map`,
    `sort_by` and `truncate` steps of `get_matches` in src/lib.rs). The fuzzy matcher is a
    foreign library: it is a parameter `fuzzy(content, query)` about which nothing is assumed. */
module Ranking {
  import opened Base
  import opened Types

  /** An entry paired with its match score. */
  datatype ScoredEntry = ScoredEntry(score: int, entry: ClipboardEntry)

  /** The score of one entry: 0 for every entry on an empty query, the matcher's verdict otherwise. */
  function Score(query: string, fuzzy: (string, string) -> Option<int>, e: ClipboardEntry): Option<int>
  {
    if query == "" then Some(0) else fuzzy(e.content, query)
  }

  /** The matching entries with their scores, in history order; non-matches are dropped. */
  function ScoreAll(entries: seq<ClipboardEntry>, query: string, fuzzy: (string, string) -> Option<int>): seq<ScoredEntry>
  {
    if entries == [] then []
    else
      var last := entries[|entries| - 1];
      ScoreAll(entries[..|entries| - 1], query, fuzzy) +
        match Score(query, fuzzy, last)
        case None => []
        case Some(s) => [ScoredEntry(s, last)]
  }

  /** Exactly the entries the matcher accepts are kept, each with the score it was given. */
  lemma {:induction false} ScoreAllKeepsMatches(entries: seq<ClipboardEntry>, query: string, fuzzy: (string, string) -> Option<int>)
    ensures forall x :: x in ScoreAll(entries, query, fuzzy) ==>
      x.entry in entries && Score(query, fuzzy, x.entry) == Some(x.score)
    ensures forall e :: e in entries && Score(query, fuzzy, e).Some? ==>
      ScoredEntry(Score(query, fuzzy, e).value, e) in ScoreAll(entries, query, fuzzy)
  {
    if entries != [] {
      var init := entries[..|entries| - 1];
      ScoreAllKeepsMatches(init, query, fuzzy);
      assert entries == init + [entries[|entries| - 1]];
    }
  }

  /** Each accepted entry is kept once per occurrence in the history, and nothing else is kept:
      duplicate history entries are neither merged nor multiplied. */
  lemma {:induction false} ScoreAllCounts(entries: seq<ClipboardEntry>, query: string, fuzzy: (string, string) -> Option<int>)
    ensures forall x ::
      multiset(ScoreAll(entries, query, fuzzy))[x] ==
        (if Score(query, fuzzy, x.entry) == Some(x.score) then multiset(entries)[x.entry] else 0)
  {
    if entries != [] {
      var init := entries[..|entries| - 1];
      var last := entries[|entries| - 1];
      ScoreAllCounts(init, query, fuzzy);
      assert entries == init + [last];
      assert multiset(entries) == multiset(init) + multiset{last};
    }
  }

  /** Scoring distributes over concatenation, so the kept matches keep their history order:
      every match from an earlier part of the history comes before every match from a later part. */
  lemma {:induction false} ScoreAllAppend(a: seq<ClipboardEntry>, b: seq<ClipboardEntry>, query: string, fuzzy: (string, string) -> Option<int>)
    ensures ScoreAll(a + b, query, fuzzy) == ScoreAll(a, query, fuzzy) + ScoreAll(b, query, fuzzy)
    decreases |b|
  {
    if b == [] {
      assert a + b == a;
    } else {
      var init := b[..|b| - 1];
      ScoreAllAppend(a, init, query, fuzzy);
      assert (a + b)[..|a + b| - 1] == a + init;
      assert (a + b)[|a + b| - 1] == b[|b| - 1];
    }
  }

  /** A single entry is kept, with its score, exactly when the scorer accepts it. */
  lemma ScoreAllSingle(e: ClipboardEntry, query: string, fuzzy: (string, string) -> Option<int>)
    ensures ScoreAll([e], query, fuzzy) == (if Score(query, fuzzy, e).Some? then [ScoredEntry(Score(query, fuzzy, e).value, e)] else [])
  {
    assert [e][..0] == [];
  }

  /** Every entry with score 0, in order. */
  function Unscored(entries: seq<ClipboardEntry>): (r: seq<ScoredEntry>)
    ensures |r| == |entries|
    ensures forall i :: 0 <= i < |entries| ==> r[i] == ScoredEntry(0, entries[i])
  {
    if entries == [] then [] else Unscored(entries[..|entries| - 1]) + [ScoredEntry(0, entries[|entries| - 1])]
  }

  /** On an empty query every entry is kept, in order, with score 0. */
  lemma {:induction false} ScoreAllEmptyQuery(entries: seq<ClipboardEntry>, fuzzy: (string, string) -> Option<int>)
    ensures ScoreAll(entries, "", fuzzy) == Unscored(entries)
  {
    if entries != [] {
      ScoreAllEmptyQuery(entries[..|entries| - 1], fuzzy);
    }
  }

  /** `a` comes strictly before `b`: a higher score, or the same score and a higher index. */
  predicate Precedes(a: ScoredEntry, b: ScoredEntry)
  {
    a.score > b.score || (a.score == b.score && a.entry.index > b.entry.index)
  }

  /** Ordered by score descending, then index descending. */
  predicate SortedDesc(s: seq<ScoredEntry>)
  {
    forall i, j :: 0 <= i < j < |s| ==> !Precedes(s[j], s[i])
  }

  /** Same score and same index: the comparator of `get_matches` calls such pairs equal. */
  predicate SameKey(a: ScoredEntry, b: ScoredEntry)
  {
    a.score == b.score && a.entry.index == b.entry.index
  }

  /** "Does not come strictly before" is transitive. */
  lemma NotPrecedesTrans(a: ScoredEntry, b: ScoredEntry, c: ScoredEntry)
    requires !Precedes(a, b) && !Precedes(b, c)
    ensures !Precedes(a, c)
  {
  }

  /** A sorted sequence stays sorted behind a head that nothing in it comes before. */
  lemma SortedCons(h: ScoredEntry, t: seq<ScoredEntry>)
    requires SortedDesc(t)
    requires forall j :: 0 <= j < |t| ==> !Precedes(t[j], h)
    ensures SortedDesc([h] + t)
  {
    var r := [h] + t;
    forall i, j | 0 <= i < j < |r|
      ensures !Precedes(r[j], r[i])
    {
      assert r[j] == t[j - 1];
      if i > 0 {
        assert r[i] == t[i - 1];
      }
    }
  }

  /** Insert `x` into a sorted sequence, before every element that does not strictly precede it. */
  function Insert(x: ScoredEntry, s: seq<ScoredEntry>): (r: seq<ScoredEntry>)
    requires SortedDesc(s)
    ensures SortedDesc(r)
    ensures multiset(r) == multiset(s) + multiset{x}
  {
    if s == [] then [x]
    else if Precedes(s[0], x) then
      var rest := Insert(x, s[1..]);
      InsertBehindHead(x, s, rest);
      [s[0]] + rest
    else
      InsertAtHead(x, s);
      [x] + s
  }

  lemma InsertBehindHead(x: ScoredEntry, s: seq<ScoredEntry>, rest: seq<ScoredEntry>)
    requires s != [] && SortedDesc(s) && Precedes(s[0], x)
    requires SortedDesc(rest) && multiset(rest) == multiset(s[1..]) + multiset{x}
    ensures SortedDesc([s[0]] + rest) && multiset([s[0]] + rest) == multiset(s) + multiset{x}
  {
    assert s == [s[0]] + s[1..];
    forall j | 0 <= j < |rest|
      ensures !Precedes(rest[j], s[0])
    {
      assert rest[j] in multiset(rest);
      if rest[j] != x {
        assert rest[j] in s[1..];
        var k :| 0 <= k < |s[1..]| && s[1..][k] == rest[j];
        assert s[k + 1] == rest[j];
      }
    }
    SortedCons(s[0], rest);
  }

  lemma InsertAtHead(x: ScoredEntry, s: seq<ScoredEntry>)
    requires s != [] && SortedDesc(s) && !Precedes(s[0], x)
    ensures SortedDesc([x] + s)
  {
    forall j | 0 <= j < |s|
      ensures !Precedes(s[j], x)
    {
      if j > 0 {
        NotPrecedesTrans(s[j], s[0], x);
      }
    }
    SortedCons(x, s);
  }

  /** `matches.sort_by(...)` with the comparator of `get_matches`: the standard library's sort is
      stable, and so is this insertion sort. */
  function SortMatches(s: seq<ScoredEntry>): (r: seq<ScoredEntry>)
    ensures SortedDesc(r)
    ensures multiset(r) == multiset(s)
    ensures |r| == |s|
  {
    if s == [] then []
    else
      assert s == [s[0]] + s[1..];
      var r := Insert(s[0], SortMatches(s[1..]));
      assert |r| == |multiset(r)|;
      r
  }

  /** The elements of `s` whose key is that of `k`, in order. */
  function WithKey(s: seq<ScoredEntry>, k: ScoredEntry): (r: seq<ScoredEntry>)
    ensures |r| <= |s|
  {
    if s == [] then []
    else (if SameKey(s[0], k) then [s[0]] else []) + WithKey(s[1..], k)
  }

  lemma WithKeyCons(h: ScoredEntry, t: seq<ScoredEntry>, k: ScoredEntry)
    ensures WithKey([h] + t, k) == (if SameKey(h, k) then [h] else []) + WithKey(t, k)
  {
    assert ([h] + t)[1..] == t;
  }

  lemma {:induction false} WithKeyInsert(x: ScoredEntry, s: seq<ScoredEntry>, k: ScoredEntry)
    requires SortedDesc(s)
    ensures WithKey(Insert(x, s), k) == (if SameKey(x, k) then [x] else []) + WithKey(s, k)
  {
    if s == [] {
      WithKeyCons(x, [], k);
    } else if Precedes(s[0], x) {
      var rest := Insert(x, s[1..]);
      WithKeyInsert(x, s[1..], k);
      WithKeyCons(s[0], rest, k);
      WithKeyCons(s[0], s[1..], k);
      assert [s[0]] + s[1..] == s;
      assert !SameKey(s[0], k) || !SameKey(x, k);
    } else {
      WithKeyCons(x, s, k);
    }
  }

  /** Stability: entries the comparator calls equal keep their history order. */
  lemma {:induction false} SortMatchesStable(s: seq<ScoredEntry>, k: ScoredEntry)
    ensures WithKey(SortMatches(s), k) == WithKey(s, k)
  {
    if s != [] {
      SortMatchesStable(s[1..], k);
      WithKeyInsert(s[0], SortMatches(s[1..]), k);
    }
  }

  /** What `get_matches` keeps for the entry list: the matches, sorted, cut to `maxEntries`. */
  function Ranked(entries: seq<ClipboardEntry>, query: string, fuzzy: (string, string) -> Option<int>, maxEntries: nat): seq<ScoredEntry>
  {
    var sorted := SortMatches(ScoreAll(entries, query, fuzzy));
    sorted[..Min(maxEntries, |sorted|)]
  }

  /** Cutting a sequence splits its multiset. */
  lemma MultisetSplit(s: seq<ScoredEntry>, k: nat)
    requires k <= |s|
    ensures multiset(s) - multiset(s[..k]) == multiset(s[k..])
    ensures multiset(s[..k]) <= multiset(s)
  {
    assert s == s[..k] + s[k..];
  }

  /** A prefix of a sorted sequence holds its best elements: nothing left out precedes anything kept. */
  lemma SortedPrefixIsBest(sorted: seq<ScoredEntry>, k: nat)
    requires SortedDesc(sorted) && k <= |sorted|
    ensures forall x, y :: x in sorted[..k] && y in multiset(sorted) - multiset(sorted[..k]) ==> !Precedes(y, x)
  {
    MultisetSplit(sorted, k);
    forall x, y | x in sorted[..k] && y in multiset(sorted[k..])
      ensures !Precedes(y, x)
    {
      var i :| 0 <= i < k && sorted[..k][i] == x;
      var j :| 0 <= j < |sorted[k..]| && sorted[k..][j] == y;
      assert sorted[i] == x && sorted[k + j] == y;
    }
  }

  /** Sorting comes before truncation: at most `maxEntries` matches are kept, they are ordered,
      and every match left out ranks no higher than every match kept. */
  lemma RankedIsBest(entries: seq<ClipboardEntry>, query: string, fuzzy: (string, string) -> Option<int>, maxEntries: nat)
    ensures var all := ScoreAll(entries, query, fuzzy);
      var r := Ranked(entries, query, fuzzy, maxEntries);
      |r| == Min(maxEntries, |all|) &&
      SortedDesc(r) &&
      multiset(r) <= multiset(all) &&
      forall x, y :: x in r && y in multiset(all) - multiset(r) ==> !Precedes(y, x)
  {
    var all := ScoreAll(entries, query, fuzzy);
    var sorted := SortMatches(all);
    var k := Min(maxEntries, |sorted|);
    SortedPrefixIsBest(sorted, k);
    MultisetSplit(sorted, k);
  }

  /** Two kept matches with the same score are ordered by index, higher first. */
  lemma SortedTieBreak(r: seq<ScoredEntry>, i: nat, j: nat)
    requires SortedDesc(r) && i < |r| && j < |r|
    requires r[i].score == r[j].score && r[i].entry.index > r[j].entry.index
    ensures i < j
  {
  }

  /** Equal scores are ordered by index, higher first; in particular two entries with identical
      content, which the matcher scores alike, appear with the higher index first. */
  lemma RankedTieBreak(entries: seq<ClipboardEntry>, query: string, fuzzy: (string, string) -> Option<int>, maxEntries: nat, i: nat, j: nat)
    requires var r := Ranked(entries, query, fuzzy, maxEntries);
      i < |r| && j < |r| && r[i].entry.content == r[j].entry.content && r[i].entry.index > r[j].entry.index
    ensures i < j
  {
    var all := ScoreAll(entries, query, fuzzy);
    var r := Ranked(entries, query, fuzzy, maxEntries);
    RankedIsBest(entries, query, fuzzy, maxEntries);
    ScoreAllKeepsMatches(entries, query, fuzzy);
    assert r[i] in multiset(all) && r[j] in multiset(all);
    assert r[i].score == r[j].score by {
      assert Score(query, fuzzy, r[i].entry) == Some(r[i].score);
      assert Score(query, fuzzy, r[j].entry) == Some(r[j].score);
    }
    SortedTieBreak(r, i, j);
  }

  lemma UnscoredMembers(entries: seq<ClipboardEntry>, r: seq<ScoredEntry>)
    requires multiset(r) <= multiset(Unscored(entries))
    ensures forall i :: 0 <= i < |r| ==> r[i].score == 0 && r[i].entry in entries
  {
    forall i | 0 <= i < |r|
      ensures r[i].score == 0 && r[i].entry in entries
    {
      assert r[i] in multiset(r);
      var u := Unscored(entries);
      assert r[i] in u;
      var k :| 0 <= k < |u| && u[k] == r[i];
    }
  }

  lemma ZeroScoresByIndex(r: seq<ScoredEntry>)
    requires SortedDesc(r)
    requires forall i :: 0 <= i < |r| ==> r[i].score == 0
    ensures forall i, j :: 0 <= i < j < |r| ==> r[i].entry.index >= r[j].entry.index
  {
    forall i, j | 0 <= i < j < |r|
      ensures r[i].entry.index >= r[j].entry.index
    {
      assert !Precedes(r[j], r[i]);
    }
  }

  /** On an empty query the kept entries are the history itself, by descending index, up to
      `maxEntries`; when the bound is not reached every entry is there. */
  lemma RankedEmptyQuery(entries: seq<ClipboardEntry>, fuzzy: (string, string) -> Option<int>, maxEntries: nat)
    ensures var r := Ranked(entries, "", fuzzy, maxEntries);
      |r| == Min(maxEntries, |entries|) &&
      (forall i :: 0 <= i < |r| ==> r[i].score == 0 && r[i].entry in entries) &&
      (forall i, j :: 0 <= i < j < |r| ==> r[i].entry.index >= r[j].entry.index) &&
      (|entries| <= maxEntries ==> multiset(r) == multiset(Unscored(entries)))
  {
    var r := Ranked(entries, "", fuzzy, maxEntries);
    ScoreAllEmptyQuery(entries, fuzzy);
    RankedIsBest(entries, "", fuzzy, maxEntries);
    UnscoredMembers(entries, r);
    ZeroScoresByIndex(r);
    if |entries| <= maxEntries {
      var sorted := SortMatches(Unscored(entries));
      assert Min(maxEntries, |sorted|) == |sorted|;
      assert r == sorted[..|sorted|] == sorted;
    }
  }
}
