/** Concrete searches, proved as lemmas, that the properties of `Ranking` and `Plugin` predict. */
module Scenarios {
  import opened Base
  import opened Text
  import opened Types
  import opened Actions
  import opened Ranking
  import opened Plugin

  lemma InsertFront(x: ScoredEntry, s: seq<ScoredEntry>)
    requires s != [] && SortedDesc(s) && !Precedes(s[0], x)
    ensures Insert(x, s) == [x] + s
  {
  }

  lemma InsertPast(x: ScoredEntry, s: seq<ScoredEntry>)
    requires s != [] && SortedDesc(s) && Precedes(s[0], x)
    ensures Insert(x, s) == [s[0]] + Insert(x, s[1..])
  {
  }

  lemma SortStep(s: seq<ScoredEntry>)
    requires s != []
    ensures SortMatches(s) == Insert(s[0], SortMatches(s[1..]))
  {
  }

  lemma {:induction false} SortThreeScores(b: ScoredEntry, c: ScoredEntry, d: ScoredEntry)
    requires b.score == 1 && c.score == 9 && d.score == 3
    ensures SortMatches([b, c, d]) == [c, d, b]
  {
    assert [b, c, d][1..] == [c, d] && [c, d][1..] == [d] && [d][1..] == [];
    SortStep([d]);
    assert SortMatches([d]) == [d];
    SortStep([c, d]);
    InsertFront(c, [d]);
    SortStep([b, c, d]);
    InsertPast(b, [c, d]);
    InsertPast(b, [d]);
    assert Insert(b, []) == [b];
  }

  lemma {:induction false} SortFourScores(all: seq<ScoredEntry>)
    requires |all| == 4 && all[0].score == 5 && all[1].score == 1 && all[2].score == 9 && all[3].score == 3
    ensures SortMatches(all) == [all[2], all[0], all[3], all[1]]
  {
    var a, b, c, d := all[0], all[1], all[2], all[3];
    assert all[1..] == [b, c, d];
    SortThreeScores(b, c, d);
    SortStep(all);
    InsertPast(a, [c, d, b]);
    assert [c, d, b][1..] == [d, b];
    InsertFront(a, [d, b]);
  }

  function SampleEntries(): seq<ClipboardEntry>
  {
    [ClipboardEntry(0, "a"), ClipboardEntry(1, "b"), ClipboardEntry(2, "c"), ClipboardEntry(3, "d")]
  }

  lemma ScoreSample(fuzzy: (string, string) -> Option<int>)
    requires fuzzy("a", "q") == Some(5) && fuzzy("b", "q") == Some(1)
    requires fuzzy("c", "q") == Some(9) && fuzzy("d", "q") == Some(3)
    ensures var es := SampleEntries();
      ScoreAll(es, "q", fuzzy) == [ScoredEntry(5, es[0]), ScoredEntry(1, es[1]), ScoredEntry(9, es[2]), ScoredEntry(3, es[3])]
  {
    var es := SampleEntries();
    assert es[..1][..0] == [] && es[..2][..1] == es[..1];
    assert es[..3][..2] == es[..2] && es[..4] == es;
    assert ScoreAll(es[..1], "q", fuzzy) == [ScoredEntry(5, es[0])];
    assert ScoreAll(es[..2], "q", fuzzy) == [ScoredEntry(5, es[0]), ScoredEntry(1, es[1])];
    assert ScoreAll(es[..3], "q", fuzzy) == [ScoredEntry(5, es[0]), ScoredEntry(1, es[1]), ScoredEntry(9, es[2])];
  }

  /** Scores [5, 1, 9, 3] with a bound of 2 keep the entries scored 9 and 5, whatever their
      order in the history. */
  lemma SortThenTruncate(fuzzy: (string, string) -> Option<int>)
    requires fuzzy("a", "q") == Some(5) && fuzzy("b", "q") == Some(1)
    requires fuzzy("c", "q") == Some(9) && fuzzy("d", "q") == Some(3)
    ensures var es := SampleEntries();
      Ranked(es, "q", fuzzy, 2) == [ScoredEntry(9, es[2]), ScoredEntry(5, es[0])]
  {
    var es := SampleEntries();
    ScoreSample(fuzzy);
    SortFourScores([ScoredEntry(5, es[0]), ScoredEntry(1, es[1]), ScoredEntry(9, es[2]), ScoredEntry(3, es[3])]);
  }

  function SampleHistory(): seq<ClipboardEntry>
  {
    [ClipboardEntry(3, "foo"), ClipboardEntry(1, "bar"), ClipboardEntry(7, "foobar")]
  }

  lemma FormatSample()
    ensures FormatLines(SampleHistory()) == ["3\tfoo", "1\tbar", "7\tfoobar"]
  {
    var es := SampleHistory();
    assert DigitChar(3) == '3' && DigitChar(1) == '1' && DigitChar(7) == '7';
    assert FormatLine(es[0]) == "3\tfoo";
    assert FormatLine(es[1]) == "1\tbar";
    assert FormatLine(es[2]) == "7\tfoobar";
  }

  lemma JoinSample()
    ensures JoinLines(["3\tfoo", "1\tbar", "7\tfoobar"]) == "3\tfoo\n1\tbar\n7\tfoobar"
  {
    var ls := ["3\tfoo", "1\tbar", "7\tfoobar"];
    assert ls[1..] == ["1\tbar", "7\tfoobar"] && ls[1..][1..] == ["7\tfoobar"];
    assert JoinLines(ls[1..]) == "1\tbar\n7\tfoobar";
  }

  /** The sample history parses to its three entries, in order. */
  lemma ParseSample()
    ensures ParseLines(Lines("3\tfoo\n1\tbar\n7\tfoobar")) == Ok(SampleHistory())
  {
    FormatSample();
    JoinSample();
    ParseListing(SampleHistory());
  }

  lemma ScoreHistory(fuzzy: (string, string) -> Option<int>)
    requires fuzzy("foo", "foo").Some? && fuzzy("foobar", "foo").Some? && fuzzy("bar", "foo").None?
    ensures var es := SampleHistory();
      ScoreAll(es, "foo", fuzzy) ==
        [ScoredEntry(fuzzy("foo", "foo").value, es[0]), ScoredEntry(fuzzy("foobar", "foo").value, es[2])]
  {
    var es := SampleHistory();
    var foo := ScoredEntry(fuzzy("foo", "foo").value, es[0]);
    assert es[..1][..0] == [] && es[..2][..1] == es[..1] && es[..3] == es;
    assert ScoreAll(es[..1], "foo", fuzzy) == [foo];
    assert ScoreAll(es[..2], "foo", fuzzy) == [foo];
  }

  lemma {:induction false} SortTwo(x: ScoredEntry, y: ScoredEntry)
    requires x.score <= y.score && x.entry.index < y.entry.index
    ensures SortMatches([x, y]) == [y, x]
  {
    assert [x, y][1..] == [y];
    assert SortMatches([y]) == [y];
  }

  lemma RankSample(fuzzy: (string, string) -> Option<int>)
    requires fuzzy("foo", "foo").Some? && fuzzy("foobar", "foo").Some? && fuzzy("bar", "foo").None?
    requires fuzzy("foo", "foo").value <= fuzzy("foobar", "foo").value
    ensures var es := SampleHistory();
      Ranked(es, "foo", fuzzy, 10) ==
        [ScoredEntry(fuzzy("foobar", "foo").value, es[2]), ScoredEntry(fuzzy("foo", "foo").value, es[0])]
  {
    var es := SampleHistory();
    ScoreHistory(fuzzy);
    SortTwo(ScoredEntry(fuzzy("foo", "foo").value, es[0]), ScoredEntry(fuzzy("foobar", "foo").value, es[2]));
  }

  lemma ComposeSample(fuzzy: (string, string) -> Option<int>)
    requires fuzzy("foo", "foo").Some? && fuzzy("foobar", "foo").Some? && fuzzy("bar", "foo").None?
    requires fuzzy("foo", "foo").value <= fuzzy("foobar", "foo").value
    ensures var es := SampleHistory();
      Composed("foo", State(Ok(es), Config(10, true)), fuzzy) ==
        [EntryMatch(es[2], true), EntryMatch(es[0], true), WipeMatch(true)]
  {
    var es := SampleHistory();
    RankSample(fuzzy);
    var ranked := Ranked(es, "foo", fuzzy, 10);
    assert EntryMatches(ranked, true) == [EntryMatch(es[2], true), EntryMatch(es[0], true)];
  }

  /** History "3\tfoo\n1\tbar\n7\tfoobar" searched for "foo", where the matcher accepts "foo" and
      "foobar" (the latter scoring at least as high) and rejects "bar": the results are entry 7,
      entry 3, then the wipe result. */
  lemma EndToEnd(fuzzy: (string, string) -> Option<int>)
    requires fuzzy("foo", "foo").Some? && fuzzy("foobar", "foo").Some? && fuzzy("bar", "foo").None?
    requires fuzzy("foo", "foo").value <= fuzzy("foobar", "foo").value
    ensures var history := ParseLines(Lines("3\tfoo\n1\tbar\n7\tfoobar"));
      var c := Composed("foo", State(history, Config(10, true)), fuzzy);
      history.Ok? &&
      |c| == 3 &&
      c[0].id == Some(7) && c[0].title == "foobar" &&
      c[1].id == Some(3) && c[1].title == "foo" &&
      c[2] == WipeMatch(true)
  {
    ParseSample();
    ComposeSample(fuzzy);
  }
}
