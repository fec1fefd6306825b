/** The report on particular shapes of input: the documented examples and untimed tests. */
module ReportScenarios {
  import opened Optional
  import opened SlowTests

  /** `s` read backwards. */
  function Reversed(s: seq<TestRecord>): (r: seq<TestRecord>)
    ensures |r| == |s|
    ensures forall k :: 0 <= k < |s| ==> r[k] == s[|s| - 1 - k]
  {
    if s == [] then [] else Reversed(s[1..]) + [s[0]]
  }

  /** A record faster than everything already sorted goes to the end. */
  lemma {:induction false} InsertFastest(x: TestRecord, s: seq<TestRecord>)
    requires forall i :: 0 <= i < |s| ==> s[i].Time > x.Time
    ensures Insert(x, s) == s + [x]
  {
    if s != [] {
      InsertFastest(x, s[1..]);
      assert s == [s[0]] + s[1..];
    }
  }

  /** Test cases whose times strictly increase in document order are reported in reverse. */
  lemma {:induction false} IncreasingTimesSortReversed(s: seq<TestRecord>)
    requires forall i, j :: 0 <= i < j < |s| ==> s[i].Time < s[j].Time
    ensures SortByTimeDescending(s) == Reversed(s)
  {
    if s != [] {
      var tail := s[1..];
      forall i, j | 0 <= i < j < |tail| ensures tail[i].Time < tail[j].Time {
        assert tail[i] == s[i + 1] && tail[j] == s[j + 1];
      }
      IncreasingTimesSortReversed(tail);
      var sortedTail := SortByTimeDescending(tail);
      assert sortedTail == Reversed(tail);
      assert SortByTimeDescending(s) == Insert(s[0], sortedTail);
      forall i | 0 <= i < |sortedTail| ensures sortedTail[i].Time > s[0].Time {
        assert sortedTail[i] == s[|s| - 1 - i];
      }
      InsertFastest(s[0], sortedTail);
      calc {
        SortByTimeDescending(s);
        Insert(s[0], sortedTail);
        sortedTail + [s[0]];
        Reversed(s);
      }
    }
  }

  /** Three test cases timed 1.0, 5.25 and 0.1 are reported as B, A, C. */
  lemma ThreeTestCases()
    ensures SlowestTests([TestCaseElement(Some("A"), Some(1.0)),
                          TestCaseElement(Some("B"), Some(5.25)),
                          TestCaseElement(Some("C"), Some(0.1))])
         == [TestRecord(Some("B"), 5.25), TestRecord(Some("A"), 1.0), TestRecord(Some("C"), 0.1)]
  {
    var a, b, c := TestRecord(Some("A"), 1.0), TestRecord(Some("B"), 5.25), TestRecord(Some("C"), 0.1);
    var elements := [TestCaseElement(Some("A"), Some(1.0)),
                     TestCaseElement(Some("B"), Some(5.25)),
                     TestCaseElement(Some("C"), Some(0.1))];
    var records := Extract(elements);
    assert records[0] == a && records[1] == b && records[2] == c;
    assert records == [a, b, c];
    SortThree(a, b, c);
  }

  /** The sort of the three records of that example, step by step. */
  lemma SortThree(a: TestRecord, b: TestRecord, c: TestRecord)
    requires b.Time > a.Time > c.Time
    ensures SortByTimeDescending([a, b, c]) == [b, a, c]
  {
    assert [a, b, c][1..] == [b, c] && [b, c][1..] == [c] && [c][1..] == [];
    var sortedC := SortByTimeDescending([c]);
    assert sortedC == [c];
    var sortedBC := SortByTimeDescending([b, c]);
    assert sortedBC == Insert(b, [c]) == [b, c];
    assert Insert(a, [c]) == [a, c];
    assert [b, c][1..] == [c];
    assert Insert(a, [b, c]) == [b] + Insert(a, [c]);
  }

  /** Twelve test cases timed 1 to 12 in document order: the report holds times 12 down to 3. */
  lemma TwelveIncreasingTimes(names: seq<string>)
    requires |names| == 12
    ensures var r := SlowestTests(seq(12, i requires 0 <= i < 12 => TestCaseElement(Some(names[i]), Some((i + 1) as real))));
            |r| == 10 && forall k :: 0 <= k < 10 ==> r[k] == TestRecord(Some(names[11 - k]), (12 - k) as real)
  {
    var elements := seq(12, i requires 0 <= i < 12 => TestCaseElement(Some(names[i]), Some((i + 1) as real)));
    var records := Extract(elements);
    assert forall i :: 0 <= i < 12 ==> records[i] == TestRecord(Some(names[i]), (i + 1) as real);
    IncreasingTimesSortReversed(records);
    var reversed := SortByTimeDescending(records);
    assert SlowestTests(elements) == reversed[..10];
    assert forall k :: 0 <= k < 10 ==> reversed[k] == records[11 - k];
  }

  /**
   * When no test case has a negative time, an untimed test case (Time 0) in the report
   * is followed only by other zero-time records.
   */
  lemma UntimedTestsComeLast(elements: seq<TestCaseElement>, k: nat)
    requires forall i :: 0 <= i < |elements| && elements[i].time != None ==> elements[i].time.value >= 0.0
    requires k < |SlowestTests(elements)| && SlowestTests(elements)[k].Time == 0.0
    ensures forall j :: k <= j < |SlowestTests(elements)| ==> SlowestTests(elements)[j].Time == 0.0
  {
    var r := SlowestTests(elements);
    var records := Extract(elements);
    forall j | k <= j < |r| ensures r[j].Time == 0.0 {
      assert r[j] in multiset(r);
      assert r[j] in records;
    }
  }
}
