/**
 Score statistics and the letter-grade classifier of the student-grade module
 (`business.py`): the highest, lowest and mean score of a lesson list, and the
 mapping of an average to a (status, letter) pair through fixed integer bands.
 */
module Business {
  import opened Wrappers

  /** One `{'ders': ..., 'puan': ...}` record of the lesson list. */
  datatype Lesson = Lesson(course: string, score: int)

  /** The `puanlar` list the statistics build by appending each lesson's score in turn. */
  function Scores(lessons: seq<Lesson>): (r: seq<int>)
    ensures |r| == |lessons|
    ensures forall i :: 0 <= i < |lessons| ==> r[i] == lessons[i].score
  {
    if lessons == [] then []
    else Scores(lessons[..|lessons| - 1]) + [lessons[|lessons| - 1].score]
  }

  // ---------------------------------------------------------------------------
  // Python's built-in max, min and sum over a list of ints, folded from the
  // front of the list one element at a time.
  // ---------------------------------------------------------------------------

  function Max(s: seq<int>): (m: int)
    requires |s| > 0
    ensures m in s
    ensures forall i :: 0 <= i < |s| ==> s[i] <= m
  {
    if |s| == 1 then s[0]
    else
      var m' := Max(s[..|s| - 1]);
      if s[|s| - 1] > m' then s[|s| - 1] else m'
  }

  function Min(s: seq<int>): (m: int)
    requires |s| > 0
    ensures m in s
    ensures forall i :: 0 <= i < |s| ==> m <= s[i]
  {
    if |s| == 1 then s[0]
    else
      var m' := Min(s[..|s| - 1]);
      if s[|s| - 1] < m' then s[|s| - 1] else m'
  }

  /** Python's `sum`: the elements added up, left to right. */
  function Sum(s: seq<int>): int
  {
    if s == [] then 0 else Sum(s[..|s| - 1]) + s[|s| - 1]
  }

  /** Summing a list in two pieces adds the pieces' sums, wherever the list is cut. */
  lemma {:induction false} SumConcat(a: seq<int>, b: seq<int>)
    ensures Sum(a + b) == Sum(a) + Sum(b)
    decreases |b|
  {
    if b == [] {
      assert a + b == a;
    } else {
      var b' := b[..|b| - 1];
      assert (a + b)[..|a + b| - 1] == a + b';
      SumConcat(a, b');
    }
  }

  /** The same sum folded from the front, as the elements come in a `for` loop. */
  lemma SumFromFront(s: seq<int>)
    requires |s| > 0
    ensures Sum(s) == s[0] + Sum(s[1..])
  {
    assert s == [s[0]] + s[1..];
    SumConcat([s[0]], s[1..]);
    assert [s[0]][..0] == [];
  }

  /** Every element bounded above by `hi` bounds the sum by `|s| * hi`. */
  lemma {:induction false} SumAtMost(s: seq<int>, hi: int)
    requires forall i :: 0 <= i < |s| ==> s[i] <= hi
    ensures Sum(s) <= |s| * hi
    decreases |s|
  {
    if s != [] {
      SumAtMost(s[..|s| - 1], hi);
    }
  }

  /** Every element bounded below by `lo` bounds the sum by `|s| * lo`. */
  lemma {:induction false} SumAtLeast(s: seq<int>, lo: int)
    requires forall i :: 0 <= i < |s| ==> lo <= s[i]
    ensures |s| * lo <= Sum(s)
    decreases |s|
  {
    if s != [] {
      SumAtLeast(s[..|s| - 1], lo);
    }
  }

  // ---------------------------------------------------------------------------
  // en_yuksek_not, en_dusuk_not, ortalama_hesaplama
  // ---------------------------------------------------------------------------

  /** `en_yuksek_not`: the largest score of the list (Python's `max` fails on an empty list). */
  function HighestScore(lessons: seq<Lesson>): (r: int)
    requires |lessons| > 0
    ensures exists i :: 0 <= i < |lessons| && lessons[i].score == r
    ensures forall i :: 0 <= i < |lessons| ==> lessons[i].score <= r
  {
    var m := Max(Scores(lessons));
    assert m in Scores(lessons);
    m
  }

  /** `en_dusuk_not`: the smallest score of the list (Python's `min` fails on an empty list). */
  function LowestScore(lessons: seq<Lesson>): (r: int)
    requires |lessons| > 0
    ensures exists i :: 0 <= i < |lessons| && lessons[i].score == r
    ensures forall i :: 0 <= i < |lessons| ==> r <= lessons[i].score
  {
    var m := Min(Scores(lessons));
    assert m in Scores(lessons);
    m
  }

  /**
   `ortalama_hesaplama`: the sum of the scores divided by their count. An empty
   list divides by zero in the source, so callers must pass at least one lesson.
   */
  function Average(lessons: seq<Lesson>): (r: real)
    requires |lessons| > 0
    ensures r * (|lessons| as real) == Sum(Scores(lessons)) as real
  {
    Sum(Scores(lessons)) as real / |lessons| as real
  }

  /** A total between `n * lo` and `n * hi` has its mean between `lo` and `hi`. */
  lemma MeanBetween(total: int, n: int, lo: int, hi: int)
    requires n > 0
    requires n * lo <= total <= n * hi
    ensures lo as real <= total as real / n as real <= hi as real
  {
    var mean := total as real / n as real;
    assert mean * n as real == total as real;
    assert (n * lo) as real == lo as real * n as real;
    assert (n * hi) as real == hi as real * n as real;
  }

  /** The mean of a non-empty list lies between its lowest and highest score. */
  lemma {:induction false} AverageBetweenExtremes(lessons: seq<Lesson>)
    requires |lessons| > 0
    ensures LowestScore(lessons) as real <= Average(lessons) <= HighestScore(lessons) as real
  {
    var s := Scores(lessons);
    var lo, hi := LowestScore(lessons), HighestScore(lessons);
    SumAtLeast(s, lo);
    SumAtMost(s, hi);
    MeanBetween(Sum(s), |s|, lo, hi);
  }

  // ---------------------------------------------------------------------------
  // harf_notu_ve_ders_durumu_bilgileri
  // ---------------------------------------------------------------------------

  /** The six letter grades and their bands: closed integer intervals of averages. */
  datatype Letter = AA | BA | BB | CC | DD | FF {

    function Lower(): int {
      match this
      case AA => 90
      case BA => 85
      case BB => 80
      case CC => 65
      case DD => 60
      case FF => 0
    }

    function Upper(): int {
      match this
      case AA => 100
      case BA => 89
      case BB => 84
      case CC => 79
      case DD => 64
      case FF => 59
    }

    /** The letter as the classifier spells it. */
    function Code(): string {
      match this
      case AA => "AA"
      case BA => "BA"
      case BB => "BB"
      case CC => "CC"
      case DD => "DD"
      case FF => "FF"
    }

    /** The course status (`ders_durumu`) that goes with the letter. */
    function Status(): string {
      match this
      case AA => "Pekiyi"
      case BA => "İyi- Pekiyi"
      case BB => "İyi"
      case CC => "Orta"
      case DD => "Geçer"
      case FF => "Kaldı"
    }
  }

  /** `average` lies in the closed band of letter `l`. */
  predicate InBand(l: Letter, average: real) {
    l.Lower() as real <= average <= l.Upper() as real
  }

  /** The pair the classifier returns for a graded average: status first, then letter. */
  function Pair(l: Letter): (Option<string>, Option<string>) {
    (Some(l.Status()), Some(l.Code()))
  }

  /** No two bands share an average. */
  lemma BandsDisjoint(l1: Letter, l2: Letter, average: real)
    requires InBand(l1, average) && InBand(l2, average)
    ensures l1 == l2
  {
  }

  /** The open gaps between consecutive bands inside [0, 100]. */
  predicate InGap(average: real) {
    || (59.0 < average < 60.0)
    || (64.0 < average < 65.0)
    || (79.0 < average < 80.0)
    || (84.0 < average < 85.0)
    || (89.0 < average < 90.0)
  }

  /**
   `harf_notu_ve_ders_durumu_bilgileri`: both results start as `None` and the
   elif chain, in the source's order AA, BA, BB, DD, FF, CC, sets them when the
   average lies in a band; the pair is returned as (status, letter).
   */
  function GradeInfo(average: real): (r: (Option<string>, Option<string>))
    ensures r.0.None? <==> r.1.None?
    ensures forall l :: r == Pair(l) <==> InBand(l, average)
    ensures r == (None, None) <==> forall l :: !InBand(l, average)
    ensures r == (None, None) <==> average < 0.0 || 100.0 < average || InGap(average)
  {
    if average >= 90.0 && average <= 100.0 then
      assert InBand(AA, average); (Some("Pekiyi"), Some("AA"))
    else if 85.0 <= average <= 89.0 then
      assert InBand(BA, average); (Some("İyi- Pekiyi"), Some("BA"))
    else if 80.0 <= average <= 84.0 then
      assert InBand(BB, average); (Some("İyi"), Some("BB"))
    else if 60.0 <= average <= 64.0 then
      assert InBand(DD, average); (Some("Geçer"), Some("DD"))
    else if 0.0 <= average <= 59.0 then
      assert InBand(FF, average); (Some("Kaldı"), Some("FF"))
    else if 65.0 <= average <= 79.0 then
      assert InBand(CC, average); (Some("Orta"), Some("CC"))
    else
      (None, None)
  }

  /** Every whole-number average from 0 to 100 receives a grade. */
  lemma IntegerAveragesGraded(n: int)
    requires 0 <= n <= 100
    ensures GradeInfo(n as real) != (None, None)
  {
  }

  /** The averages strictly inside a gap fall through to the "no grade" branch. */
  lemma GapAveragesUngraded()
    ensures GradeInfo(59.5) == (None, None)
    ensures GradeInfo(64.5) == (None, None)
    ensures GradeInfo(79.5) == (None, None)
    ensures GradeInfo(84.5) == (None, None)
    ensures GradeInfo(89.5) == (None, None)
  {
  }

  /** The letter-by-letter results, one per band. */
  lemma GradeTable()
    ensures GradeInfo(95.0) == (Some("Pekiyi"), Some("AA"))
    ensures GradeInfo(87.0) == (Some("İyi- Pekiyi"), Some("BA"))
    ensures GradeInfo(82.0) == (Some("İyi"), Some("BB"))
    ensures GradeInfo(70.0) == (Some("Orta"), Some("CC"))
    ensures GradeInfo(62.0) == (Some("Geçer"), Some("DD"))
    ensures GradeInfo(30.0) == (Some("Kaldı"), Some("FF"))
  {
  }

  // ---------------------------------------------------------------------------
  // Independence from the order of the elif branches
  // ---------------------------------------------------------------------------

  /** The order in which the source's elif chain tests the bands. */
  const SourceOrder: seq<Letter> := [AA, BA, BB, DD, FF, CC]

  lemma SourceOrderCoversAll()
    ensures forall l: Letter :: l in SourceOrder
  {
    forall l: Letter ensures l in SourceOrder {
      match l
      case AA => assert SourceOrder[0] == l;
      case BA => assert SourceOrder[1] == l;
      case BB => assert SourceOrder[2] == l;
      case DD => assert SourceOrder[3] == l;
      case FF => assert SourceOrder[4] == l;
      case CC => assert SourceOrder[5] == l;
    }
  }

  /** An if/elif chain that tests the bands in the given order and stops at the first match. */
  function FirstBand(order: seq<Letter>, average: real): (r: Option<Letter>)
    ensures r.Some? ==> r.value in order && InBand(r.value, average)
    ensures r.None? <==> forall i :: 0 <= i < |order| ==> !InBand(order[i], average)
  {
    if order == [] then None
    else if InBand(order[0], average) then Some(order[0])
    else FirstBand(order[1..], average)
  }

  /** The classifier is the source-order chain over the band table. */
  lemma GradeInfoIsFirstBand(average: real)
    ensures GradeInfo(average) ==
      match FirstBand(SourceOrder, average)
      case Some(l) => Pair(l)
      case None => (None, None)
  {
    var r := FirstBand(SourceOrder, average);
    if r.None? {
      SourceOrderCoversAll();
      forall l ensures !InBand(l, average) {
        assert l in SourceOrder;
        var i :| 0 <= i < |SourceOrder| && SourceOrder[i] == l;
      }
    }
  }

  /** Any chain that tests every band, in any order, gives the same answer as the source's. */
  lemma {:induction false} OrderIrrelevant(order: seq<Letter>, average: real)
    requires forall l: Letter :: l in order
    ensures FirstBand(order, average) == FirstBand(SourceOrder, average)
  {
    var a, b := FirstBand(order, average), FirstBand(SourceOrder, average);
    SourceOrderCoversAll();
    if b.Some? {
      assert b.value in order;
      var i :| 0 <= i < |order| && order[i] == b.value;
      assert a.Some?;
      BandsDisjoint(a.value, b.value, average);
    } else {
      forall i | 0 <= i < |order|
        ensures !InBand(order[i], average)
      {
        assert order[i] in SourceOrder;
        var j :| 0 <= j < |SourceOrder| && SourceOrder[j] == order[i];
      }
    }
  }
}
