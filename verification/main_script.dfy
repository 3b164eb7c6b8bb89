/**
 The stand-alone script `main.py`: it keeps its scores and course names in two
 parallel lists, computes the statistics with the built-in max, min, sum and
 len directly over the score list, and repeats the letter-grade elif chain
 inline instead of calling the business module.
 */
module MainScript {
  import opened Wrappers
  import opened Business
  import Text

  /** `ders_notlari`. */
  const Notes: seq<int> := [75, 85, 95, 45, 80]

  /** `ders_adlari`, index for index with `Notes`. */
  const CourseNames: seq<string> :=
    ["Matematik", "Fizik", "Veri Tabanı", "Türk Dili Edebiyatı", "Web Programlama"]

  /** What the script reports: the statistics, the average and the (status, letter) pair. */
  datatype Report = Report(
    highest: int,
    lowest: int,
    total: int,
    count: nat,
    average: real,
    status: Option<string>,
    letter: Option<string>)

  const MessageTail: string := " notu girilmiştir."

  /** `course + " dersinden " + score + " notu girilmiştir."` */
  function Compose(course: string, score: string): string {
    course + " dersinden " + score + MessageTail
  }

  /** The announcement built from the entry at `index` of both lists. */
  function EntryMessage(names: seq<string>, notes: seq<int>, index: nat): string
    requires index < |names| && index < |notes|
  {
    Compose(names[index], Text.IntToString(notes[index]))
  }

  /**
   The announcement opens with the course name and " dersinden ", closes with
   " notu girilmiştir.", and what lies between reads back as the score.
   */
  lemma EntryMessageReadsBack(names: seq<string>, notes: seq<int>, index: nat)
    requires index < |names| && index < |notes|
    ensures var r := EntryMessage(names, notes, index);
            var head := names[index] + " dersinden ";
            && |head| < |r| - |MessageTail|
            && r[..|head|] == head
            && r[|r| - |MessageTail|..] == MessageTail
            && var score := r[|head|..|r| - |MessageTail|];
            && (score[0] == '-' ==> Text.AllDigits(score[1..]))
            && (score[0] != '-' ==> Text.AllDigits(score))
            && Text.ParseInt(score) == notes[index]
  {
    var r := EntryMessage(names, notes, index);
    var head := names[index] + " dersinden ";
    var score := Text.IntToString(notes[index]);
    assert r == head + score + MessageTail;
    assert r[..|head|] == head;
    assert r[|r| - |MessageTail|..] == MessageTail;
    assert r[|head|..|r| - |MessageTail|] == score;
    Text.IntToStringRoundTrip(notes[index]);
  }

  /** The two parallel lists seen as the business module's lesson records. */
  function Zip(names: seq<string>, notes: seq<int>): (r: seq<Lesson>)
    requires |names| == |notes|
    ensures |r| == |notes|
    ensures forall i :: 0 <= i < |r| ==> r[i] == Lesson(names[i], notes[i])
  {
    seq(|notes|, i requires 0 <= i < |notes| => Lesson(names[i], notes[i]))
  }

  /**
   The built-in max, min, sum and len over the score list, folded into one pass
   from the front: each result agrees with the reference definition over all of
   `notes`.
   */
  method Statistics(notes: seq<int>) returns (highest: int, lowest: int, total: int, count: nat)
    requires |notes| > 0
    ensures highest == Max(notes) && lowest == Min(notes)
    ensures total == Sum(notes) && count == |notes|
    ensures forall i :: 0 <= i < |notes| ==> lowest <= notes[i] <= highest
  {
    highest, lowest, total, count := notes[0], notes[0], notes[0], 1;
    assert notes[..1] == [notes[0]];
    assert [notes[0]][..0] == [];
    while count < |notes|
      invariant 1 <= count <= |notes|
      invariant highest == Max(notes[..count])
      invariant lowest == Min(notes[..count])
      invariant total == Sum(notes[..count])
    {
      var x := notes[count];
      assert notes[..count + 1][..count] == notes[..count];
      if x > highest {
        highest := x;
      }
      if x < lowest {
        lowest := x;
      }
      total := total + x;
      count := count + 1;
    }
    assert notes[..count] == notes;
  }

  /**
   The inline elif chain of the script: `harf_notu` and `ders_durumu` start as
   `None` and keep that value when no band matches. It agrees with the business
   module's classifier on every average.
   */
  method InlineClassify(average: real) returns (status: Option<string>, letter: Option<string>)
    ensures (status, letter) == GradeInfo(average)
  {
    letter := None;
    status := None;
    if average >= 90.0 && average <= 100.0 {
      letter := Some("AA");
      status := Some("Pekiyi");
    } else if 85.0 <= average <= 89.0 {
      letter := Some("BA");
      status := Some("İyi- Pekiyi");
    } else if 80.0 <= average <= 84.0 {
      letter := Some("BB");
      status := Some("İyi");
    } else if 60.0 <= average <= 64.0 {
      letter := Some("DD");
      status := Some("Geçer");
    } else if 0.0 <= average <= 59.0 {
      letter := Some("FF");
      status := Some("Kaldı");
    } else if 65.0 <= average <= 79.0 {
      letter := Some("CC");
      status := Some("Orta");
    }
  }

  /** The whole script over its hard-coded score list. */
  method RunScript() returns (rep: Report)
    ensures rep == Report(95, 45, 380, 5, 76.0, Some("Orta"), Some("CC"))
  {
    var highest, lowest, total, count := Statistics(Notes);
    NotesStatistics();
    var average := total as real / count as real;
    var status, letter := InlineClassify(average);
    rep := Report(highest, lowest, total, count, average, status, letter);
  }

  /** The statistics of `ders_notlari`. */
  lemma NotesStatistics()
    ensures Max(Notes) == 95 && Min(Notes) == 45
    ensures Sum(Notes) == 380 && |Notes| == 5
  {
    assert Notes[..4] == [75, 85, 95, 45];
    assert Notes[..4][..3] == [75, 85, 95];
    assert Notes[..4][..3][..2] == [75, 85];
    assert Notes[..4][..3][..2][..1] == [75];
    assert [75][..0] == [];
    assert Sum([75, 85]) == 160;
    assert Sum([75, 85, 95]) == 255;
    assert Sum([75, 85, 95, 45]) == 300;
  }

  /** `str(85)`. */
  lemma ScoreText()
    ensures Text.IntToString(Notes[1]) == "85"
  {
  }

  /** The message is built from the second entry of both lists. */
  lemma ScriptMessage()
    ensures EntryMessage(CourseNames, Notes, 1) == "Fizik dersinden 85 notu girilmiştir."
  {
    ScoreText();
    assert CourseNames[1] == "Fizik";
  }

  /**
   The script's inline statistics over a score list are the business module's
   statistics over the same scores paired with their course names.
   */
  lemma {:induction false} ScriptMatchesBusiness(names: seq<string>, notes: seq<int>)
    requires |names| == |notes| > 0
    ensures HighestScore(Zip(names, notes)) == Max(notes)
    ensures LowestScore(Zip(names, notes)) == Min(notes)
    ensures Average(Zip(names, notes)) == Sum(notes) as real / |notes| as real
  {
    var lessons := Zip(names, notes);
    assert Scores(lessons) == notes;
  }

  /** The script's average, 380 / 5 = 76, is graded ("Orta", "CC"). */
  lemma ScriptGrade()
    ensures GradeInfo(380 as real / 5 as real) == (Some("Orta"), Some("CC"))
  {
  }
}
