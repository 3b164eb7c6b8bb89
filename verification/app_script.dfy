/**
 The driver `app.py`: six lesson records fed through the business module's
 statistics and classifier.
 */
module AppScript {
  import opened Wrappers
  import opened Business

  /** `dersler`, with Fizik listed twice. */
  const Lessons: seq<Lesson> := [
    Lesson("Matematik", 75),
    Lesson("Fizik", 85),
    Lesson("Veri Tabanı", 95),
    Lesson("Fizik", 85),
    Lesson("Türk Dili Edebiyatı", 45),
    Lesson("Web Programlama", 80)]

  lemma AppScores()
    ensures Scores(Lessons) == [75, 85, 95, 85, 45, 80]
  {
  }

  lemma AppTotal()
    ensures Sum([75, 85, 95, 85, 45, 80]) == 465
  {
    var s := [75, 85, 95, 85, 45, 80];
    assert s[..5] == [75, 85, 95, 85, 45];
    assert s[..5][..4] == [75, 85, 95, 85];
    assert s[..5][..4][..3] == [75, 85, 95];
    assert s[..5][..4][..3][..2] == [75, 85];
    assert s[..5][..4][..3][..2][..1] == [75];
    assert [75][..0] == [];
    assert Sum([75, 85]) == 160;
    assert Sum([75, 85, 95]) == 255;
    assert Sum([75, 85, 95, 85]) == 340;
    assert Sum([75, 85, 95, 85, 45]) == 385;
  }

  /** 465 / 6 = 77.5 lies inside the CC band, so the driver reports ("Orta", "CC"). */
  lemma AppScenario()
    ensures HighestScore(Lessons) == 95 && LowestScore(Lessons) == 45
    ensures Average(Lessons) == 77.5
    ensures GradeInfo(Average(Lessons)) == (Some("Orta"), Some("CC"))
  {
    AppScores();
    AppTotal();
    var hi := HighestScore(Lessons);
    assert hi >= Lessons[2].score;
    var lo := LowestScore(Lessons);
    assert lo <= Lessons[4].score;
    assert Average(Lessons) * 6.0 == 465.0;
  }
}
