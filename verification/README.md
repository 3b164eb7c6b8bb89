# Student grade statistics and letter-grade classifier

A Dafny model of the student-grade module of the `canliKodlamaProje` course
project. The model has five parts:

- `business.py` takes a list of `{'ders', 'puan'}` lesson records (course name and score).
  It computes the highest score (`en_yuksek_not`), the lowest score (`en_dusuk_not`)
  and the mean (`ortalama_hesaplama`).
- `harf_notu_ve_ders_durumu_bilgileri` maps an average to a pair
  (`ders_durumu`, `harf_notu`), meaning (course status, letter grade). It does this
  through six closed integer bands. When no band matches, the pair is `(None, None)`.
- `main.py` is a stand-alone script. It computes the same statistics with the
  built-in `max`, `min`, `sum` and `len` over the list `[75, 85, 95, 45, 80]`. It
  repeats the elif chain inline, and builds a message from the second entry of its
  two parallel lists.
- `app.py` is a driver that feeds six lesson records through the business
  functions. It is modelled as one scenario.

Files:

- `wrappers.dfy`: `Option`, which stands in for Python's `None`.
- `business.dfy` (module `Business`): lesson records, the statistics, the band
  table (`Letter` with its bounds, code and status), the classifier in the source's
  branch order, and the proof that the branch order does not matter.
- `main_script.dfy` (module `MainScript`): the script's one-pass statistics, its
  inline classifier, the whole script as one method, and its agreement with `Business`.
- `text.dfy` (module `Text`): Python's `str` applied to an `int`, with the parse
  round trip.
- `app_script.dfy` (module `AppScript`): the driver's scenario, 465 / 6 = 77.5 → CC.

Modelling choices:

- Scores are unbounded `int`.
- The average is an exact `real`: the sum divided by the count. Python uses
  floating-point division.
- Python's `max`, `min` and `sum` are the recursive functions `Max`, `Min` and
  `Sum`. The bands of the letter table are an independent reference definition. The
  classifier is proved against that table.

The bands are closed integer intervals, and there are gaps between them:
(59, 60), (64, 65), (79, 80), (84, 85) and (89, 90). A non-integer average inside a
gap, such as 89.5, gets no grade. `GradeInfo`'s contract says exactly which averages
are ungraded: below 0, above 100, or inside a gap. Every whole number from 0 to 100
gets a grade.

## Model

| member | source | states |
|---|---|---|
| Business.Scores | python_canli_kodlama/Python-101-Canli-Kodlama-Projesi-main/canliKodlamaProje/business.py:3-5 | the projected score list has one entry per lesson, and entry i is lesson i's score |
| Business.Max | python_canli_kodlama/Python-101-Canli-Kodlama-Projesi-main/canliKodlamaProje/business.py:6 | the built-in max of a non-empty list is an element of it and is at least every element |
| Business.Min | python_canli_kodlama/Python-101-Canli-Kodlama-Projesi-main/canliKodlamaProje/business.py:16 | the built-in min of a non-empty list is an element of it and is at most every element |
| Business.HighestScore | python_canli_kodlama/Python-101-Canli-Kodlama-Projesi-main/canliKodlamaProje/business.py:2-8 | the highest score is the score of some lesson and no lesson scores more; the list must be non-empty |
| Business.LowestScore | python_canli_kodlama/Python-101-Canli-Kodlama-Projesi-main/canliKodlamaProje/business.py:11-17 | the lowest score is the score of some lesson and no lesson scores less; the list must be non-empty |
| Business.Average | python_canli_kodlama/Python-101-Canli-Kodlama-Projesi-main/canliKodlamaProje/business.py:19-28 | the mean multiplied by the number of lessons gives back the sum of the scores; an empty list is excluded because it divides by zero |
| Business.SumConcat | python_canli_kodlama/Python-101-Canli-Kodlama-Projesi-main/canliKodlamaProje/business.py:25 | Python's sum over a list cut anywhere into two pieces is the sum of the pieces' sums |
| Business.SumFromFront | python_canli_kodlama/Python-101-Canli-Kodlama-Projesi-main/canliKodlamaProje/business.py:25 | the sum of a non-empty list is its first element plus the sum of the rest |
| Business.SumAtMost | python_canli_kodlama/Python-101-Canli-Kodlama-Projesi-main/canliKodlamaProje/business.py:25 | if every score is at most hi, the sum is at most count × hi |
| Business.SumAtLeast | python_canli_kodlama/Python-101-Canli-Kodlama-Projesi-main/canliKodlamaProje/business.py:25 | if every score is at least lo, the sum is at least count × lo |
| Business.MeanBetween | python_canli_kodlama/Python-101-Canli-Kodlama-Projesi-main/canliKodlamaProje/business.py:25-27 | a total between n × lo and n × hi, divided by n, lies between lo and hi |
| Business.AverageBetweenExtremes | python_canli_kodlama/Python-101-Canli-Kodlama-Projesi-main/canliKodlamaProje/business.py:2-28 | for a non-empty list, lowest ≤ average ≤ highest |
| Business.GradeInfo | python_canli_kodlama/Python-101-Canli-Kodlama-Projesi-main/canliKodlamaProje/business.py:38-63 | status and letter are both None or both set; the result is a letter's (status, letter) pair exactly when the average is in that letter's band; the result is (None, None) exactly when no band holds the average, which means below 0, above 100, or strictly inside one of the five gaps |
| Business.BandsDisjoint | python_canli_kodlama/Python-101-Canli-Kodlama-Projesi-main/canliKodlamaProje/business.py:42-59 | no average lies in two bands |
| Business.IntegerAveragesGraded | python_canli_kodlama/Python-101-Canli-Kodlama-Projesi-main/canliKodlamaProje/business.py:42-59 | every whole-number average from 0 to 100 gets a grade |
| Business.GapAveragesUngraded | python_canli_kodlama/Python-101-Canli-Kodlama-Projesi-main/canliKodlamaProje/business.py:60-63 | 59.5, 64.5, 79.5, 84.5 and 89.5 fall through to (None, None) |
| Business.GradeTable | python_canli_kodlama/Python-101-Canli-Kodlama-Projesi-main/canliKodlamaProje/business.py:42-59 | one sample average per band gets its (status, letter) pair, with the status first |
| Business.SourceOrderCoversAll | python_canli_kodlama/Python-101-Canli-Kodlama-Projesi-main/canliKodlamaProje/business.py:42-59 | the elif chain tests each of the six letters |
| Business.FirstBand | python_canli_kodlama/Python-101-Canli-Kodlama-Projesi-main/canliKodlamaProje/business.py:42-62 | a chain testing bands in a given order returns a tested letter whose band holds the average, and returns nothing exactly when no tested band holds it |
| Business.GradeInfoIsFirstBand | python_canli_kodlama/Python-101-Canli-Kodlama-Projesi-main/canliKodlamaProje/business.py:42-63 | the classifier is the chain over the band table in the source order AA, BA, BB, DD, FF, CC |
| Business.OrderIrrelevant | python_canli_kodlama/Python-101-Canli-Kodlama-Projesi-main/canliKodlamaProje/business.py:42-59 | any order that tests all six bands gives the same result as the source order, so testing DD and FF before CC changes nothing |
| Text.NatToString | python_canli_kodlama/Python-101-Canli-Kodlama-Projesi-main/canliKodlamaProje/main.py:21 | str of a natural number is a non-empty string of decimal digits, with a leading zero only for 0 |
| Text.IntToString | python_canli_kodlama/Python-101-Canli-Kodlama-Projesi-main/canliKodlamaProje/main.py:21 | str of an int starts with '-' exactly when it is negative; the rest is decimal digits with no leading zero, except for 0 itself |
| Text.ParseNatToString | python_canli_kodlama/Python-101-Canli-Kodlama-Projesi-main/canliKodlamaProje/main.py:21 | reading the digits of a natural number back gives the number |
| Text.IntToStringRoundTrip | python_canli_kodlama/Python-101-Canli-Kodlama-Projesi-main/canliKodlamaProje/main.py:21 | reading str of any int back gives the same int |
| MainScript.Statistics | python_canli_kodlama/Python-101-Canli-Kodlama-Projesi-main/canliKodlamaProje/main.py:26-36 | the one-pass max, min, sum and len agree with the reference Max, Min, Sum and the length, and every score lies between the min and the max |
| MainScript.InlineClassify | python_canli_kodlama/Python-101-Canli-Kodlama-Projesi-main/canliKodlamaProje/main.py:41-63 | the inline chain, with both results starting as None, gives the business classifier's pair for every average |
| MainScript.RunScript | python_canli_kodlama/Python-101-Canli-Kodlama-Projesi-main/canliKodlamaProje/main.py:18-63 | the script reports max 95, min 45, sum 380, count 5, average 76 and ("Orta", "CC") |
| MainScript.NotesStatistics | python_canli_kodlama/Python-101-Canli-Kodlama-Projesi-main/canliKodlamaProje/main.py:18-37 | for [75, 85, 95, 45, 80] the max is 95, the min 45, the sum 380 and the count 5 |
| MainScript.EntryMessageReadsBack | python_canli_kodlama/Python-101-Canli-Kodlama-Projesi-main/canliKodlamaProje/main.py:21 | for any index into both lists, the message starts with the course name and " dersinden ", ends with " notu girilmiştir.", and the text between reads back as the score |
| MainScript.ScriptMessage | python_canli_kodlama/Python-101-Canli-Kodlama-Projesi-main/canliKodlamaProje/main.py:18-21 | the message uses index 1 of both lists: "Fizik dersinden 85 notu girilmiştir." |
| MainScript.ScriptMatchesBusiness | python_canli_kodlama/Python-101-Canli-Kodlama-Projesi-main/canliKodlamaProje/main.py:26-38 | the script's inline max, min and mean equal the business module's functions applied to the same scores paired with their course names |
| MainScript.ScriptGrade | python_canli_kodlama/Python-101-Canli-Kodlama-Projesi-main/canliKodlamaProje/main.py:38-61 | 380 / 5 = 76 is graded ("Orta", "CC") |
| AppScript.AppScenario | python_canli_kodlama/Python101CanliKodlama_3/app.py:16-34 | for the driver's six lessons: highest 95, lowest 45, mean 465 / 6 = 77.5, graded ("Orta", "CC") |

## Left out

- `istatistik_yazdirma` (business.py:31-32) only prints to the console, so it is not modelled.
- All `print` calls are left out, including the warning in the classifier's fall-through branch. The model keeps only the `(None, None)` result.
- The `ogrenci` dictionary and its print (main.py:4-13) and the unused `import math` are not modelled: they compute nothing.
- The final formatted output line of the script (main.py:66-67) only prints, so it is not modelled.
- Business.Average: computes an exact rational mean, not an IEEE double. The bands use integer thresholds, so realistic grade lists get the same classification either way.
- Business.HighestScore, Business.LowestScore and Business.Average: on an empty list the source raises an exception (`ValueError` or `ZeroDivisionError`). The model states this as a precondition and does not model the exception.
- Business.Lesson: scores are integers. Python would also accept floats or other comparable values.
- Business.Max and Business.Min: return the extreme value, not a particular occurrence of it. For integers the two are the same.
- The repository's separate flashcard project (`Bitirme Projesi/`: SM-2 review scheduling, storage, authentication) is a different program and is not modelled.
- AppScript.AppScenario: app.py imports the `business` module from its own directory, which is not part of this model; it is assumed to match canliKodlamaProje/business.py, whose functions the scenario runs.
