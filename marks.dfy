/**
  Marks of one student: the accepted range of a mark, the total and the mean
  of the recorded marks, and the letter grade derived from the mean.

  A student's marks are a map from subject name to mark. Marks are exact
  reals, so the mean is exact arithmetic rather than floating point.
 */
module Marks {

  /** The least and the greatest mark that `add_marks` accepts (both inclusive). */
  const MinMark: real := 0.0
  const MaxMark: real := 100.0

  /** The range check of `add_marks`: 0 <= marks <= 100. */
  predicate InRange(marks: real): (ok: bool)
    ensures ok <==> 0.0 <= marks && marks <= 100.0
  {
    MinMark <= marks <= MaxMark
  }

  /** Every recorded mark lies in the accepted range. */
  ghost predicate AllInRange(subjects: map<string, real>)
  {
    forall s :: s in subjects ==> InRange(subjects[s])
  }

  /** The sum of the marks recorded under `keys`, taken in no particular order. */
  ghost function SumOver(subjects: map<string, real>, keys: set<string>): real
    requires keys <= subjects.Keys
    decreases keys
  {
    if keys == {} then 0.0
    else
      var k :| k in keys;
      subjects[k] + SumOver(subjects, keys - {k})
  }

  /**
    The sum of all recorded marks: `sum(self.subjects.values())`. No marks sum
    to 0, and n marks in [0, 100] sum to between 0 and n * 100.
   */
  ghost function Sum(subjects: map<string, real>): (total: real)
    ensures subjects == map[] ==> total == 0.0
    ensures AllInRange(subjects) ==> 0.0 <= total <= (|subjects| as real) * 100.0
  {
    if AllInRange(subjects) then
      SumOverBounds(subjects, subjects.Keys, MinMark, MaxMark);
      TimesIsProduct(|subjects.Keys|, MinMark);
      TimesIsProduct(|subjects.Keys|, MaxMark);
      assert |subjects.Keys| == |subjects|;
      SumOver(subjects, subjects.Keys)
    else
      SumOver(subjects, subjects.Keys)
  }

  /** Any key may be taken out first: the sum does not depend on the order of the values. */
  lemma {:induction false} SumOverRemove(subjects: map<string, real>, keys: set<string>, k: string)
    requires keys <= subjects.Keys && k in keys
    ensures SumOver(subjects, keys) == subjects[k] + SumOver(subjects, keys - {k})
    decreases keys
  {
    var j :| j in keys && SumOver(subjects, keys) == subjects[j] + SumOver(subjects, keys - {j});
    if j != k {
      SumOverRemove(subjects, keys - {j}, k);
      SumOverRemove(subjects, keys - {k}, j);
      assert keys - {j} - {k} == keys - {k} - {j};
    }
  }

  /** The sum over `keys` only depends on the marks recorded under `keys`. */
  lemma {:induction false} SumOverAgree(m1: map<string, real>, m2: map<string, real>, keys: set<string>)
    requires keys <= m1.Keys && keys <= m2.Keys
    requires forall k :: k in keys ==> m1[k] == m2[k]
    ensures SumOver(m1, keys) == SumOver(m2, keys)
    decreases keys
  {
    if keys != {} {
      var k :| k in keys;
      SumOverRemove(m1, keys, k);
      SumOverRemove(m2, keys, k);
      SumOverAgree(m1, m2, keys - {k});
    }
  }

  /** `n` copies of `x` added up. */
  function Times(n: nat, x: real): real
  {
    if n == 0 then 0.0 else x + Times(n - 1, x)
  }

  /** Adding up `n` copies of `x` is multiplying `x` by `n`. */
  lemma {:induction false} TimesIsProduct(n: nat, x: real)
    ensures Times(n, x) == (n as real) * x
  {
    if n > 0 {
      TimesIsProduct(n - 1, x);
      assert (n as real) * x == ((n - 1) as real) * x + x;
    }
  }

  /** If every mark under `keys` lies in [lo, hi], the sum lies between |keys| copies of lo and of hi. */
  lemma {:induction false} SumOverBounds(subjects: map<string, real>, keys: set<string>, lo: real, hi: real)
    requires keys <= subjects.Keys
    requires forall k :: k in keys ==> lo <= subjects[k] <= hi
    ensures Times(|keys|, lo) <= SumOver(subjects, keys) <= Times(|keys|, hi)
    decreases keys
  {
    if keys != {} {
      var k :| k in keys;
      var rest := keys - {k};
      SumOverRemove(subjects, keys, k);
      SumOverBounds(subjects, rest, lo, hi);
      assert |keys| == |rest| + 1;
    }
  }

  /** Recording `marks` under `subject` changes the sum by the new mark minus the one it replaces. */
  lemma SumAfterRecord(subjects: map<string, real>, subject: string, marks: real)
    ensures Sum(subjects[subject := marks])
         == Sum(subjects) - (if subject in subjects then subjects[subject] else 0.0) + marks
  {
    var updated := subjects[subject := marks];
    var rest := subjects.Keys - {subject};
    assert updated.Keys - {subject} == rest;
    SumOverRemove(updated, updated.Keys, subject);
    SumOverAgree(updated, subjects, rest);
    if subject in subjects {
      SumOverRemove(subjects, subjects.Keys, subject);
    } else {
      assert rest == subjects.Keys;
    }
  }

  /**
    `average()`: 0.0 when no mark is recorded, otherwise the sum of the marks
    divided by their number. The mean times the count is the sum in both cases.
   */
  ghost function Average(subjects: map<string, real>): (avg: real)
    ensures subjects == map[] ==> avg == 0.0
    ensures avg * (|subjects| as real) == Sum(subjects)
  {
    if |subjects| == 0 then 0.0 else Sum(subjects) / (|subjects| as real)
  }

  /** A mean lies between any lower and upper bound of the marks it averages. */
  lemma AverageWithin(subjects: map<string, real>, lo: real, hi: real)
    requires subjects != map[]
    requires forall s :: s in subjects ==> lo <= subjects[s] <= hi
    ensures lo <= Average(subjects) <= hi
  {
    var n := |subjects|;
    assert n > 0 by {
      var s :| s in subjects;
      assert s in subjects.Keys;
    }
    assert |subjects.Keys| == n;
    SumOverBounds(subjects, subjects.Keys, lo, hi);
    MeanWithin(Sum(subjects), n, lo, hi);
  }

  /** A sum between n copies of lo and n copies of hi has a mean between lo and hi. */
  lemma MeanWithin(sum: real, n: nat, lo: real, hi: real)
    requires n > 0 && Times(n, lo) <= sum <= Times(n, hi)
    ensures lo <= sum / (n as real) <= hi
  {
    TimesIsProduct(n, lo);
    TimesIsProduct(n, hi);
    var c := n as real;
    var q := sum / c;
    assert sum == c * q;
    assert c * (q - lo) >= 0.0;
    assert c * (hi - q) >= 0.0;
  }

  /** If every recorded mark is in [0, 100], so is the average (including the 0.0 of no marks). */
  lemma AverageInRange(subjects: map<string, real>)
    requires AllInRange(subjects)
    ensures InRange(Average(subjects))
  {
    if subjects != map[] {
      AverageWithin(subjects, MinMark, MaxMark);
    }
  }

  /** The average of a single mark is that mark. */
  lemma AverageOfOne(subject: string, marks: real)
    ensures Average(map[subject := marks]) == marks
  {
    var m := map[subject := marks];
    assert m.Keys == {subject};
    SumOverRemove(m, m.Keys, subject);
    assert m.Keys - {subject} == {};
  }

  /** `average()` of {A: 80, B: 60} is 70. */
  lemma AverageOfTwoExample()
    ensures Average(map["A" := 80.0, "B" := 60.0]) == 70.0
  {
    var m := map["A" := 80.0, "B" := 60.0];
    assert m == map["A" := 80.0]["B" := 60.0];
    SumAfterRecord(map["A" := 80.0], "B", 60.0);
    AverageOfOne("A", 80.0);
    assert |m| == 2 by {
      assert m.Keys == {"A", "B"};
    }
  }

  /**
    `grade()`: the letter of the band the average falls in. Each band includes
    its lower bound: A from 70, B from 60, C from 50, D from 40, FAIL below.
   */
  ghost function Grade(subjects: map<string, real>): (g: string)
    ensures g == "A" <==> Average(subjects) >= 70.0
    ensures g == "B" <==> 60.0 <= Average(subjects) < 70.0
    ensures g == "C" <==> 50.0 <= Average(subjects) < 60.0
    ensures g == "D" <==> 40.0 <= Average(subjects) < 50.0
    ensures g == "FAIL" <==> Average(subjects) < 40.0
  {
    var avg := Average(subjects);
    if avg >= 70.0 then "A"
    else if avg >= 60.0 then "B"
    else if avg >= 50.0 then "C"
    else if avg >= 40.0 then "D"
    else "FAIL"
  }

  /** The position of a letter grade, from FAIL (0) up to A (4). */
  function Rank(g: string): nat
  {
    if g == "A" then 4
    else if g == "B" then 3
    else if g == "C" then 2
    else if g == "D" then 1
    else 0
  }

  /** A higher average never earns a lower grade. */
  lemma GradeMonotone(m1: map<string, real>, m2: map<string, real>)
    requires Average(m1) <= Average(m2)
    ensures Rank(Grade(m1)) <= Rank(Grade(m2))
  {
  }

  /** The band edges: 70 is an A, 69.9 a B, 40 a D and 39.9 a FAIL. */
  lemma GradeBoundaryExamples(subject: string)
    ensures Grade(map[subject := 70.0]) == "A"
    ensures Grade(map[subject := 69.9]) == "B"
    ensures Grade(map[subject := 40.0]) == "D"
    ensures Grade(map[subject := 39.9]) == "FAIL"
  {
    AverageOfOne(subject, 70.0);
    AverageOfOne(subject, 69.9);
    AverageOfOne(subject, 40.0);
    AverageOfOne(subject, 39.9);
  }
}
