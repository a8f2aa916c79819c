/**
 * The GPA page: a list of courses, each with credits and a letter grade;
 * the grade-point table; the credit-weighted average over the courses that
 * carry credit; and the benchmark thresholds shown beside it.
 */
module Gpa {
  import opened Numerics
  import opened Seqs

  datatype Course = Course(id: string, name: string, credits: real, grade: string)

  datatype GpaResult = GpaResult(currentGpa: real, totalCredits: real, qualityPoints: real)

  // ------------------------------------------------------------------
  // Grade points

  /** The letter grades and their points. */
  const GradeTable: map<string, real> := map[
    "A+" := 4.0, "A" := 4.0, "A-" := 3.7,
    "B+" := 3.3, "B" := 3.0, "B-" := 2.7,
    "C+" := 2.3, "C" := 2.0, "C-" := 1.7,
    "D+" := 1.3, "D" := 1.0, "D-" := 0.7,
    "F" := 0.0]

  /** The grades offered for selection, in the table's order. */
  const GradeOptions: seq<string> := ["A+", "A", "A-", "B+", "B", "B-", "C+", "C", "C-", "D+", "D", "D-", "F"]

  /** The points for a grade; a grade missing from the table scores 0. */
  function Points(grade: string): (p: real)
    ensures 0.0 <= p <= 4.0
    ensures grade !in GradeTable ==> p == 0.0
  {
    if grade in GradeTable then GradeTable[grade] else 0.0
  }

  /** Thirteen grades are offered, each once. */
  lemma GradeOptionsDistinct()
    ensures |GradeOptions| == 13 && forall i, j :: 0 <= i < j < 13 ==> GradeOptions[i] != GradeOptions[j]
  {
  }

  /** The grades offered are exactly the grades in the table; A+ and A are worth 4 points, F none, and every grade between. */
  lemma GradeTableFacts()
    ensures GradeTable.Keys == set g | g in GradeOptions
    ensures forall g :: g in GradeTable ==> 0.0 <= GradeTable[g] <= 4.0
    ensures GradeTable["A+"] == GradeTable["A"] == 4.0 && GradeTable["F"] == 0.0
  {
  }

  // ------------------------------------------------------------------
  // Editing the course list

  /** The blank course the add button appends. */
  function NewCourse(id: string): Course
  {
    Course(id, "", 3.0, "A")
  }

  /** addCourse: one more course, worth 3 credits at an A, after the others. */
  function AddCourse(courses: seq<Course>, newId: string): (r: seq<Course>)
    ensures |r| == |courses| + 1 && r[..|courses|] == courses
    ensures r[|courses|] == Course(newId, "", 3.0, "A")
  {
    courses + [NewCourse(newId)]
  }

  function KeepUnless(id: string): Course -> bool
  {
    (c: Course) => c.id != id
  }

  /** removeCourse: every course with that id goes, every other course stays. */
  function RemoveCourse(courses: seq<Course>, id: string): (r: seq<Course>)
    ensures forall c :: c in r <==> c in courses && c.id != id
    ensures |r| <= |courses|
  {
    FilterMembers(KeepUnless(id), courses);
    Filter(KeepUnless(id), courses)
  }

  /** Removal keeps the relative order of the courses it keeps. */
  lemma RemoveCourseKeepsOrder(a: seq<Course>, b: seq<Course>, id: string)
    ensures RemoveCourse(a + b, id) == RemoveCourse(a, id) + RemoveCourse(b, id)
  {
    FilterConcat(KeepUnless(id), a, b);
  }

  /** The one field an edit sets, with its new value. */
  datatype CourseField =
    | SetId(newId: string)
    | SetName(newName: string)
    | SetCredits(newCredits: real)
    | SetGrade(newGrade: string)

  function WithField(c: Course, f: CourseField): (r: Course)
    ensures r.id == (if f.SetId? then f.newId else c.id)
    ensures r.name == (if f.SetName? then f.newName else c.name)
    ensures r.credits == (if f.SetCredits? then f.newCredits else c.credits)
    ensures r.grade == (if f.SetGrade? then f.newGrade else c.grade)
  {
    match f
    case SetId(v) => c.(id := v)
    case SetName(v) => c.(name := v)
    case SetCredits(v) => c.(credits := v)
    case SetGrade(v) => c.(grade := v)
  }

  function EditIfMatch(id: string, f: CourseField): Course -> Course
  {
    (c: Course) => if c.id == id then WithField(c, f) else c
  }

  /** updateCourse: the courses with that id get the new field value; the list is otherwise unchanged. */
  function UpdateCourse(courses: seq<Course>, id: string, f: CourseField): (r: seq<Course>)
    ensures |r| == |courses|
    ensures forall i :: 0 <= i < |courses| && courses[i].id != id ==> r[i] == courses[i]
    ensures forall i :: 0 <= i < |courses| && courses[i].id == id ==> r[i] == WithField(courses[i], f)
  {
    Map(EditIfMatch(id, f), courses)
  }

  // ------------------------------------------------------------------
  // The average

  /** Only courses carrying credit count. */
  predicate Counts(c: Course)
  {
    c.credits > 0.0
  }

  function Counted(courses: seq<Course>): seq<Course>
  {
    Filter(Counts, courses)
  }

  /** A course's quality points: its grade's points times its credits. */
  function QualityOf(c: Course): real
  {
    Points(c.grade) * c.credits
  }

  function CreditsOf(c: Course): real
  {
    c.credits
  }

  /** The sum of f over a list, adding from the front as forEach does. */
  function Sum(f: Course -> real, s: seq<Course>): real
  {
    if s == [] then 0.0 else Sum(f, s[..|s| - 1]) + f(s[|s| - 1])
  }

  /** The figures shown for given totals: the average and the quality points to two decimals, the credits as they are. */
  function Report(quality: real, credits: real): GpaResult
  {
    GpaResult(Round2(if credits > 0.0 then quality / credits else 0.0), credits, Round2(quality))
  }

  /** What calculateGpa reports for a list of courses. */
  function GpaOf(courses: seq<Course>): GpaResult
  {
    var valid := Counted(courses);
    if |valid| == 0 then GpaResult(0.0, 0.0, 0.0)
    else Report(Sum(QualityOf, valid), Sum(CreditsOf, valid))
  }

  /** calculateGpa: one pass over the counted courses, adding up quality points and credits. */
  method CalculateGpa(courses: seq<Course>) returns (results: GpaResult)
    ensures results == GpaOf(courses)
  {
    var validCourses := Counted(courses);
    if |validCourses| == 0 {
      return GpaResult(0.0, 0.0, 0.0);
    }
    var totalQualityPoints := 0.0;
    var totalCredits := 0.0;
    var i := 0;
    while i < |validCourses|
      invariant 0 <= i <= |validCourses|
      invariant totalQualityPoints == Sum(QualityOf, validCourses[..i])
      invariant totalCredits == Sum(CreditsOf, validCourses[..i])
    {
      var course := validCourses[i];
      SumStep(QualityOf, validCourses, i);
      SumStep(CreditsOf, validCourses, i);
      totalQualityPoints := totalQualityPoints + QualityOf(course);
      totalCredits := totalCredits + course.credits;
      i := i + 1;
    }
    assert validCourses[..i] == validCourses;
    var gpa := if totalCredits > 0.0 then totalQualityPoints / totalCredits else 0.0;
    results := GpaResult(Round2(gpa), totalCredits, Round2(totalQualityPoints));
  }

  // ------------------------------------------------------------------
  // Properties of the average

  /** One more course added to a running sum. */
  lemma SumStep(f: Course -> real, s: seq<Course>, i: nat)
    requires i < |s|
    ensures Sum(f, s[..i + 1]) == Sum(f, s[..i]) + f(s[i])
  {
    assert s[..i + 1][..i] == s[..i];
  }

  lemma {:induction false} SumConcat(f: Course -> real, a: seq<Course>, b: seq<Course>)
    ensures Sum(f, a + b) == Sum(f, a) + Sum(f, b)
    decreases |b|
  {
    if b != [] {
      var b' := b[..|b| - 1];
      assert (a + b)[..|a + b| - 1] == a + b';
      SumConcat(f, a, b');
    } else {
      assert a + b == a;
    }
  }

  /** Taking one course out of a list takes its term out of the sum. */
  lemma SumRemoveAt(f: Course -> real, b: seq<Course>, j: nat)
    requires j < |b|
    ensures Sum(f, b) == Sum(f, b[..j] + b[j + 1..]) + f(b[j])
  {
    var left, x, right := b[..j], b[j], b[j + 1..];
    assert b == left + ([x] + right);
    SumConcat(f, left, [x] + right);
    SumConcat(f, [x], right);
    SumConcat(f, left, right);
    assert Sum(f, [x]) == f(x) by {
      assert [x][..0] == [];
    }
  }

  /** Reordering the courses leaves every sum unchanged. */
  lemma {:induction false} SumPermutation(f: Course -> real, a: seq<Course>, b: seq<Course>)
    requires multiset(a) == multiset(b)
    ensures Sum(f, a) == Sum(f, b)
    decreases |a|
  {
    if a == [] {
      assert |b| == |multiset(b)| == 0;
    } else {
      var n := |a| - 1;
      var x := a[n];
      assert x in multiset(b);
      var j :| 0 <= j < |b| && b[j] == x;
      var rest := b[..j] + b[j + 1..];
      RemoveAt(b, j);
      assert a == a[..n] + [x];
      assert multiset(a[..n]) + multiset{x} == multiset(rest) + multiset{x};
      MultisetCancel(multiset(a[..n]), multiset(rest), x);
      SumPermutation(f, a[..n], rest);
      SumRemoveAt(f, b, j);
    }
  }

  /** The GPA does not depend on the order the courses are listed in. */
  lemma GpaOrderIndependent(a: seq<Course>, b: seq<Course>)
    requires multiset(a) == multiset(b)
    ensures GpaOf(a) == GpaOf(b)
  {
    FilterPermutation(Counts, a, b);
    var va, vb := Counted(a), Counted(b);
    assert |va| == |multiset(va)| == |multiset(vb)| == |vb|;
    SumPermutation(QualityOf, va, vb);
    SumPermutation(CreditsOf, va, vb);
  }

  /** Over courses that all carry credit: the credits are positive and the quality points lie between 0 and 4 per credit. */
  lemma {:induction false} SumsBounded(s: seq<Course>)
    requires forall i :: 0 <= i < |s| ==> Counts(s[i])
    ensures s != [] ==> Sum(CreditsOf, s) > 0.0
    ensures 0.0 <= Sum(QualityOf, s) <= 4.0 * Sum(CreditsOf, s)
  {
    if s != [] {
      var init := s[..|s| - 1];
      var c := s[|s| - 1];
      assert Counts(c);
      SumsBounded(init);
      MulLe(0.0, Points(c.grade), c.credits);
      MulLe(Points(c.grade), 4.0, c.credits);
    }
  }

  /** Rounding to two decimals keeps a number between 0 and 4 in that range. */
  lemma Round2InGpaRange(x: real)
    requires 0.0 <= x <= 4.0
    ensures 0.0 <= Round2(x) <= 4.0
  {
    RoundMonotone(0.0, x * 100.0);
    RoundMonotone(x * 100.0, 400.0);
    assert Round(400.0) == 400;
  }

  /** At most 4 points per credit average to at most 4. */
  lemma ReportInRange(quality: real, credits: real)
    requires credits > 0.0 && 0.0 <= quality <= 4.0 * credits
    ensures 0.0 <= Report(quality, credits).currentGpa <= 4.0
  {
    var x := quality / credits;
    assert x * credits == quality;
    SignOfProduct(x, credits);
    SignOfProduct(4.0 - x, credits);
    Round2InGpaRange(x);
  }

  /** 4 points on every credit average to exactly 4. */
  lemma ReportOfTopGrades(credits: real)
    requires credits > 0.0
    ensures Report(4.0 * credits, credits).currentGpa == 4.0
  {
    assert 4.0 * credits / credits == 4.0;
    assert Round(400.0) == 400;
  }

  /** Three more credits at 4 points each never lower an average of at most 4. */
  lemma ReportRisesWithTopCourse(quality: real, credits: real)
    requires credits > 0.0 && 0.0 <= quality <= 4.0 * credits
    ensures Report(quality + 12.0, credits + 3.0).currentGpa >= Report(quality, credits).currentGpa
  {
    var x, y := quality / credits, (quality + 12.0) / (credits + 3.0);
    assert x * credits == quality && y * (credits + 3.0) == quality + 12.0;
    assert (y - x) * (credits * (credits + 3.0)) == 3.0 * (4.0 * credits - quality);
    ProductNonNegative(credits, credits + 3.0);
    SignOfProduct(y - x, credits * (credits + 3.0));
    RoundMonotone(x * 100.0, y * 100.0);
  }

  /** The reported GPA always lies between 0 and 4, and credits are reported only when some course counts. */
  lemma GpaInRange(courses: seq<Course>)
    ensures 0.0 <= GpaOf(courses).currentGpa <= 4.0
    ensures GpaOf(courses).totalCredits > 0.0 <==> exists c :: c in courses && Counts(c)
  {
    var valid := Counted(courses);
    FilterMembers(Counts, courses);
    if |valid| > 0 {
      assert valid[0] in valid;
      SumsBounded(valid);
      var q, c := Sum(QualityOf, valid), Sum(CreditsOf, valid);
      ReportInRange(q, c);
    }
  }

  /** With no course carrying credit every figure is 0, and only then are all credits 0. */
  lemma NoCreditsAllZero(courses: seq<Course>)
    ensures (forall c :: c in courses ==> !Counts(c)) <==> GpaOf(courses) == GpaResult(0.0, 0.0, 0.0)
  {
    GpaInRange(courses);
    FilterMembers(Counts, courses);
  }

  /** When every counted course is worth 4 points the quality points are 4 per credit. */
  lemma {:induction false} TopGradesSum(s: seq<Course>)
    requires forall i :: 0 <= i < |s| ==> Points(s[i].grade) == 4.0
    ensures Sum(QualityOf, s) == 4.0 * Sum(CreditsOf, s)
  {
    if s != [] {
      TopGradesSum(s[..|s| - 1]);
    }
  }

  /** When every counted course is worth 4 points the GPA is exactly 4.0 and every benchmark is met. */
  lemma AllTopGradesGiveFour(courses: seq<Course>)
    requires exists c :: c in courses && Counts(c)
    requires forall c :: c in courses && Counts(c) ==> Points(c.grade) == 4.0
    ensures GpaOf(courses).currentGpa == 4.0
    ensures DeansList(GpaOf(courses).currentGpa) && Honors(GpaOf(courses).currentGpa)
    ensures GraduateSchool(GpaOf(courses).currentGpa)
  {
    var valid := Counted(courses);
    FilterMembers(Counts, courses);
    assert forall i :: 0 <= i < |valid| ==> valid[i] in valid;
    var c0 :| c0 in courses && Counts(c0);
    assert c0 in valid;
    TopGradesSum(valid);
    SumsBounded(valid);
    ReportOfTopGrades(Sum(CreditsOf, valid));
  }

  /** Counting after adding the blank course counts the same courses, then the new one. */
  lemma CountedAfterAdd(courses: seq<Course>, newId: string)
    ensures Counted(AddCourse(courses, newId)) == Counted(courses) + [NewCourse(newId)]
  {
    var nc := NewCourse(newId);
    FilterConcat(Counts, courses, [nc]);
    assert Filter(Counts, [nc]) == [nc] by {
      assert [nc][1..] == [];
    }
  }

  /**
   * Adding the blank course (3 credits at an A) never lowers the GPA: it
   * adds 12 quality points for 3 credits, at least the average of 4 points
   * or less per credit.
   */
  lemma AddCourseNeverLowersGpa(courses: seq<Course>, newId: string)
    ensures GpaOf(AddCourse(courses, newId)).currentGpa >= GpaOf(courses).currentGpa
    ensures GpaOf(AddCourse(courses, newId)).totalCredits == GpaOf(courses).totalCredits + 3.0
  {
    var nc := NewCourse(newId);
    var valid := Counted(courses);
    var valid' := valid + [nc];
    CountedAfterAdd(courses, newId);
    assert valid'[..|valid'| - 1] == valid;
    var q, c := Sum(QualityOf, valid), Sum(CreditsOf, valid);
    assert Sum(QualityOf, valid') == q + 12.0 && Sum(CreditsOf, valid') == c + 3.0;
    FilterMembers(Counts, courses);
    SumsBounded(valid);
    if |valid| == 0 {
      ReportOfTopGrades(3.0);
    } else {
      ReportRisesWithTopCourse(q, c);
    }
  }

  // ------------------------------------------------------------------
  // Benchmarks

  predicate DeansList(gpa: real)
  {
    gpa >= 3.5
  }

  predicate Honors(gpa: real)
  {
    gpa >= 3.7
  }

  predicate GraduateSchool(gpa: real)
  {
    gpa >= 3.0
  }

  /** The thresholds are nested: honors implies Dean's List, which implies the graduate-school minimum. */
  lemma BenchmarksNested(gpa: real)
    ensures Honors(gpa) ==> DeansList(gpa)
    ensures DeansList(gpa) ==> GraduateSchool(gpa)
  {
  }
}
