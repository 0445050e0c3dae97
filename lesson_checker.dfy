/** The lesson checker of run.py.  It finds the student's lesson files among the
    entries of the working directory, runs each one, checks that the run defined the
    top-level names its lesson requires, turns each outcome into a test result, and
    counts the results by status for the report.

    Running a lesson file is not modelled: its outcome is given by `execute`, which
    maps a file name to the exception the run raised or to the bindings it left. */
module LessonChecker {
  import opened Seqs

  datatype Status = Passed | Failed | Skipped | Error

  /** What running one lesson file produced: the text of the exception it raised, or
      its top-level bindings, each name mapped to the `str()` rendering of its value. */
  datatype Outcome = Raised(error: string) | Ran(namespace: map<string, string>)

  datatype TestResult = TestResult(name: string, status: Status, message: string, details: map<string, string>)

  /** The report that `main` writes, without its timestamp. */
  datatype Report = Report(totalTests: nat, passed: nat, failed: nat, skipped: nat, errors: nat, results: seq<TestResult>)

  predicate StartsWith(s: string, prefix: string) {
    |prefix| <= |s| && s[..|prefix|] == prefix
  }

  predicate EndsWith(s: string, suffix: string) {
    |suffix| <= |s| && s[|s| - |suffix|..] == suffix
  }

  // ---------------------------------------------------------------------------
  // Discovery

  /** The glob `lesson_*.py`: the prefix and the suffix, without overlapping
      (the `*` may match nothing). */
  predicate MatchesLessonGlob(name: string) {
    |"lesson_"| + |".py"| <= |name| && StartsWith(name, "lesson_") && EndsWith(name, ".py")
  }

  /** A student solution: a lesson file that is not a reference `_good` or `_perfect` one. */
  predicate IsStudentLesson(name: string) {
    MatchesLessonGlob(name) && !(EndsWith(name, "_good.py") || EndsWith(name, "_perfect.py"))
  }

  /** The lesson files among the directory entries `files`, in enumeration order. */
  function KeptFiles(files: seq<string>): (kept: seq<string>) {
    Filter(files, IsStudentLesson)
  }

  /** A file is kept exactly when it is a student lesson file. */
  lemma KeptFilesExactly(files: seq<string>)
    ensures forall name :: name in KeptFiles(files) <==> name in files && IsStudentLesson(name)
  {
    FilterMembers(files, IsStudentLesson);
    forall name | name in KeptFiles(files)
      ensures name in files && IsStudentLesson(name)
    {
      var i :| 0 <= i < |KeptFiles(files)| && KeptFiles(files)[i] == name;
    }
  }

  /** Discovery preserves enumeration order: the files kept from `a + b` are those
      kept from `a` followed by those kept from `b`. */
  lemma KeptFilesInOrder(a: seq<string>, b: seq<string>)
    ensures KeptFiles(a + b) == KeptFiles(a) + KeptFiles(b)
  {
    FilterConcat(a, b, IsStudentLesson);
  }

  /** The loop of lines 16-19: keep every enumerated name that matches the glob and
      is not a reference solution. */
  method DiscoverLessons(files: seq<string>) returns (lessonFiles: seq<string>)
    ensures lessonFiles == KeptFiles(files)
  {
    lessonFiles := [];
    for i := 0 to |files|
      invariant lessonFiles == KeptFiles(files[..i])
    {
      var name := files[i];
      assert files[..i + 1][..i] == files[..i];
      if MatchesLessonGlob(name) && !(EndsWith(name, "_good.py") || EndsWith(name, "_perfect.py")) {
        lessonFiles := lessonFiles + [name];
      }
    }
    assert files[..|files|] == files;
  }

  /** `Path.stem` of a `.py` file: the name without its last suffix. */
  function Stem(name: string): (stem: string)
    requires EndsWith(name, ".py")
  {
    name[..|name| - |".py"|]
  }

  // ---------------------------------------------------------------------------
  // Required names and the present / missing partition

  /** The names a lesson must define; none for a lesson the table does not know. */
  function RequiredVars(lessonName: string): (required: seq<string>)
    ensures forall i, j :: 0 <= i < j < |required| ==> required[i] != required[j]
  {
    if lessonName == "lesson_1" then ["category_a", "category_b", "total_value"]
    else if lessonName == "lesson_2" then ["data_processed", "transformation_applied"]
    else []
  }

  function Unbound(namespace: map<string, string>): string -> bool {
    (v: string) => v !in namespace
  }

  /** The required names the run did not define, in the order of `required`. */
  function MissingVars(required: seq<string>, namespace: map<string, string>): (missing: seq<string>) {
    Filter(required, Unbound(namespace))
  }

  /** The required names the run did define, each with the rendering of its value. */
  function PresentVars(required: seq<string>, namespace: map<string, string>): (present: map<string, string>) {
    map v | v in required && v in namespace :: namespace[v]
  }

  /** Every required name is in exactly one of the two parts, the present part holds
      nothing else and maps each name to its rendering, and the missing part holds
      nothing else. */
  lemma PartitionExact(required: seq<string>, namespace: map<string, string>)
    ensures forall v :: v in required ==> (v in PresentVars(required, namespace) <==> v !in MissingVars(required, namespace))
    ensures forall v :: v in PresentVars(required, namespace) ==> v in required && PresentVars(required, namespace)[v] == namespace[v]
    ensures forall v :: v in MissingVars(required, namespace) ==> v in required && v !in namespace
  {
    var missing := MissingVars(required, namespace);
    FilterMembers(required, Unbound(namespace));
    forall v | v in missing
      ensures v in required && v !in namespace
    {
      var i :| 0 <= i < |missing| && missing[i] == v;
    }
    forall v | v in required && v !in namespace
      ensures v in missing
    {
      var i :| 0 <= i < |required| && required[i] == v;
    }
  }

  /** The missing names keep the order of the required list. */
  lemma MissingInOrder(a: seq<string>, b: seq<string>, namespace: map<string, string>)
    ensures MissingVars(a + b, namespace) == MissingVars(a, namespace) + MissingVars(b, namespace)
  {
    FilterConcat(a, b, Unbound(namespace));
  }

  /** Nothing is missing exactly when the run defined every required name. */
  lemma NoneMissingIffAllBound(required: seq<string>, namespace: map<string, string>)
    ensures MissingVars(required, namespace) == [] <==> forall v :: v in required ==> v in namespace
  {
    PartitionExact(required, namespace);
    if MissingVars(required, namespace) != [] {
      assert MissingVars(required, namespace)[0] in MissingVars(required, namespace);
    }
  }

  /** The loop of lines 48-55. */
  method PartitionRequired(required: seq<string>, namespace: map<string, string>)
    returns (present: map<string, string>, missing: seq<string>)
    ensures present == PresentVars(required, namespace)
    ensures missing == MissingVars(required, namespace)
  {
    present, missing := map[], [];
    for i := 0 to |required|
      invariant present == PresentVars(required[..i], namespace)
      invariant missing == MissingVars(required[..i], namespace)
    {
      var v := required[i];
      assert required[..i + 1] == required[..i] + [v];
      assert required[..i + 1][..i] == required[..i];
      if v in namespace {
        present := present[v := namespace[v]];
      } else {
        missing := missing + [v];
      }
    }
    assert required[..|required|] == required;
  }

  // ---------------------------------------------------------------------------
  // Classification

  /** Python's `sep.join(parts)`. */
  function Join(parts: seq<string>, sep: string): (joined: string) {
    if |parts| == 0 then ""
    else if |parts| == 1 then parts[0]
    else Join(parts[..|parts| - 1], sep) + sep + parts[|parts| - 1]
  }

  const MissingPrefix := "Missing required variables: "
  const PresentPrefix := "All required variables present: "

  /** The result recorded for the lesson `lessonName` whose run produced `outcome`. */
  function LessonResult(lessonName: string, outcome: Outcome): (r: TestResult)
    ensures r.name == lessonName && r.status != Skipped
  {
    match outcome
    case Raised(err) =>
      TestResult(lessonName, Error, "Error processing " + lessonName + ": " + err, map[])
    case Ran(namespace) =>
      var required := RequiredVars(lessonName);
      var missing := MissingVars(required, namespace);
      var present := PresentVars(required, namespace);
      if missing != [] then
        TestResult(lessonName, Failed, MissingPrefix + Join(missing, ", "), present)
      else
        TestResult(lessonName, Passed, PresentPrefix + Join(required, ", "), present)
  }

  /** A raised exception, and nothing else, gives `error`, with empty details and a
      message naming the lesson and the exception. */
  lemma ErrorIffRaised(lessonName: string, outcome: Outcome)
    ensures LessonResult(lessonName, outcome).status == Error <==> outcome.Raised?
    ensures outcome.Raised? ==>
      LessonResult(lessonName, outcome).details == map[] &&
      LessonResult(lessonName, outcome).message == "Error processing " + lessonName + ": " + outcome.error
  {
  }

  /** A run that raised nothing but left a required name undefined, and nothing else,
      gives `failed`; the message lists the missing names and the details hold exactly
      the defined required names with their renderings. */
  lemma FailedIffMissing(lessonName: string, outcome: Outcome)
    ensures LessonResult(lessonName, outcome).status == Failed <==>
      outcome.Ran? && exists v :: v in RequiredVars(lessonName) && v !in outcome.namespace
    ensures LessonResult(lessonName, outcome).status == Failed ==>
      var r := LessonResult(lessonName, outcome);
      var required := RequiredVars(lessonName);
      && r.message == MissingPrefix + Join(MissingVars(required, outcome.namespace), ", ")
      && (forall v :: v in r.details <==> v in required && v in outcome.namespace)
      && (forall v :: v in r.details ==> r.details[v] == outcome.namespace[v])
  {
    if outcome.Ran? {
      NoneMissingIffAllBound(RequiredVars(lessonName), outcome.namespace);
    }
  }

  /** A run that raised nothing and defined every required name, and nothing else,
      gives `passed`; its details are exactly the required names with their renderings. */
  lemma PassedIffComplete(lessonName: string, outcome: Outcome)
    ensures LessonResult(lessonName, outcome).status == Passed <==>
      outcome.Ran? && forall v :: v in RequiredVars(lessonName) ==> v in outcome.namespace
    ensures LessonResult(lessonName, outcome).status == Passed ==>
      var r := LessonResult(lessonName, outcome);
      && r.message == PresentPrefix + Join(RequiredVars(lessonName), ", ")
      && (forall v :: v in r.details <==> v in RequiredVars(lessonName))
      && (forall v :: v in r.details ==> r.details[v] == outcome.namespace[v])
  {
    if outcome.Ran? {
      NoneMissingIffAllBound(RequiredVars(lessonName), outcome.namespace);
    }
  }

  /** A lesson the table does not know requires nothing, so any run of it that raises
      nothing passes with empty details. */
  lemma UnknownLessonPasses(lessonName: string, namespace: map<string, string>)
    requires lessonName != "lesson_1" && lessonName != "lesson_2"
    ensures LessonResult(lessonName, Ran(namespace)) == TestResult(lessonName, Passed, PresentPrefix, map[])
  {
    assert PresentVars([], namespace) == map[];
  }

  /** The body of the `try` block and its handler, lines 31-78, for one lesson. */
  method CheckLesson(lessonName: string, outcome: Outcome) returns (result: TestResult)
    ensures result == LessonResult(lessonName, outcome)
  {
    match outcome {
      case Raised(err) =>
        result := TestResult(lessonName, Error, "Error processing " + lessonName + ": " + err, map[]);
      case Ran(namespace) =>
        var required: seq<string> := [];
        if lessonName == "lesson_1" {
          required := ["category_a", "category_b", "total_value"];
        } else if lessonName == "lesson_2" {
          required := ["data_processed", "transformation_applied"];
        }
        var present, missing := PartitionRequired(required, namespace);
        if missing != [] {
          result := TestResult(lessonName, Failed, MissingPrefix + Join(missing, ", "), present);
        } else {
          result := TestResult(lessonName, Passed, PresentPrefix + Join(required, ", "), present);
        }
    }
  }

  // ---------------------------------------------------------------------------
  // All lessons

  const NoLessonsResult := TestResult("python_lessons", Skipped, "No Python lesson files found (excluding _good and _perfect)", map[])

  /** Every kept file is a `.py` file, so it has a stem. */
  lemma KeptArePyFiles(files: seq<string>)
    ensures forall f :: f in KeptFiles(files) ==> EndsWith(f, ".py")
  {
    KeptFilesExactly(files);
  }

  /** The results of `check_python_lessons` on the directory entries `files`. */
  function CheckLessons(files: seq<string>, execute: string -> Outcome): (results: seq<TestResult>)
    ensures |results| >= 1
  {
    var lessonFiles := KeptFiles(files);
    KeptArePyFiles(files);
    if lessonFiles == [] then [NoLessonsResult]
    else seq(|lessonFiles|, i requires 0 <= i < |lessonFiles| =>
               LessonResult(Stem(lessonFiles[i]), execute(lessonFiles[i])))
  }

  /** Without a lesson file the results are the one `skipped` entry, whatever the
      runs would have produced; with lesson files there is one result per file, in
      discovery order, named after the file, and none is `skipped`. */
  lemma OneResultPerLesson(files: seq<string>, execute: string -> Outcome)
    ensures KeptFiles(files) == [] ==> CheckLessons(files, execute) == [NoLessonsResult]
    ensures KeptFiles(files) != [] ==>
      var lessonFiles := KeptFiles(files);
      var results := CheckLessons(files, execute);
      && |results| == |lessonFiles|
      && forall i :: 0 <= i < |results| ==>
           EndsWith(lessonFiles[i], ".py") && results[i].name == Stem(lessonFiles[i]) && results[i].status != Skipped
  {
    KeptArePyFiles(files);
  }

  /** A `skipped` result appears exactly when no lesson file was found. */
  lemma SkippedIffNoLessons(files: seq<string>, execute: string -> Outcome)
    ensures (exists i :: 0 <= i < |CheckLessons(files, execute)| && CheckLessons(files, execute)[i].status == Skipped)
      <==> KeptFiles(files) == []
  {
    OneResultPerLesson(files, execute);
    if KeptFiles(files) == [] {
      assert CheckLessons(files, execute)[0].status == Skipped;
    }
  }

  /** Given each lesson's own outcome, its result is fixed: the outcomes of the other
      lessons do not enter it.  (All runs share one interpreter in the source; the model
      takes each run's outcome as independent of earlier runs.) */
  lemma LessonsIsolated(files: seq<string>, execute: string -> Outcome, other: string -> Outcome, i: nat)
    requires i < |KeptFiles(files)|
    requires execute(KeptFiles(files)[i]) == other(KeptFiles(files)[i])
    ensures CheckLessons(files, execute)[i] == CheckLessons(files, other)[i]
  {
  }

  /** The loop of lines 30-78, after discovery. */
  method CheckPythonLessons(files: seq<string>, execute: string -> Outcome) returns (testResults: seq<TestResult>)
    ensures testResults == CheckLessons(files, execute)
  {
    var lessonFiles := DiscoverLessons(files);
    KeptArePyFiles(files);
    if lessonFiles == [] {
      testResults := [NoLessonsResult];
      return;
    }
    testResults := [];
    for i := 0 to |lessonFiles|
      invariant |testResults| == i
      invariant forall j :: 0 <= j < i ==> testResults[j] == LessonResult(Stem(lessonFiles[j]), execute(lessonFiles[j]))
    {
      var lessonFile := lessonFiles[i];
      var result := CheckLesson(Stem(lessonFile), execute(lessonFile));
      testResults := testResults + [result];
    }
  }

  // ---------------------------------------------------------------------------
  // The report

  function HasStatus(status: Status): TestResult -> bool {
    (r: TestResult) => r.status == status
  }

  /** `len([r for r in results if r["status"] == status])`. */
  function CountStatus(results: seq<TestResult>, status: Status): (count: nat) {
    |Filter(results, HasStatus(status))|
  }

  /** Every result has one of the four statuses, so the four counts add up to the
      number of results. */
  lemma {:induction false} CountsPartition(results: seq<TestResult>)
    ensures CountStatus(results, Passed) + CountStatus(results, Failed)
          + CountStatus(results, Skipped) + CountStatus(results, Error) == |results|
  {
    if results != [] {
      CountsPartition(results[..|results| - 1]);
    }
  }

  /** The counts of lines 95-103. */
  function MakeReport(results: seq<TestResult>): (report: Report)
    ensures report.results == results
    ensures report.totalTests == |results| == report.passed + report.failed + report.skipped + report.errors
  {
    CountsPartition(results);
    Report(|results|, CountStatus(results, Passed), CountStatus(results, Failed),
           CountStatus(results, Skipped), CountStatus(results, Error), results)
  }

  /** What one run of the checker reports for the directory entries `files`. */
  function RunChecks(files: seq<string>, execute: string -> Outcome): (report: Report) {
    MakeReport(CheckLessons(files, execute))
  }

  /** No lesson file: one test, and it is the `skipped` one. */
  lemma NoLessonsReport(files: seq<string>, execute: string -> Outcome)
    requires KeptFiles(files) == []
    ensures var report := RunChecks(files, execute);
      report.totalTests == 1 && report.skipped == 1 &&
      report.passed == 0 && report.failed == 0 && report.errors == 0
  {
    var results := CheckLessons(files, execute);
    assert results == [NoLessonsResult];
    assert results[..0] == [];
  }

  /** The lesson files whose run raised. */
  function Raises(execute: string -> Outcome): string -> bool {
    (f: string) => execute(f).Raised?
  }

  /** With lesson files there is one test per file, none skipped, and the `error`
      count is the number of lesson files whose run raised. */
  lemma LessonsReport(files: seq<string>, execute: string -> Outcome)
    requires KeptFiles(files) != []
    ensures var report := RunChecks(files, execute);
      && report.totalTests == |KeptFiles(files)|
      && report.skipped == 0
      && report.passed + report.failed + report.errors == |KeptFiles(files)|
      && report.errors == |Filter(KeptFiles(files), Raises(execute))|
  {
    var results := CheckLessons(files, execute);
    OneResultPerLesson(files, execute);
    FilterNone(results, HasStatus(Skipped));
    var lessonFiles := KeptFiles(files);
    forall i | 0 <= i < |results|
      ensures HasStatus(Error)(results[i]) <==> Raises(execute)(lessonFiles[i])
    {
      ErrorIffRaised(Stem(lessonFiles[i]), execute(lessonFiles[i]));
    }
    FilterCountsAgree(results, lessonFiles, HasStatus(Error), Raises(execute));
  }

  // ---------------------------------------------------------------------------
  // Scenarios

  /** A `lesson_1` run that defines its three names passes, with those three names
      as its details. */
  lemma Lesson1Passes(namespace: map<string, string>)
    requires "category_a" in namespace && "category_b" in namespace && "total_value" in namespace
    ensures LessonResult("lesson_1", Ran(namespace)).status == Passed
    ensures LessonResult("lesson_1", Ran(namespace)).details.Keys == {"category_a", "category_b", "total_value"}
  {
    PassedIffComplete("lesson_1", Ran(namespace));
  }

  /** A `lesson_2` run that defines `data_processed` but not `transformation_applied`
      fails, naming exactly the missing flag. */
  lemma Lesson2MissingFlagFails(namespace: map<string, string>)
    requires "data_processed" in namespace && "transformation_applied" !in namespace
    ensures LessonResult("lesson_2", Ran(namespace)) ==
      TestResult("lesson_2", Failed, MissingPrefix + "transformation_applied",
                 map["data_processed" := namespace["data_processed"]])
  {
    var required := RequiredVars("lesson_2");
    var unbound := Unbound(namespace);
    assert required == ["data_processed", "transformation_applied"];
    assert required[..1] == ["data_processed"];
    assert required[..1][..0] == [];
    assert Filter(required[..1], unbound) == [];
    assert MissingVars(required, namespace) == ["transformation_applied"];
    assert Join(["transformation_applied"], ", ") == "transformation_applied";
    assert PresentVars(required, namespace).Keys == {"data_processed"};
    var present := PresentVars(required, namespace);
    assert present == map["data_processed" := namespace["data_processed"]];
    assert LessonResult("lesson_2", Ran(namespace)) ==
      TestResult("lesson_2", Failed, MissingPrefix + Join(["transformation_applied"], ", "), present);
  }

  /** A reference solution beside the student's file is not checked. */
  lemma GoodSolutionIgnored()
    ensures KeptFiles(["lesson_1.py", "lesson_1_good.py"]) == ["lesson_1.py"]
  {
    var files := ["lesson_1.py", "lesson_1_good.py"];
    assert files[..1] == ["lesson_1.py"];
    assert files[..1][..0] == [];
    assert EndsWith(files[1], "_good.py");
    assert MatchesLessonGlob(files[0]);
  }
}
