# Lesson checker and lesson-2 pipeline, modelled in Dafny

This project models two pieces of a small Python exercise repository.

**The lesson checker (`run.py`).** `check_python_lessons` looks at the entries of the
working directory. It keeps the student lesson files: names matching `lesson_*.py` that end
in neither `_good.py` nor `_perfect.py`. It runs each kept file and looks up the top-level
names that lesson must define: `category_a`, `category_b` and `total_value` for `lesson_1`,
`data_processed` and `transformation_applied` for `lesson_2`, and none for any other lesson.
It splits those names into present ones (with the `str()` rendering of each value) and
missing ones. Each lesson then gets one result: `error` if the run raised, `failed` if a
name is missing, `passed` otherwise. With no lesson file, the only result is a `skipped`
entry named `python_lessons`. `main` counts the results by status.

**`process_data` (`homework/lesson_2.py`).** It keeps the items priced above 75. It copies
each kept item and sets `discounted_price` in the copy. It sorts the copies by price,
highest first, with Python's stable `sorted`. The module-level script applies it to
`raw_data` and sets `transformation_applied`.

Files:

- `seqs.dfy` (module `Seqs`): Python list comprehensions as `Filter` and `MapSeq`, with
  their lemmas.
- `lesson_checker.dfy` (module `LessonChecker`): `run.py`. The loops that append become
  methods (`DiscoverLessons`, `PartitionRequired`, `CheckLesson`, `CheckPythonLessons`).
  Each is proved equal to a specification function, and the checker's promises are lemmas
  about those functions. The tallies of `main` are pure functions (`MakeReport`).
- `stable_sort.dfy` (module `StableSort`): Python's `sorted(..., key=..., reverse=True)` as
  a stable insertion sort, largest key first.
- `lesson2.dfy` (module `Lesson2`): item dictionaries are values of type
  `map<string, Value>`. A Python dict object is the class `Dict`. `ProcessData` has no
  `modifies` clause, so Dafny proves it changes neither the input list nor any input dict.
  It returns new, pairwise distinct dicts.

Running a lesson file is a parameter `execute: string -> Outcome`. It gives either
`Raised(text of the exception)` or `Ran(namespace)`, where the namespace maps each
top-level name to the `str()` rendering of its value. The directory listing is a
parameter `files: seq<string>`, in enumeration order.

## Model

| member | source | states |
|---|---|---|
| `LessonChecker.KeptFilesExactly` | run.py:17-19 | a directory entry is kept iff it matches `lesson_*.py` and ends in neither `_good.py` nor `_perfect.py` |
| `LessonChecker.KeptFilesInOrder` | run.py:16-19 | the files kept from `a + b` are those kept from `a` followed by those kept from `b`, so discovery order is preserved |
| `LessonChecker.DiscoverLessons` | run.py:16-19 | the discovery loop returns exactly the kept files, in enumeration order |
| `LessonChecker.GoodSolutionIgnored` | run.py:18 | beside `lesson_1.py`, a `lesson_1_good.py` is not kept |
| `LessonChecker.RequiredVars` | run.py:42-46 | the required-name table (three names for `lesson_1`, two for `lesson_2`, none otherwise) lists no name twice |
| `LessonChecker.PartitionExact` | run.py:48-55 | every required name is in exactly one of present and missing; present maps only required, bound names to their renderings; missing holds only required, unbound names |
| `LessonChecker.MissingInOrder` | run.py:51-55 | missing names keep the order of the required list |
| `LessonChecker.NoneMissingIffAllBound` | run.py:51-57 | nothing is missing iff the run bound every required name |
| `LessonChecker.PartitionRequired` | run.py:48-55 | the partition loop builds exactly the present map and the missing list |
| `LessonChecker.LessonResult` | run.py:31-78 | a lesson's result carries the lesson's name and is never `skipped` |
| `LessonChecker.ErrorIffRaised` | run.py:72-78 | status is `error` iff the run raised; then details are empty and the message is `Error processing <name>: <err>` |
| `LessonChecker.FailedIffMissing` | run.py:57-63 | status is `failed` iff the run raised nothing and a required name is unbound; then the message is the prefix plus the missing names joined by `, `, and the details are exactly the bound required names with their renderings |
| `LessonChecker.PassedIffComplete` | run.py:64-70 | status is `passed` iff the run raised nothing and bound every required name; then the details are exactly the required names with their renderings |
| `LessonChecker.UnknownLessonPasses` | run.py:42-70 | a lesson missing from the table that raises nothing passes, with empty details |
| `LessonChecker.CheckLesson` | run.py:31-78 | the per-lesson `try` block and handler compute the result specified by `LessonResult` |
| `LessonChecker.Lesson1Passes` | run.py:43-44 | a `lesson_1` run binding its three names passes, with exactly those three names as details |
| `LessonChecker.Lesson2MissingFlagFails` | run.py:45-63 | a `lesson_2` run binding `data_processed` but not `transformation_applied` fails, naming only that flag, with only `data_processed` in its details |
| `LessonChecker.CheckLessons` | run.py:21-80 | the checker always produces at least one result |
| `LessonChecker.OneResultPerLesson` | run.py:21-31 | no lesson file gives exactly the one `skipped` result; otherwise there is one result per lesson file, in discovery order, named after the file's stem, and none is `skipped` |
| `LessonChecker.SkippedIffNoLessons` | run.py:21-28 | a `skipped` result appears iff no lesson file was found |
| `LessonChecker.LessonsIsolated` | run.py:30-78 | given each lesson's own outcome, its result is fixed: the other lessons' outcomes do not enter it |
| `LessonChecker.CheckPythonLessons` | run.py:9-80 | `check_python_lessons` returns exactly the results specified by `CheckLessons` |
| `LessonChecker.CountsPartition` | run.py:97-101 | the four status counts add up to the number of results |
| `LessonChecker.MakeReport` | run.py:95-103 | `total_tests == len(results) == passed + failed + skipped + errors`, and the report keeps the results |
| `LessonChecker.NoLessonsReport` | run.py:21-28 | with no lesson file the report has one test, and it is skipped; the other counts are 0 |
| `LessonChecker.LessonsReport` | run.py:95-103 | with lesson files there is one test per file and none is skipped; `errors` is the number of lesson files whose run raised |
| `StableSort.SortDesc` | homework/lesson_2.py:21 | `sorted` returns a permutation of its input |
| `StableSort.SortDescSorted` | homework/lesson_2.py:21 | with `reverse=True` the result is in non-increasing key order |
| `StableSort.SortDescStable` | homework/lesson_2.py:21 | the elements with any one key keep their input order |
| `StableSort.SortDescMap` | homework/lesson_2.py:21 | sorting dict objects by keys read once from each, then taking contents, equals sorting the contents by price |
| `Lesson2.WithDiscount` | homework/lesson_2.py:16-17 | a processed item is its source item plus `discounted_price`; every other field is unchanged, and so is the price |
| `Lesson2.ProcessedPermutation` | homework/lesson_2.py:11-21 | the output is a permutation of the copies of the items priced above 75, so it has as many items as there are such input items |
| `Lesson2.ProcessedFromSource` | homework/lesson_2.py:11-18 | every output item is the copy of an input item priced above 75, so its price is above 75 |
| `Lesson2.ProcessedComplete` | homework/lesson_2.py:11-18 | every input item priced above 75 has its copy in the output |
| `Lesson2.ProcessedSorted` | homework/lesson_2.py:21 | the output is in non-increasing price order |
| `Lesson2.ProcessedStable` | homework/lesson_2.py:21 | the output items of any one price are the copies of the input items of that price, in input order |
| `Lesson2.ExpensiveDicts` | homework/lesson_2.py:11 | the contents of the kept dicts are the input contents priced above 75, in order, and every kept dict is one of the input dicts |
| `Lesson2.ExpensiveDictsKeepObjects` | homework/lesson_2.py:11 | the kept dicts are exactly the input dict objects whose entries are priced above 75, in input order, so dicts with equal entries keep their order |
| `Lesson2.AddDiscounts` | homework/lesson_2.py:14-18 | the copy loop returns new, pairwise distinct dicts, each the copy of the matching input dict plus `discounted_price` |
| `Lesson2.SortByPrice` | homework/lesson_2.py:21 | the sort returns the same dict objects, permuted, with contents sorted by price |
| `Lesson2.ProcessData` | homework/lesson_2.py:8-23 | `process_data` returns new, pairwise distinct dicts whose contents are the filtered, copied and sorted items; with no `modifies` clause, the input list and its dicts stay unchanged |
| `Lesson2.Dict.Copy` | homework/lesson_2.py:16 | `copy()` returns a new dict with the same entries |
| `Lesson2.Dict.SetItem` | homework/lesson_2.py:17 | assigning a key changes that key only |
| `Lesson2.RawDataProcessed` | homework/lesson_2.py:2-26 | on `raw_data` the output is the copy of Product C (200), then that of Product A (100); Product B (50) is dropped |
| `Lesson2.Script` | homework/lesson_2.py:2-29 | the script binds `data_processed` to those two copies and sets `transformation_applied` to true |

## Left out

- Directory enumeration and glob matching are not modelled. The entries arrive as `files`, in whatever order the filesystem yields. The glob matches only the name pattern: case-insensitive filesystems and directories with lesson-like names are not modelled.
- Loading and running a lesson file (`importlib`, `exec_module`) is the parameter `execute`. The model therefore assumes a run is deterministic and terminates. A run that hangs would hang the real checker.
- LessonChecker.LessonsIsolated: all lessons run in one interpreter, so a lesson can change shared state (for example `builtins.str`, a file or an environment variable) before it raises, and that can change what a later lesson binds or how its values render. The model assumes no run's outcome depends on an earlier run, and the lemma states only that a result is fixed by that lesson's own outcome.
- `BaseException`s that are not `Exception`s, such as `SystemExit` raised by a lesson, escape `except Exception` and abort the real run. They are not modelled.
- An exception raised by `hasattr` or by `str()` on a bound value is folded into `Raised`. That matches the source: the handler discards the partial details and records `error`.
- `str()` of a value is an opaque string in the namespace. Python's rendering rules are not modelled.
- In `main`: the `RESULTS_DIR` lookup, directory creation, the JSON dump to `results.xml`, the timestamp and the summary `print`. These are I/O and the clock, so `Report` has no timestamp field.
- Lesson2.Price: gives 0 for an item without a numeric `price`, so `Processed` drops such an item where Python would raise. That case is never reached under `ProcessData`'s precondition.
- Lesson2.ProcessData: requires every input dict to have a numeric `price`. Python would raise `KeyError` or `TypeError` on such an item, and the source does not handle that.
- Prices are integers, not floats. `discounted_price` is recorded as `Scaled(price)`, a stand-in for the float `price * 0.9`, whose IEEE value is not computed.
- Item dictionaries have string keys only. Values are numbers, strings or the scaled price.
- The `print` loop at the end of `homework/lesson_2.py` is output only.
- homework/lesson_1.py is not part of this model. It is straight-line code on constants, with no branch or data structure to reason about.
