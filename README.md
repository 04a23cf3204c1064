# Student record model

A Dafny model of the `Student` record of the Student Management System
(`sm.py`). A student has an integer `student_id`, a `name` and a map from
subject name to mark. Marks enter one at a time through `add_marks`, which
accepts exactly the marks in [0, 100]. `average` is the mean of the recorded
marks, 0.0 when there are none. `grade` maps the average to a letter through
bands closed at their lower bound: A from 70, B from 60, C from 50, D from 40,
FAIL below 40. `to_dict` and `from_dict` convert a student to and from a
dictionary with the keys `student_id`, `name` and `subjects`.

Files:

- `wrappers.dfy` (module `Wrappers`): `Option`, `Result` and `Outcome`, used in
  place of missing dictionary keys and raised exceptions.
- `marks.dfy` (module `Marks`): the pure part. It holds the range check, the
  sum and the mean of a marks map, the grade bands, and the lemmas about them.
- `student.dfy` (module `Students`): the class `Student`, whose fields are
  updated in place, its dictionary form `StudentDict`, and `Decode`, the value
  `from_dict` computes.

Modelling decisions:

- Marks are `real`. The mean is exact arithmetic, not floating point.
- The sum of a map's values is defined by taking the keys out in an arbitrary
  order. `SumOverRemove` proves that any key may be taken out first, so the
  sum does not depend on the dictionary's order. Because of that choice,
  `Sum`, `Average` and `Grade` are ghost functions.
- `add_marks` raises `ValueError`; the model returns `Fail(ValueError(..))`
  with the source's message. `from_dict` raises `KeyError` for a missing
  `student_id` (looked up first) or `name`; the model returns
  `Failure(KeyError(..))`.
- `AddMarks` does not require the range invariant. A student from
  `from_dict` may hold out-of-range marks, because `from_dict` does not check
  them. `AddMarks` instead preserves the invariant when it held before.
- The code types `student_id` as `int`; the model follows the code.
- The error message says marks "should exceed 0", but the check is `0 <= marks`.
  A mark of 0 is accepted, as `AddMarks` states.

## Model

| member | source | states |
|---|---|---|
| Students.Student.constructor | sm.py:6-9 | a new student has the given id and name, no marks, and satisfies the range invariant |
| Students.Student.AddMarks | sm.py:10-13 | succeeds exactly when 0 <= marks <= 100; on success the mark is recorded under the subject, replacing an earlier one, and no other entry changes; on failure it raises ValueError with the source's message and changes nothing; id and name never change; the range invariant is preserved |
| Marks.InRange | sm.py:11 | a mark is accepted exactly when 0 <= marks <= 100, both bounds included |
| Marks.Sum | sm.py:18 | the sum of no marks is 0, and n marks that all lie in [0, 100] sum to between 0 and n * 100 |
| Marks.SumOverRemove | sm.py:18 | the sum of the marks equals any one mark plus the sum of the others, so the sum does not depend on the order of the values |
| Marks.SumOverBounds | sm.py:18 | if every mark lies in [lo, hi], the sum of n marks lies between n copies of lo and n copies of hi added up |
| Marks.SumAfterRecord | sm.py:13-18 | recording a mark changes the sum by the new mark minus the mark it replaces (or minus nothing for a new subject) |
| Marks.Average | sm.py:15-18 | the average is 0.0 when no mark is recorded, and in every case the average times the number of marks is their sum |
| Marks.AverageWithin | sm.py:15-18 | the mean of a non-empty marks map lies between any lower and upper bound of its marks |
| Marks.AverageInRange | sm.py:11-18 | if every recorded mark is in [0, 100], the average is in [0, 100] too |
| Marks.AverageOfOne | sm.py:16-18 | the average of a single mark is that mark |
| Marks.AverageOfTwoExample | sm.py:15-18 | the average of {A: 80, B: 60} is 70 |
| Marks.Grade | sm.py:21-32 | the grade is A exactly when the average is at least 70, B exactly when it is in [60, 70), C in [50, 60), D in [40, 50), and FAIL exactly when it is below 40 |
| Marks.GradeMonotone | sm.py:21-32 | a higher average never earns a lower grade |
| Marks.GradeBoundaryExamples | sm.py:21-32 | an average of 70 earns A, 69.9 earns B, 40 earns D, and 39.9 earns FAIL |
| Students.Decode | sm.py:40-44 | a missing student_id gives KeyError("student_id"), otherwise a missing name gives KeyError("name"); otherwise the id and name are taken as they are, and the marks are the given map, or no marks when "subjects" is missing |
| Students.Student.ToDict | sm.py:34-39 | decoding the dictionary of a student gives back the same id, name and marks |
| Students.Student.FromDict | sm.py:40-44 | builds a fresh student exactly when Decode succeeds, with Decode's fields, and otherwise returns Decode's KeyError; the new student's dictionary is the input with "subjects" filled in |
| Students.RoundTrip | sm.py:34-44 | `from_dict(to_dict(s))` never fails and yields a new student with the same id, name and marks as `s` |
| Students.AliceExample | sm.py:6-32 | a student built by the constructor, with Math 90 and Science 70 recorded by AddMarks, keeps every mark in [0, 100], has average 80 and earns A |

## Left out

- `StudentMangement` (sm.py:46-47) is an empty class. The roster operations (add, delete, get, list) and their duplicate and not-found errors are not in the code, so there is nothing to model.
- JSON encoding and file I/O: `json` is imported but never used. The dictionary is modelled as the datatype `StudentDict`, not as text.
- The unused `symtable.Class` import, and the interactive menu, which is not in the code.
- Floating point: `sum(...) / len(...)` is modelled as exact division of reals. Rounding is not modelled, nor whether a float average just below 70 rounds up to 70. A NaN mark, which Python's range check rejects, has no counterpart in `real`.
- Python aliasing: `to_dict` returns the student's live `subjects` dict, and `from_dict` adopts the caller's dict. The model uses immutable map values, so a later change through the alias is not modelled.
- Dynamic typing: the model's dictionary has typed fields. A "subjects" key holding a non-dict value, such as JSON null, and an id or name of another type are not modelled.
- Students.Student.FromDict: does not establish the [0, 100] invariant, because `from_dict` does not check the marks. `Valid()` holds after `FromDict` only when the given marks are in range.
