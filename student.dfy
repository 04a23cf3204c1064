/**
  The student record: an identity, a name and the marks recorded per subject.
  Marks enter one at a time through a range check; the record converts to
  and from a dictionary with the keys "student_id", "name" and "subjects".
 */
module Students {
  import opened Wrappers
  import opened Marks

  /** The exceptions a student raises. */
  datatype Error =
    | ValueError(message: string)  // a mark outside [0, 100]
    | KeyError(key: string)        // a required dictionary key is missing

  /** The message `add_marks` raises with. */
  const MarksMessage := "Marks should exceed 0 but not more than 100"

  const StudentIdKey := "student_id"
  const NameKey := "name"

  /**
    The dictionary form of a student. A field is None when the dictionary
    lacks that key.
   */
  datatype StudentDict = StudentDict(
    studentId: Option<int>,
    name: Option<string>,
    subjects: Option<map<string, real>>)

  /** The state of one student, as a value. */
  datatype StudentFields = StudentFields(studentId: int, name: string, subjects: map<string, real>)

  /**
    What `from_dict` makes of a dictionary: "student_id" is looked up first,
    then "name", and either missing raises KeyError; a missing "subjects"
    yields no marks. The marks are taken as they are, without a range check.
   */
  function Decode(data: StudentDict): (r: Result<StudentFields, Error>)
    ensures r.Failure? <==> data.studentId.None? || data.name.None?
    ensures data.studentId.None? ==> r == Failure(KeyError(StudentIdKey))
    ensures data.studentId.Some? && data.name.None? ==> r == Failure(KeyError(NameKey))
    ensures r.Success? ==> r.value.studentId == data.studentId.value && r.value.name == data.name.value
    ensures r.Success? && data.subjects.None? ==> r.value.subjects == map[]
    ensures r.Success? && data.subjects.Some? ==> r.value.subjects == data.subjects.value
  {
    match (data.studentId, data.name)
    case (None, _) => Failure(KeyError(StudentIdKey))
    case (Some(_), None) => Failure(KeyError(NameKey))
    case (Some(id), Some(name)) =>
      var subjects := match data.subjects
        case None => map[]
        case Some(m) => m;
      Success(StudentFields(id, name, subjects))
  }

  /** The dictionary a decoded dictionary re-encodes to: the same, with "subjects" always present. */
  function Normalized(data: StudentDict): (d: StudentDict)
    ensures d.studentId == data.studentId && d.name == data.name && d.subjects.Some?
    ensures data.subjects.Some? ==> d == data
  {
    match data.subjects
    case None => data.(subjects := Some(map[]))
    case Some(_) => data
  }

  class Student {
    var studentId: int
    var name: string
    var subjects: map<string, real>

    /** Every recorded mark lies in [0, 100]. */
    ghost predicate Valid()
      reads this
    {
      AllInRange(subjects)
    }

    /** This student's state as a value. */
    ghost function Fields(): StudentFields
      reads this
    {
      StudentFields(studentId, name, subjects)
    }

    /** `__init__`: a new student has no marks. */
    constructor (studentId: int, name: string)
      ensures this.studentId == studentId && this.name == name
      ensures subjects == map[]
      ensures Valid()
    {
      this.studentId := studentId;
      this.name := name;
      subjects := map[];
    }

    /**
      `add_marks`: a mark in [0, 100] (both ends included) is recorded under
      the subject, replacing any earlier mark for it; any other mark raises
      ValueError and changes nothing. Identity and name never change.
     */
    method AddMarks(subject: string, marks: real) returns (r: Outcome<Error>)
      modifies this`subjects
      ensures r.Pass? <==> InRange(marks)
      ensures r.Fail? ==> r.error == ValueError(MarksMessage) && subjects == old(subjects)
      ensures r.Pass? ==> subjects == old(subjects)[subject := marks]
      ensures studentId == old(studentId) && name == old(name)
      ensures old(Valid()) ==> Valid()
    {
      if !(0.0 <= marks <= 100.0) {
        return Fail(ValueError(MarksMessage));
      }
      subjects := subjects[subject := marks];
      return Pass;
    }

    /** `to_dict`: the dictionary of this student, which decodes back to the same student. */
    function ToDict(): (d: StudentDict)
      reads this
      ensures Decode(d) == Success(StudentFields(studentId, name, subjects))
    {
      StudentDict(Some(studentId), Some(name), Some(subjects))
    }

    /**
      `from_dict`: a new student built from the dictionary as Decode says, or
      the KeyError Decode gives. Its dictionary is the input's, with "subjects"
      filled in when it was missing.
     */
    static method FromDict(data: StudentDict) returns (r: Result<Student, Error>)
      ensures r.Success? <==> Decode(data).Success?
      ensures r.Failure? ==> r.error == Decode(data).error
      ensures r.Success? ==> fresh(r.value) && r.value.Fields() == Decode(data).value
      ensures r.Success? ==> r.value.ToDict() == Normalized(data)
    {
      if data.studentId.None? {
        return Failure(KeyError(StudentIdKey));
      }
      if data.name.None? {
        return Failure(KeyError(NameKey));
      }
      var s := new Student(data.studentId.value, data.name.value);
      s.subjects := if data.subjects.Some? then data.subjects.value else map[];
      return Success(s);
    }
  }

  /** `from_dict(s.to_dict())` is a new student with the same identity, name and marks as `s`. */
  method RoundTrip(s: Student) returns (t: Student)
    ensures fresh(t) && t.Fields() == s.Fields()
  {
    var r := Student.FromDict(s.ToDict());
    t := r.value;
  }

  /**
    A student made by the constructor and changed only by AddMarks keeps every
    mark in [0, 100]: recording Math 90 and Science 70 for Alice gives an
    average of 80 and an A.
   */
  method AliceExample() returns (s: Student)
    ensures fresh(s) && s.Valid()
    ensures s.subjects == map["Math" := 90.0, "Science" := 70.0]
    ensures Average(s.subjects) == 80.0 && Grade(s.subjects) == "A"
  {
    s := new Student(1, "Alice");
    var r1 := s.AddMarks("Math", 90.0);
    var r2 := s.AddMarks("Science", 70.0);
    assert s.subjects == map["Math" := 90.0]["Science" := 70.0];
    SumAfterRecord(map["Math" := 90.0], "Science", 70.0);
    AverageOfOne("Math", 90.0);
    assert |s.subjects| == 2 by {
      assert s.subjects.Keys == {"Math", "Science"};
    }
  }
}
