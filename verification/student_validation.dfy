/**
 * Student account checks on the booking page: one slot per co-student, each
 * validated against the student directory by id or e-mail.
 */
module StudentValidation {
  import opened Wrappers
  import opened Lists
  import opened Text

  datatype AccountStatus = Active | Suspended

  datatype Student = Student(id: string, email: string, name: string, status: AccountStatus)

  /** The mock student directory. */
  const MockStudents: seq<Student> := [
    Student("STU001", "john.doe@university.edu", "John Doe", Active),
    Student("STU002", "jane.smith@university.edu", "Jane Smith", Active),
    Student("STU003", "mike.johnson@university.edu", "Mike Johnson", Active),
    Student("STU004", "sarah.wilson@university.edu", "Sarah Wilson", Active),
    Student("STU005", "alex.brown@university.edu", "Alex Brown", Suspended)
  ]

  const NotFound: string := "Account not found"
  const SuspendedError: string := "Account suspended"

  datatype LookupResult = Found(student: Student) | Failed(error: string)

  /** A directory entry answers to its id or its e-mail, ignoring case. */
  predicate Matches(s: Student, query: string) {
    ToLower(s.id) == ToLower(query) || ToLower(s.email) == ToLower(query)
  }

  /** `validateStudentAccount`: the first matching entry, rejected unless active. */
  function Lookup(students: seq<Student>, query: string): (r: LookupResult)
    ensures r == Failed(NotFound) <==> forall i :: 0 <= i < |students| ==> !Matches(students[i], query)
    ensures r == Failed(SuspendedError) <==>
              exists i :: 0 <= i < |students| && Matches(students[i], query) && students[i].status != Active
                          && forall j :: 0 <= j < i ==> !Matches(students[j], query)
    ensures r.Found? ==> r.student in students && Matches(r.student, query) && r.student.status == Active
  {
    match FirstIndex(students, (s: Student) => Matches(s, query))
    case None => Failed(NotFound)
    case Some(i) => if students[i].status != Active then Failed(SuspendedError) else Found(students[i])
  }

  /** The lookup does not depend on the case of the query. */
  lemma LookupIgnoresCase(students: seq<Student>, query: string)
    ensures Lookup(students, ToUpper(query)) == Lookup(students, query)
  {
    LowerOfUpper(query);
    FirstIndexCongruent(students, (s: Student) => Matches(s, ToUpper(query)), (s: Student) => Matches(s, query));
  }

  /** The first entry answering to a query decides the lookup. */
  lemma FirstMatchDecides(ms: seq<Student>, q: string, i: int)
    requires 0 <= i < |ms| && Matches(ms[i], q)
    requires forall j :: 0 <= j < i ==> !Matches(ms[j], q)
    ensures Lookup(ms, q) == if ms[i].status == Active then Found(ms[i]) else Failed(SuspendedError)
  {
  }

  /** A directory id answers to itself in lower case. */
  lemma LowerCaseIdFound()
    ensures Lookup(MockStudents, "stu001") == Found(MockStudents[0])
  {
    assert ToLower("STU001") == "stu001";
    assert ToLower("stu001") == "stu001";
    assert Matches(MockStudents[0], "stu001");
    FirstMatchDecides(MockStudents, "stu001", 0);
  }

  /** One validation slot. */
  datatype Slot = Slot(
    id: string,
    studentId: string,
    isValidating: bool,
    isValid: bool,
    studentData: Option<Student>,
    error: Option<string>)

  /** The slot created for position `i`: `student-{i+1}`, empty and unvalidated. */
  function FreshSlot(i: nat): (s: Slot)
    ensures s.id == "student-" + NatToString(i + 1)
    ensures s.studentId == "" && !s.isValidating && !s.isValid && s.studentData.None? && s.error.None?
  {
    Slot("student-" + NatToString(i + 1), "", false, false, None, None)
  }

  /** The slot list after a resize to `n`: existing slots keep their position. */
  function Resized(prev: seq<Slot>, n: int): (r: seq<Slot>)
    ensures |r| == if n > 0 then n else 0
    ensures forall i :: 0 <= i < |r| && i < |prev| ==> r[i] == prev[i]
    ensures forall i :: |prev| <= i < |r| ==> r[i] == FreshSlot(i)
  {
    seq(if n > 0 then n else 0, (i: int) requires 0 <= i => if i < |prev| then prev[i] else FreshSlot(i))
  }

  /** The resize effect, as the loop the component runs. */
  method Resize(prev: seq<Slot>, n: int) returns (slots: seq<Slot>)
    ensures slots == Resized(prev, n)
  {
    slots := [];
    var i := 0;
    while i < n
      invariant 0 <= i <= (if n > 0 then n else 0)
      invariant |slots| == i
      invariant forall j :: 0 <= j < i ==> slots[j] == (if j < |prev| then prev[j] else FreshSlot(j))
    {
      slots := slots + [if i < |prev| then prev[i] else FreshSlot(i)];
      i := i + 1;
    }
    assert |slots| == |Resized(prev, n)|;
  }

  /** Resizing in two steps equals resizing once, unless the first step dropped slots
      the second one brings back (they come back fresh). */
  lemma ResizeTwice(prev: seq<Slot>, m: int, n: int)
    requires n <= m || |prev| <= m
    ensures Resized(Resized(prev, m), n) == Resized(prev, n)
  {
  }

  /** What the parent is told: every slot valid (and at least one), and the valid slots. */
  function Report(slots: seq<Slot>): (r: (bool, seq<Slot>))
    ensures r.0 <==> |slots| > 0 && forall i :: 0 <= i < |slots| ==> slots[i].isValid
    ensures forall i :: 0 <= i < |r.1| ==> r.1[i].isValid && r.1[i] in slots
    ensures forall i :: 0 <= i < |slots| && slots[i].isValid ==> slots[i] in r.1
  {
    (|slots| > 0 && forall i :: 0 <= i < |slots| ==> slots[i].isValid,
     Filter(slots, (s: Slot) => s.isValid))
  }

  /** All valid exactly when the list is non-empty and the valid list is the whole list. */
  lemma AllValidIffNothingFiltered(slots: seq<Slot>)
    ensures Report(slots).0 <==> |slots| > 0 && Report(slots).1 == slots
  {
    FilterKeepsAll(slots, (s: Slot) => s.isValid);
  }

  /** `Partial<Slot>`: the fields a patch sets. */
  datatype Patch = Patch(
    studentId: Option<string>,
    isValidating: Option<bool>,
    isValid: Option<bool>,
    studentData: Option<Option<Student>>,
    error: Option<Option<string>>)

  /** `{ ...slot, ...patch }` */
  function Merge(s: Slot, d: Patch): (r: Slot)
    ensures r.id == s.id
    ensures r.studentId == d.studentId.GetOr(s.studentId)
    ensures r.isValidating == d.isValidating.GetOr(s.isValidating)
    ensures r.isValid == d.isValid.GetOr(s.isValid)
    ensures r.studentData == d.studentData.GetOr(s.studentData)
    ensures r.error == d.error.GetOr(s.error)
  {
    Slot(s.id, d.studentId.GetOr(s.studentId), d.isValidating.GetOr(s.isValidating),
         d.isValid.GetOr(s.isValid), d.studentData.GetOr(s.studentData), d.error.GetOr(s.error))
  }

  /** `updateSlot(i, d)`: slot `i` takes the patch, every other slot is untouched; an
      index outside the list changes nothing. */
  function UpdateSlot(slots: seq<Slot>, i: int, d: Patch): (r: seq<Slot>)
    ensures |r| == |slots|
    ensures 0 <= i < |slots| ==> r[i] == Merge(slots[i], d)
    ensures forall j :: 0 <= j < |slots| && j != i ==> r[j] == slots[j]
  {
    seq(|slots|, (j: int) requires 0 <= j < |slots| => if j == i then Merge(slots[j], d) else slots[j])
  }

  const NoPatch: Patch := Patch(None, None, None, None, None)

  /** `handleValidate(i)`: nothing for a blank id; otherwise the slot is marked as
      validating, then receives the lookup's verdict for the trimmed id. Both states
      are returned. */
  function HandleValidate(students: seq<Student>, slots: seq<Slot>, i: int): (r: (seq<Slot>, seq<Slot>))
    requires 0 <= i < |slots|
    ensures |r.0| == |slots| && |r.1| == |slots|
    ensures Trim(slots[i].studentId) == "" ==> r == (slots, slots)
    ensures Trim(slots[i].studentId) != "" ==>
              var res := Lookup(students, Trim(slots[i].studentId));
              r.0[i].isValidating && r.0[i].error.None?
              && !r.1[i].isValidating
              && (r.1[i].isValid <==> res.Found?)
              && (res.Found? ==> r.1[i].studentData == Some(res.student) && r.1[i].error.None?)
              && (res.Failed? ==> r.1[i].studentData.None? && r.1[i].error == Some(res.error))
              && r.1[i].studentId == slots[i].studentId
    ensures forall j :: 0 <= j < |slots| && j != i ==> r.0[j] == slots[j] && r.1[j] == slots[j]
  {
    if Trim(slots[i].studentId) == "" then (slots, slots)
    else
      var mid := UpdateSlot(slots, i, NoPatch.(isValidating := Some(true), error := Some(None)));
      var res := Lookup(students, Trim(slots[i].studentId));
      var verdict := match res
        case Found(s) => NoPatch.(isValidating := Some(false), isValid := Some(true),
                                  studentData := Some(Some(s)), error := Some(None))
        case Failed(e) => NoPatch.(isValidating := Some(false), isValid := Some(false),
                                   studentData := Some(None), error := Some(Some(e)));
      (mid, UpdateSlot(mid, i, verdict))
  }

  /** Typing into a slot's id field: the new id, not valid, no error. */
  function EditStudentId(slots: seq<Slot>, i: int, text: string): (r: seq<Slot>)
    ensures |r| == |slots|
    ensures 0 <= i < |slots| ==> r[i].studentId == text && !r[i].isValid && r[i].error.None?
    ensures forall j :: 0 <= j < |slots| && j != i ==> r[j] == slots[j]
  {
    UpdateSlot(slots, i, NoPatch.(studentId := Some(text), isValid := Some(false), error := Some(None)))
  }

  /** After an edit the group is no longer all valid. */
  lemma EditClearsAllValid(slots: seq<Slot>, i: int, text: string)
    requires 0 <= i < |slots|
    ensures !Report(EditStudentId(slots, i, text)).0
    ensures EditStudentId(slots, i, text)[i] !in Report(EditStudentId(slots, i, text)).1
  {
    var r := EditStudentId(slots, i, text);
    assert !r[i].isValid;
  }

  /** The Validate button is disabled for a blank id, while validating, and once valid. */
  function ValidateDisabled(s: Slot): (disabled: bool)
    ensures !disabled ==> Trim(s.studentId) != "" && !s.isValidating && !s.isValid
  {
    Trim(s.studentId) == "" || s.isValidating || s.isValid
  }
}
