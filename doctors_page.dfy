/** The doctor directory (pages/Doctors.tsx): search, department filter and department names. */
module DoctorsPage {
  import opened Wrappers
  import opened Types
  import opened Seqs
  import opened Text

  /** The value of the department selector that disables the department filter. */
  const AllDepartments := "all"

  /** The two filter inputs: the search box and the department selector. */
  datatype Criteria = Criteria(searchTerm: string, selectedDept: string)

  /** The filters as the page first shows them. */
  const InitialCriteria := Criteria("", AllDepartments)

  /** The name or the qualification contains the search term, ignoring case. */
  predicate MatchesSearch(d: Doctor, term: string) {
    Contains(ToLower(d.name), ToLower(term)) || Contains(ToLower(d.qualification), ToLower(term))
  }

  predicate MatchesDept(d: Doctor, selectedDept: string) {
    selectedDept == AllDepartments || d.departmentId == selectedDept
  }

  predicate Matches(d: Doctor, c: Criteria) {
    MatchesSearch(d, c.searchTerm) && MatchesDept(d, c.selectedDept)
  }

  /** `filteredDoctors`: the doctors that match both filters, in directory order. */
  function FilteredDoctors(doctors: seq<Doctor>, c: Criteria): (r: seq<Doctor>)
    ensures IsSubsequence(r, doctors)
    ensures forall i :: 0 <= i < |r| ==> Matches(r[i], c)
    ensures forall i :: 0 <= i < |doctors| && Matches(doctors[i], c) ==> doctors[i] in r
    ensures forall x :: multiset(r)[x] == if Matches(x, c) then multiset(doctors)[x] else 0
  {
    FilterIsSubsequence(doctors, Matches, c);
    forall x ensures multiset(Filter(doctors, Matches, c))[x] == if Matches(x, c) then multiset(doctors)[x] else 0 {
      FilterMultiplicity(doctors, Matches, c, x);
    }
    Filter(doctors, Matches, c)
  }

  /** With an empty search and all departments, the whole directory is shown, unchanged. */
  lemma InitialFilterShowsAll(doctors: seq<Doctor>)
    ensures FilteredDoctors(doctors, InitialCriteria) == doctors
  {
    forall i | 0 <= i < |doctors| ensures Matches(doctors[i], InitialCriteria) {
      ContainsEmpty(ToLower(doctors[i].name));
    }
    FilterAllKept(doctors, Matches, InitialCriteria);
  }

  /** Filtering the shown list again with the same inputs changes nothing. */
  lemma FilterAgainChangesNothing(doctors: seq<Doctor>, c: Criteria)
    ensures FilteredDoctors(FilteredDoctors(doctors, c), c) == FilteredDoctors(doctors, c)
  {
    FilterIdempotent(doctors, Matches, c);
  }

  /** Typing the search term in lower case gives the same list as typing it in any case. */
  lemma SearchIgnoresCase(doctors: seq<Doctor>, term: string, dept: string)
    ensures FilteredDoctors(doctors, Criteria(ToLower(term), dept)) == FilteredDoctors(doctors, Criteria(term, dept))
  {
    ToLowerIdempotent(term);
    FilterCongruent(doctors, Matches, Criteria(ToLower(term), dept), Criteria(term, dept));
  }

  /** The "no doctors found" message shows exactly when no doctor matches. */
  function ShowsNoDoctorsFound(doctors: seq<Doctor>, c: Criteria): (shown: bool)
    ensures shown <==> forall i :: 0 <= i < |doctors| ==> !Matches(doctors[i], c)
  {
    var r := FilteredDoctors(doctors, c);
    assert r != [] ==> r[0] in doctors;
    |r| == 0
  }

  /**
   * `getDeptName`: the name of the first department with that id, or
   * "General" when there is none or its name is empty (`?.name || 'General'`).
   */
  function DeptName(departments: seq<Department>, id: string): (name: string)
    ensures (forall i :: 0 <= i < |departments| ==> departments[i].id != id) ==> name == "General"
    ensures forall i :: 0 <= i < |departments| && departments[i].id == id &&
                        (forall j :: 0 <= j < i ==> departments[j].id != id) ==>
                        name == (if departments[i].name == "" then "General" else departments[i].name)
  {
    match FirstIndex(departments, DepartmentIdIs, id)
    case None => "General"
    case Some(i) => if departments[i].name == "" then "General" else departments[i].name
  }
}
