/** The constant tables of src/utils/constants.js that the event form uses. */
module Constants {

  datatype College = College(value: string, name: string)

  const COLLEGES: seq<College> := [
    College("CICT", "College of ICT"),
    College("CBM", "College of Business & Management"),
    College("CAS", "College of Arts & Sciences"),
    College("COE", "College of Education"),
    College("CON", "College of Nursing"),
    College("PESCAR", "College of PESCAR"),
    College("COM", "College of Medicine"),
    College("COD", "College of Dentistry"),
    College("COL", "College of Law"),
    College("COC", "College of Communication")
  ]

  const YEAR_LEVELS: seq<string> := ["1st years", "2nd years", "3rd years", "4th years"]

  const ALL_STUDENTS := "All Students"

  /** `colleges.map(c => c.value)`. */
  function CollegeValues(colleges: seq<College>): (values: seq<string>)
    ensures |values| == |colleges|
    ensures forall i :: 0 <= i < |colleges| ==> values[i] == colleges[i].value
  {
    if colleges == [] then [] else [colleges[0].value] + CollegeValues(colleges[1..])
  }

  /** The audiences an event can target. */
  const SCOPES: seq<string> := [ALL_STUDENTS] + YEAR_LEVELS + CollegeValues(COLLEGES)

  /** `SCOPES` is "All Students", then the year levels, then the college codes, each in order. */
  lemma ScopesLayout()
    ensures |SCOPES| == 1 + |YEAR_LEVELS| + |COLLEGES| == 15
    ensures SCOPES[0] == ALL_STUDENTS
    ensures SCOPES[1..5] == YEAR_LEVELS
    ensures forall i :: 0 <= i < |COLLEGES| ==> SCOPES[5 + i] == COLLEGES[i].value
  {
  }

  /** The college codes, in the order `COLLEGES` lists them. */
  lemma CollegeCodes()
    ensures CollegeValues(COLLEGES) == ["CICT", "CBM", "CAS", "COE", "CON", "PESCAR", "COM", "COD", "COL", "COC"]
  {
    var vs := CollegeValues(COLLEGES);
    assert |vs| == 10;
    assert vs[0] == COLLEGES[0].value;
  }

  const LISTED_SCOPES: seq<string> := ["All Students", "1st years", "2nd years", "3rd years", "4th years",
                                       "CICT", "CBM", "CAS", "COE", "CON", "PESCAR", "COM", "COD", "COL", "COC"]

  lemma ScopesListed()
    ensures SCOPES == LISTED_SCOPES
  {
    CollegeCodes();
  }

  /** No audience is listed twice. */
  lemma ScopesDistinct()
    ensures forall i, j :: 0 <= i < j < |SCOPES| ==> SCOPES[i] != SCOPES[j]
  {
    var listed := ["All Students", "1st years", "2nd years", "3rd years", "4th years",
                   "CICT", "CBM", "CAS", "COE", "CON", "PESCAR", "COM", "COD", "COL", "COC"];
    assert forall i, j :: 0 <= i < j < |listed| ==> listed[i] != listed[j];
    ScopesListed();
    assert SCOPES == listed;
  }
}
