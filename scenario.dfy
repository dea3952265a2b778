/** The scenario catalog's entities, and the lookup of a demographic's income by its code. */
module Scenario {

  datatype Option<T> = None | Some(value: T)

  datatype Result<T, E> = Ok(value: T) | Err(error: E)

  /** One fictional applicant: a short code (used as a join key), a display name,
      an occupation and a yearly income in pounds. */
  datatype Demographic = Demographic(code: string, name: string, occupation: string, income: int)

  /** The perspective and style values used by both scripts. */
  const FirstPerson: string := "first-person"
  const ThirdPerson: string := "third-person"
  const Standardized: string := "standardized"
  const Naturalistic: string := "naturalistic"

  ghost predicate UniqueCodes(demographics: seq<Demographic>) {
    forall i, j :: 0 <= i < j < |demographics| ==> demographics[i].code != demographics[j].code
  }

  /** `next(d["income"] for d in demographics if d["code"] == code)`: the income of the
      FIRST demographic with that code, or None where Python raises StopIteration. */
  function LookupIncome(demographics: seq<Demographic>, code: string): (r: Option<int>)
    ensures r.None? <==> forall i :: 0 <= i < |demographics| ==> demographics[i].code != code
    ensures r.Some? ==> exists i :: 0 <= i < |demographics| && demographics[i].code == code
                                   && r.value == demographics[i].income
                                   && forall j :: 0 <= j < i ==> demographics[j].code != code
  {
    if demographics == [] then None
    else if demographics[0].code == code then Some(demographics[0].income)
    else
      var r := LookupIncome(demographics[1..], code);
      assert forall i :: 1 <= i < |demographics| ==> demographics[i] == demographics[1..][i - 1];
      r
  }

  /** With unique codes, looking up the code of demographic d yields d's own income. */
  lemma LookupOwnIncome(demographics: seq<Demographic>, d: nat)
    requires UniqueCodes(demographics)
    requires d < |demographics|
    ensures LookupIncome(demographics, demographics[d].code) == Some(demographics[d].income)
  {
    var r := LookupIncome(demographics, demographics[d].code);
    var i :| 0 <= i < |demographics| && demographics[i].code == demographics[d].code
             && r.value == demographics[i].income
             && forall j :: 0 <= j < i ==> demographics[j].code != demographics[d].code;
    assert i == d;
  }
}
