/**
 * The transform of the introductory job: build a new person whose names are the
 * input's names upper-cased, a null name becoming the empty string.
 */
module PersonProcessing {
  import opened Wrappers
  import opened Ascii
  import opened Domain

  /** PersonProcessor.process. The input is a value and stays as it was; the result is
      never null, so every person is written. */
  function ProcessPerson(p: Person): (r: Option<Person>)
    ensures r.Some?
    ensures r.value.firstName.Some? && r.value.lastName.Some?
    ensures p.firstName.None? ==> r.value.firstName.value == ""
    ensures p.lastName.None? ==> r.value.lastName.value == ""
    ensures p.firstName.Some? ==>
      |r.value.firstName.value| == |p.firstName.value| &&
      forall i :: 0 <= i < |p.firstName.value| ==> r.value.firstName.value[i] == UpperChar(p.firstName.value[i])
    ensures p.lastName.Some? ==>
      |r.value.lastName.value| == |p.lastName.value| &&
      forall i :: 0 <= i < |p.lastName.value| ==> r.value.lastName.value[i] == UpperChar(p.lastName.value[i])
  {
    var first := if p.firstName.Some? then Upper(p.firstName.value) else "";
    var last := if p.lastName.Some? then Upper(p.lastName.value) else "";
    Some(Person(Some(first), Some(last)))
  }

  /** Processing a processed person gives the same names again. */
  lemma {:induction false} ProcessPersonIdempotent(p: Person)
    ensures ProcessPerson(ProcessPerson(p).value) == ProcessPerson(p)
  {
    if p.firstName.Some? {
      UpperIdempotent(p.firstName.value);
    }
    if p.lastName.Some? {
      UpperIdempotent(p.lastName.value);
    }
  }

  /** No lower-case letter survives in a processed name. */
  lemma {:induction false} ProcessPersonNoLowerCase(p: Person)
    ensures var r := ProcessPerson(p).value;
      (forall i :: 0 <= i < |r.firstName.value| ==> !IsLowerLetter(r.firstName.value[i])) &&
      (forall i :: 0 <= i < |r.lastName.value| ==> !IsLowerLetter(r.lastName.value[i]))
  {
    if p.firstName.Some? {
      UpperIdempotent(p.firstName.value);
    }
    if p.lastName.Some? {
      UpperIdempotent(p.lastName.value);
    }
  }
}
