/**
 * The transform of the customer import step: validate a customer, then normalise its
 * names and country in place. A null result means the row is not written.
 */
module CustomerProcessing {
  import opened Wrappers
  import opened Ascii
  import opened Domain

  const Unknown: string := "UNKNOWN"

  /** The capitalize helper exactly as written: None stands for the
      StringIndexOutOfBoundsException of charAt(0), raised when a value that is not
      blank still trims to the empty string (it holds only control characters that
      trim strips and isBlank does not count as whitespace). */
  function CapitalizeAsWritten(value: Option<string>): (r: Option<string>)
    ensures r.None? <==> value.Some? && !IsBlank(value.value) && Trim(value.value) == []
    ensures value.None? || IsBlank(value.value) ==> r == Some(Unknown)
  {
    if value.None? || IsBlank(value.value) then Some(Unknown)
    else
      var trimmed := Lower(Trim(value.value));
      if trimmed == [] then None
      else Some([UpperChar(trimmed[0])] + trimmed[1..])
  }

  /** The input that makes the helper as written throw: a single U+0000. */
  lemma CapitalizeAsWrittenThrows()
    ensures !IsBlank(['\0'])
    ensures CapitalizeAsWritten(Some(['\0'])).None?
    ensures Capitalize(Some(['\0'])) == Unknown
  {
    assert Trim(['\0']) == [];
  }

  /** Wherever the helper as written returns, the corrected helper returns the same. */
  lemma CapitalizeAgreesWithAsWritten(value: Option<string>)
    ensures CapitalizeAsWritten(value).Some? ==> CapitalizeAsWritten(value).value == Capitalize(value)
  {
    if value.Some? && IsBlank(value.value) {
      BlankTrimsToEmpty(value.value);
    }
  }

  /** The capitalize helper, corrected: a null value, or one that is blank or trims to
      nothing, becomes UNKNOWN; otherwise the trimmed value is lower-cased and its first
      character upper-cased. */
  function Capitalize(value: Option<string>): (r: string)
    ensures value.None? ==> r == Unknown
    ensures value.Some? && IsBlank(value.value) ==> r == Unknown
    ensures value.Some? && Trim(value.value) == [] ==> r == Unknown
    ensures value.Some? && Trim(value.value) != [] ==>
      |r| == |Trim(value.value)| &&
      r[0] == UpperChar(Trim(value.value)[0]) &&
      forall i :: 1 <= i < |r| ==> r[i] == LowerChar(Trim(value.value)[i])
  {
    if value.None? || IsBlank(value.value) || Trim(value.value) == [] then Unknown
    else CapitalizeTrimmed(Trim(value.value))
  }

  /** Lower-case a non-empty trimmed string and upper-case its first character. */
  function CapitalizeTrimmed(t: string): (r: string)
    requires t != []
    ensures |r| == |t| && r[0] == UpperChar(t[0])
    ensures forall i :: 1 <= i < |r| ==> r[i] == LowerChar(t[i])
  {
    var lowered := Lower(t);
    [UpperChar(lowered[0])] + lowered[1..]
  }

  /** Capitalising a capitalised name changes nothing. */
  lemma {:induction false} CapitalizeIdempotent(value: Option<string>)
    requires value.Some? && Trim(value.value) != []
    ensures Capitalize(Some(Capitalize(value))) == Capitalize(value)
  {
    var t := Trim(value.value);
    var r := Capitalize(value);
    assert r == CapitalizeTrimmed(t);
    CapitalizedIsTrimmed(t);
    assert Capitalize(Some(r)) == CapitalizeTrimmed(r);
    CapitalizeTrimmedIdempotent(t);
  }

  /** A capitalised trimmed word is already trimmed and not blank. */
  lemma CapitalizedIsTrimmed(t: string)
    requires t != [] && ' ' < t[0] && ' ' < t[|t| - 1]
    ensures Trim(CapitalizeTrimmed(t)) == CapitalizeTrimmed(t)
    ensures !IsBlank(CapitalizeTrimmed(t))
  {
    var r := CapitalizeTrimmed(t);
    CaseKeepsVisible(t[0]);
    CaseKeepsVisible(t[|t| - 1]);
    assert ' ' < r[|r| - 1];
    VisibleHeadNotBlank(r);
  }

  lemma CapitalizeTrimmedIdempotent(t: string)
    requires t != []
    ensures CapitalizeTrimmed(CapitalizeTrimmed(t)) == CapitalizeTrimmed(t)
  {
    var r := CapitalizeTrimmed(t);
    var r' := CapitalizeTrimmed(r);
    CaseIdempotent(t[0]);
    forall i | 1 <= i < |r|
      ensures r'[i] == r[i]
    {
      CaseIdempotent(t[i]);
    }
  }

  /** The fallback is not stable: a second pass turns UNKNOWN into Unknown. */
  lemma CapitalizeFallbackChanges()
    ensures Capitalize(None) == Unknown
    ensures Capitalize(Some(Unknown)) == "Unknown"
  {
    assert ' ' < Unknown[0] && ' ' < Unknown[|Unknown| - 1];
    assert Trim(Unknown) == Unknown;
    VisibleHeadNotBlank(Unknown);
    var r := CapitalizeTrimmed(Unknown);
    assert Capitalize(Some(Unknown)) == r;
    assert forall i :: 0 <= i < |r| ==> r[i] == "Unknown"[i];
  }

  /** CustomerProcessor.process on the record a customer holds. */
  function ProcessCustomer(c: Customer): (r: Option<Customer>)
    ensures r.None? <==>
      c.email.None? || '@' !in c.email.value ||
      c.purchaseAmount.None? || c.purchaseAmount.value <= 0.0
    ensures r.Some? ==>
      r.value.id == c.id && r.value.email == c.email && r.value.purchaseAmount == c.purchaseAmount
    ensures r.Some? ==>
      r.value.firstName == Some(Capitalize(c.firstName)) &&
      r.value.lastName == Some(Capitalize(c.lastName))
    ensures r.Some? && c.country.Some? ==> r.value.country == Some(Upper(c.country.value))
    ensures r.Some? && c.country.None? ==> r.value.country == Some(Unknown)
  {
    if c.email.None? || '@' !in c.email.value then None
    else if c.purchaseAmount.None? || c.purchaseAmount.value <= 0.0 then None
    else
      var country := if c.country.Some? then Upper(c.country.value) else Unknown;
      Some(c.(firstName := Some(Capitalize(c.firstName)),
              lastName := Some(Capitalize(c.lastName)),
              country := Some(country)))
  }

  /** How a call of process as written ends: it returns a customer or null, or it fails
      with the exception capitalize raises, which escapes process and fails the step. */
  datatype Outcome = Returned(result: Option<Customer>) | Failed

  /** CustomerProcessor.process exactly as written, over CapitalizeAsWritten: first
      name, then last name, then country. */
  function ProcessCustomerAsWritten(c: Customer): (r: Outcome)
    ensures r.Failed? <==>
      ProcessCustomer(c).Some? &&
      (CapitalizeAsWritten(c.firstName).None? || CapitalizeAsWritten(c.lastName).None?)
    ensures r == Returned(None) <==> ProcessCustomer(c).None?
  {
    if c.email.None? || '@' !in c.email.value then Returned(None)
    else if c.purchaseAmount.None? || c.purchaseAmount.value <= 0.0 then Returned(None)
    else
      var first := CapitalizeAsWritten(c.firstName);
      if first.None? then Failed
      else
        var last := CapitalizeAsWritten(c.lastName);
        if last.None? then Failed
        else
          var country := if c.country.Some? then Upper(c.country.value) else Unknown;
          Returned(Some(c.(firstName := first, lastName := last, country := Some(country))))
  }

  /** Wherever process as written returns, the corrected model returns the same. */
  lemma ProcessCustomerAgreesWithAsWritten(c: Customer)
    ensures ProcessCustomerAsWritten(c).Returned? ==> ProcessCustomerAsWritten(c).result == ProcessCustomer(c)
  {
    CapitalizeAgreesWithAsWritten(c.firstName);
    CapitalizeAgreesWithAsWritten(c.lastName);
  }

  /** A valid customer whose first name is U+0000 makes process as written fail; the
      corrected model writes the customer with first name UNKNOWN. */
  lemma ProcessCustomerAsWrittenFails()
    ensures var c := Customer(Some(1), Some(['\0']), Some("Smith"), Some("a@b"), None, Some(1.0));
      && ProcessCustomerAsWritten(c) == Failed
      && ProcessCustomer(c).Some?
      && ProcessCustomer(c).value.firstName == Some(Unknown)
  {
    CapitalizeAsWrittenThrows();
  }

  /** CustomerProcessor.process on the object: validation returns before any setter
      runs, and a kept customer is the same object, updated in place. */
  method Process(customer: CustomerBean) returns (r: CustomerBean?)
    modifies customer
    ensures r == null <==> ProcessCustomer(old(customer.Value())).None?
    ensures r == null ==> customer.Value() == old(customer.Value())
    ensures r != null ==> r == customer && ProcessCustomer(old(customer.Value())) == Some(customer.Value())
  {
    if customer.email.None? || '@' !in customer.email.value {
      return null;
    }
    if customer.purchaseAmount.None? || customer.purchaseAmount.value <= 0.0 {
      return null;
    }
    customer.firstName := Some(Capitalize(customer.firstName));
    customer.lastName := Some(Capitalize(customer.lastName));
    if customer.country.Some? {
      customer.country := Some(Upper(customer.country.value));
    } else {
      customer.country := Some(Unknown);
    }
    return customer;
  }

  /** Processing a written customer again keeps it, keeps its country, and keeps every
      name that was not replaced by the fallback. */
  lemma {:induction false} ReprocessWritten(c: Customer)
    requires ProcessCustomer(c).Some?
    ensures var d := ProcessCustomer(c).value;
      && ProcessCustomer(d).Some?
      && ProcessCustomer(d).value.country == d.country
      && (c.firstName.Some? && Trim(c.firstName.value) != [] ==> ProcessCustomer(d).value.firstName == d.firstName)
      && (c.lastName.Some? && Trim(c.lastName.value) != [] ==> ProcessCustomer(d).value.lastName == d.lastName)
  {
    var d := ProcessCustomer(c).value;
    var e := ProcessCustomer(d);
    assert e.Some?;
    if c.firstName.Some? && Trim(c.firstName.value) != [] {
      CapitalizeIdempotent(c.firstName);
    }
    if c.lastName.Some? && Trim(c.lastName.value) != [] {
      CapitalizeIdempotent(c.lastName);
    }
    if c.country.Some? {
      UpperIdempotent(c.country.value);
    } else {
      UpperOfUnknown();
    }
  }

  lemma UpperOfUnknown()
    ensures Upper(Unknown) == Unknown
  {
    var u := Upper(Unknown);
    assert forall i :: 0 <= i < |Unknown| ==> u[i] == Unknown[i];
  }
}
