/** The alternate registration page of app/test/page.tsx.  Its inputs are
    checked by per-input rules instead of a schema: every input is required,
    the Aadhar and contact numbers must be all digits of a fixed count, the
    IFSC code follows the same pattern as elsewhere, and age, area and
    yield have minimums.  Its file slots and serialiser are those of the
    single-page form. */
module TestPage {
  import opened Platform
  import Schema
  import opened FarmerForm

  /** The `register` rules of one field entry. */
  predicate EntryRulesValid(f: Schema.Field)
  {
    |f.surveyNumber| >= 1 && f.areaHa >= 0.0 && f.yieldEstimate >= 0.0
  }

  /** The `register` rules of the page. */
  predicate RulesValid(v: FormValues)
  {
    && |v.farmerName| >= 1 && |v.relationship| >= 1 && |v.gender| >= 1 && |v.community| >= 1
    && Matches(v.aadharNumber, DigitsPattern(12))
    && |v.state| >= 1 && |v.district| >= 1 && |v.mandal| >= 1 && |v.village| >= 1 && |v.panchayath| >= 1
    && |v.dateOfBirth| >= 1
    && v.age >= 18
    && Matches(v.contactNumber, DigitsPattern(10))
    && |v.accountNumber| >= 1
    && Matches(v.ifscCode, IfscPattern)
    && |v.branchName| >= 1 && |v.bankName| >= 1 && |v.bankCode| >= 1 && |v.address| >= 1
    && (forall i :: 0 <= i < |v.fields| ==> EntryRulesValid(v.fields[i]))
  }

  /** The page's rules are the single-page schema plus all-digit Aadhar and
      contact numbers. */
  lemma RulesAreSchemaPlusDigits(v: FormValues)
    ensures RulesValid(v) <==>
      && FormValid(v)
      && (forall i :: 0 <= i < |v.aadharNumber| ==> IsDigit(v.aadharNumber[i]))
      && (forall i :: 0 <= i < |v.contactNumber| ==> IsDigit(v.contactNumber[i]))
  {
    DigitsPatternExactly(v.aadharNumber, 12);
    DigitsPatternExactly(v.contactNumber, 10);
    if forall i :: 0 <= i < |v.aadharNumber| ==> IsDigit(v.aadharNumber[i]) {
      JsLengthNoAstral(v.aadharNumber);
    }
    if forall i :: 0 <= i < |v.contactNumber| ==> IsDigit(v.contactNumber[i]) {
      JsLengthNoAstral(v.contactNumber);
    }
    assert (forall i :: 0 <= i < |v.fields| ==> EntryRulesValid(v.fields[i])) <==>
           (forall i :: 0 <= i < |v.fields| ==> FieldEntryValid(v.fields[i]));
  }

  /** The schema alone is weaker: it takes twelve letters for an Aadhar number. */
  lemma LettersPassOnlyTheSchema(v: FormValues)
    requires RulesValid(v)
    ensures FormValid(v.(aadharNumber := "ABCDEFGHIJKL"))
    ensures !RulesValid(v.(aadharNumber := "ABCDEFGHIJKL"))
  {
    RulesAreSchemaPlusDigits(v);
    RulesAreSchemaPlusDigits(v.(aadharNumber := "ABCDEFGHIJKL"));
    assert !IsDigit("ABCDEFGHIJKL"[0]);
  }

  class TestFormPage {
    const form: FormStore
    var files: Files

    ghost predicate Valid()
      reads this, form
    {
      form.Valid()
    }

    /** One zeroed field entry and four null file slots. */
    constructor ()
      ensures Valid() && fresh(form)
      ensures form.values == DefaultValues && files == NoFiles
    {
      form := new FormStore();
      files := NoFiles;
    }

    method HandleFileChange(name: Slot, chosen: seq<File>)
      modifies this
      ensures files == ChooseFile(old(files), name, chosen)
    {
      if |chosen| > 0 {
        files := files.With(name, Some(chosen[0]));
      }
    }

    /** `handleSubmit(onSubmit)`: when every rule holds, the request body
        sent; otherwise nothing is sent. */
    method Submit(json: Value -> string) returns (sent: Option<FormData>)
      ensures sent.Some? <==> RulesValid(form.values)
      ensures sent.Some? ==> sent.value == Serialised(Entries(form.values), files, json)
    {
      if !RulesValid(form.values) {
        return None;
      }
      var fd := BuildFormData(Entries(form.values), files, json);
      return Some(fd);
    }
  }
}
