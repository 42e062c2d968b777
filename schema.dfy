/** The server-side record schemas of lib/schema.ts.  A schema is a predicate
    on the loosely typed body it is handed (`RawFarmer`, whose leaves are
    JavaScript values) together with the typed record a successful parse
    returns (`Farmer`).  The input schema sees documents as files, the output
    schema sees them as storage paths; both impose the same constraints on
    every other key. */
module Schema {
  import opened Platform

  // ---------------------------------------------------------------------------
  // Typed records

  datatype BankDetails = BankDetails(
    ifscCode: string, branchName: string, address: string, bankName: string, bankCode: string)

  /** One land parcel.  Numbers are JavaScript numbers other than NaN. */
  datatype Field = Field(
    surveyNumber: string, areaHa: real, yieldEstimate: real, locationX: real, locationY: real)

  /** A farmer record whose date of birth has type `Dt` and whose document
      slots hold an optional `D` each. */
  datatype Farmer<Dt, D> = Farmer(
    farmerName: string, relationship: string, gender: string, community: string,
    aadharNumber: string, state: string, district: string, mandal: string,
    village: string, panchayath: string, dateOfBirth: Dt, age: real,
    contactNumber: string, accountNumber: string, bankDetails: BankDetails,
    fields: seq<Field>, documents: Documents<Option<D>>)

  /** What `FarmerInputSchema.parse` returns: the date transformed, documents as files. */
  type FarmerInput = Farmer<JsDate, File>

  /** What `FarmerOutputSchema.parse` returns: documents as storage paths. */
  type FarmerOutput = Farmer<JsDate, string>

  // ---------------------------------------------------------------------------
  // The constraints beyond the JavaScript types (shared by both schemas)

  /** `.min(11).max(11)` on the JavaScript length. */
  predicate BankDetailsValid(b: BankDetails)
  {
    JsLength(b.ifscCode) == 11
  }

  predicate FieldValid(f: Field)
  {
    f.areaHa > 0.0 && f.yieldEstimate > 0.0
  }

  predicate FieldsValid(fs: seq<Field>)
  {
    forall i :: 0 <= i < |fs| ==> FieldValid(fs[i])
  }

  /** Every constraint of FarmerInputSchema and FarmerOutputSchema other than
      the types: fixed JavaScript lengths (UTF-16 code units), strict
      positivity.  Gender, community, the address strings and the other bank
      strings are unconstrained. */
  predicate FarmerValid<Dt, D>(x: Farmer<Dt, D>)
  {
    && JsLength(x.aadharNumber) == 12
    && x.age > 0.0
    && JsLength(x.contactNumber) == 10
    && BankDetailsValid(x.bankDetails)
    && FieldsValid(x.fields)
  }

  // ---------------------------------------------------------------------------
  // The untyped body the route hands to the input schema

  datatype RawBankDetails = RawBankDetails(
    ifscCode: JsValue, branchName: JsValue, address: JsValue, bankName: JsValue, bankCode: JsValue)

  datatype RawField = RawField(
    surveyNumber: JsValue, areaHa: JsValue, yieldEstimate: JsValue, locationX: JsValue, locationY: JsValue)

  datatype RawFarmer = RawFarmer(
    farmerName: JsValue, relationship: JsValue, gender: JsValue, community: JsValue,
    aadharNumber: JsValue, state: JsValue, district: JsValue, mandal: JsValue,
    village: JsValue, panchayath: JsValue, dateOfBirth: JsValue, age: JsValue,
    contactNumber: JsValue, accountNumber: JsValue, bankDetails: RawBankDetails,
    fields: seq<RawField>, documents: Documents<JsValue>)

  /** `z.instanceof(File).optional()`: a file, or no value at all.  Null is not "no value". */
  predicate OptionalFile(v: JsValue)
  {
    v.Undefined? || v.FileVal?
  }

  predicate RawBankWellTyped(b: RawBankDetails)
  {
    b.ifscCode.Str? && b.branchName.Str? && b.address.Str? && b.bankName.Str? && b.bankCode.Str?
  }

  /** `z.number()` refuses NaN. */
  predicate RawFieldWellTyped(f: RawField)
  {
    f.surveyNumber.Str? && f.areaHa.Number? && f.yieldEstimate.Number?
    && f.locationX.Number? && f.locationY.Number?
  }

  predicate DocumentsInputWellTyped(d: Documents<JsValue>)
  {
    OptionalFile(d.profilePic) && OptionalFile(d.aadhar) && OptionalFile(d.land) && OptionalFile(d.bank)
  }

  /** The JavaScript types FarmerInputSchema demands of every key. */
  predicate RawWellTyped(b: RawFarmer)
  {
    && b.farmerName.Str? && b.relationship.Str? && b.gender.Str? && b.community.Str?
    && b.aadharNumber.Str? && b.state.Str? && b.district.Str? && b.mandal.Str?
    && b.village.Str? && b.panchayath.Str? && b.dateOfBirth.Str? && b.age.Number?
    && b.contactNumber.Str? && b.accountNumber.Str?
    && RawBankWellTyped(b.bankDetails)
    && (forall i :: 0 <= i < |b.fields| ==> RawFieldWellTyped(b.fields[i]))
    && DocumentsInputWellTyped(b.documents)
  }

  function BankOfRaw(b: RawBankDetails): BankDetails
    requires RawBankWellTyped(b)
  {
    BankDetails(b.ifscCode.s, b.branchName.s, b.address.s, b.bankName.s, b.bankCode.s)
  }

  function FieldOfRaw(f: RawField): Field
    requires RawFieldWellTyped(f)
  {
    Field(f.surveyNumber.s, f.areaHa.x, f.yieldEstimate.x, f.locationX.x, f.locationY.x)
  }

  function OptionalFileOf(v: JsValue): Option<File>
  {
    if v.FileVal? then Some(v.file) else None
  }

  /** The typed view of a well-typed body, the date of birth still as text. */
  function Typed(b: RawFarmer): Farmer<string, File>
    requires RawWellTyped(b)
  {
    Farmer(
      b.farmerName.s, b.relationship.s, b.gender.s, b.community.s,
      b.aadharNumber.s, b.state.s, b.district.s, b.mandal.s,
      b.village.s, b.panchayath.s, b.dateOfBirth.s, b.age.x,
      b.contactNumber.s, b.accountNumber.s, BankOfRaw(b.bankDetails),
      seq(|b.fields|, i requires 0 <= i < |b.fields| => FieldOfRaw(b.fields[i])),
      Documents(
        OptionalFileOf(b.documents.profilePic), OptionalFileOf(b.documents.aadhar),
        OptionalFileOf(b.documents.land), OptionalFileOf(b.documents.bank)))
  }

  /** FarmerInputSchema accepts the body. */
  predicate InputValid(b: RawFarmer)
  {
    RawWellTyped(b) && FarmerValid(Typed(b))
  }

  /** Replace the date of birth (the schema's `transform`). */
  function WithDate<Dt, Dt', D>(x: Farmer<Dt, D>, d: Dt'): (y: Farmer<Dt', D>)
    ensures FarmerValid(y) == FarmerValid(x)
  {
    Farmer(
      x.farmerName, x.relationship, x.gender, x.community,
      x.aadharNumber, x.state, x.district, x.mandal,
      x.village, x.panchayath, d, x.age,
      x.contactNumber, x.accountNumber, x.bankDetails, x.fields, x.documents)
  }

  /** Replace the documents (the route's `{...input, documents: {...}}`). */
  function WithDocuments<Dt, D, D'>(x: Farmer<Dt, D>, docs: Documents<Option<D'>>): (y: Farmer<Dt, D'>)
    ensures FarmerValid(y) == FarmerValid(x)
  {
    Farmer(
      x.farmerName, x.relationship, x.gender, x.community,
      x.aadharNumber, x.state, x.district, x.mandal,
      x.village, x.panchayath, x.dateOfBirth, x.age,
      x.contactNumber, x.accountNumber, x.bankDetails, x.fields, docs)
  }

  /** The body a typed record stands for: the inverse of `Typed`, with the
      date of birth given as its text. */
  function Embed<Dt>(x: Farmer<Dt, File>, dateText: string): RawFarmer
  {
    RawFarmer(
      Str(x.farmerName), Str(x.relationship), Str(x.gender), Str(x.community),
      Str(x.aadharNumber), Str(x.state), Str(x.district), Str(x.mandal),
      Str(x.village), Str(x.panchayath), Str(dateText), Number(x.age),
      Str(x.contactNumber), Str(x.accountNumber),
      RawBankDetails(Str(x.bankDetails.ifscCode), Str(x.bankDetails.branchName),
        Str(x.bankDetails.address), Str(x.bankDetails.bankName), Str(x.bankDetails.bankCode)),
      EmbedFields(x.fields),
      Documents(EmbedFile(x.documents.profilePic), EmbedFile(x.documents.aadhar),
        EmbedFile(x.documents.land), EmbedFile(x.documents.bank)))
  }

  function EmbedFields(fs: seq<Field>): (r: seq<RawField>)
    ensures |r| == |fs| && forall i :: 0 <= i < |fs| ==> r[i] == EmbedField(fs[i])
  {
    seq(|fs|, i requires 0 <= i < |fs| => EmbedField(fs[i]))
  }

  function EmbedField(f: Field): RawField
  {
    RawField(Str(f.surveyNumber), Number(f.areaHa), Number(f.yieldEstimate),
      Number(f.locationX), Number(f.locationY))
  }

  function EmbedFile(o: Option<File>): JsValue
  {
    if o.Some? then FileVal(o.value) else Undefined
  }

  /** `FarmerInputSchema.parse(body)`: a typed record when the body is valid,
      a thrown validation error (None) otherwise.  The date of birth goes
      through `new Date(text)`, given here as `parseDate`. */
  function ParseInput(b: RawFarmer, parseDate: string -> JsDate): (r: Option<FarmerInput>)
    ensures r.Some? <==> InputValid(b)
    ensures r.Some? ==> FarmerValid(r.value)
    ensures r.Some? ==> r.value.dateOfBirth == parseDate(b.dateOfBirth.s)
    ensures r.Some? ==> Embed(r.value, b.dateOfBirth.s) == b
  {
    if InputValid(b) then
      var x := WithDate(Typed(b), parseDate(b.dateOfBirth.s));
      EmbedTyped(b);
      Some(x)
    else None
  }

  lemma EmbedTyped(b: RawFarmer)
    requires RawWellTyped(b)
    ensures Embed(Typed(b), b.dateOfBirth.s) == b
  {
    var x := Typed(b);
    var e := Embed(x, b.dateOfBirth.s);
    assert e.fields == b.fields;
    assert e.documents == b.documents;
  }

  /** FarmerOutputSchema accepts the record: the same constraints, and a
      date of birth that is a valid `Date` (`z.date()` refuses an invalid one). */
  predicate OutputValid(x: FarmerOutput)
  {
    FarmerValid(x) && x.dateOfBirth.ValidDate?
  }

  /** `FarmerOutputSchema.parse(candidate)`. */
  function ParseOutput(x: FarmerOutput): (r: Option<FarmerOutput>)
    ensures r.Some? <==> OutputValid(x)
    ensures r.Some? ==> r.value == x
  {
    if OutputValid(x) then Some(x) else None
  }

  // ---------------------------------------------------------------------------
  // Properties of the schemas

  /** Parsing the body a valid record stands for gives that record back,
      with the date transformed; an invalid record is refused. */
  lemma ParseEmbed(x: Farmer<string, File>, parseDate: string -> JsDate)
    ensures ParseInput(Embed(x, x.dateOfBirth), parseDate).Some? <==> FarmerValid(x)
    ensures FarmerValid(x) ==>
      ParseInput(Embed(x, x.dateOfBirth), parseDate) == Some(WithDate(x, parseDate(x.dateOfBirth)))
  {
    var b := Embed(x, x.dateOfBirth);
    assert RawWellTyped(b);
    var t := Typed(b);
    assert t.fields == x.fields;
    assert t.documents == x.documents;
    assert t == x;
  }

  /** The national id is accepted iff its JavaScript length is 12, whatever
      its characters are. */
  lemma AadharLengthExact(b: RawFarmer, s: string)
    requires InputValid(b)
    ensures InputValid(b.(aadharNumber := Str(s))) <==> JsLength(s) == 12
  {
    assert Typed(b.(aadharNumber := Str(s))) == Typed(b).(aadharNumber := s);
  }

  /** Lengths count UTF-16 code units: an id made of astral characters
      (emoji, say) is accepted when there are six of them, and an ASCII id
      when there are twelve. */
  lemma AadharCodeUnits(b: RawFarmer, s: string)
    requires InputValid(b)
    ensures (forall i :: 0 <= i < |s| ==> IsAstral(s[i])) ==>
      (InputValid(b.(aadharNumber := Str(s))) <==> |s| == 6)
    ensures (forall i :: 0 <= i < |s| ==> !IsAstral(s[i])) ==>
      (InputValid(b.(aadharNumber := Str(s))) <==> |s| == 12)
  {
    AadharLengthExact(b, s);
    if forall i :: 0 <= i < |s| ==> IsAstral(s[i]) {
      JsLengthAllAstral(s);
    }
    if forall i :: 0 <= i < |s| ==> !IsAstral(s[i]) {
      JsLengthNoAstral(s);
    }
  }

  /** The contact number is accepted iff its JavaScript length is 10. */
  lemma ContactLengthExact(b: RawFarmer, s: string)
    requires InputValid(b)
    ensures InputValid(b.(contactNumber := Str(s))) <==> JsLength(s) == 10
  {
    assert Typed(b.(contactNumber := Str(s))) == Typed(b).(contactNumber := s);
  }

  /** The IFSC code is accepted iff its JavaScript length is 11; the other
      bank strings accept anything, the empty string included. */
  lemma BankStringsConstraints(b: RawFarmer, ifsc: string, branch: string, address: string, name: string, code: string)
    requires InputValid(b)
    ensures InputValid(b.(bankDetails := RawBankDetails(Str(ifsc), Str(branch), Str(address), Str(name), Str(code))))
            <==> JsLength(ifsc) == 11
  {
    var b' := b.(bankDetails := RawBankDetails(Str(ifsc), Str(branch), Str(address), Str(name), Str(code)));
    assert Typed(b') == Typed(b).(bankDetails := BankDetails(ifsc, branch, address, name, code));
  }

  /** The age is accepted iff it is a strictly positive number; NaN is refused. */
  lemma AgeStrictlyPositive(b: RawFarmer, age: JsValue)
    requires InputValid(b)
    ensures InputValid(b.(age := age)) <==> age.Number? && age.x > 0.0
  {
    if age.Number? {
      assert Typed(b.(age := age)) == Typed(b).(age := age.x);
    }
  }

  /** A field entry is accepted iff its area and yield are strictly positive
      numbers and the other three attributes have the right types; the
      coordinates may have any sign. */
  lemma FieldEntryConstraints(b: RawFarmer, i: nat, f: RawField)
    requires InputValid(b) && i < |b.fields|
    ensures InputValid(b.(fields := b.fields[i := f])) <==>
      RawFieldWellTyped(f) && f.areaHa.x > 0.0 && f.yieldEstimate.x > 0.0
  {
    var b' := b.(fields := b.fields[i := f]);
    if RawFieldWellTyped(f) {
      assert RawWellTyped(b');
      assert Typed(b').fields == Typed(b).fields[i := FieldOfRaw(f)];
      assert Typed(b') == Typed(b).(fields := Typed(b).fields[i := FieldOfRaw(f)]);
      if InputValid(b') {
        assert FieldValid(Typed(b').fields[i]);
      }
    } else {
      assert !RawFieldWellTyped(b'.fields[i]);
    }
  }

  /** The field list may be empty, and the free-text strings may be empty:
      there is no minimum length on the server. */
  lemma EmptyValuesAccepted(b: RawFarmer)
    requires InputValid(b)
    ensures InputValid(b.(fields := [], farmerName := Str(""), relationship := Str(""),
      gender := Str(""), community := Str(""), state := Str(""), district := Str(""),
      mandal := Str(""), village := Str(""), panchayath := Str(""), accountNumber := Str("")))
  {
    var b' := b.(fields := [], farmerName := Str(""), relationship := Str(""),
      gender := Str(""), community := Str(""), state := Str(""), district := Str(""),
      mandal := Str(""), village := Str(""), panchayath := Str(""), accountNumber := Str(""));
    assert Typed(b').fields == [];
    assert FarmerValid(Typed(b'));
  }

  /** A document slot holding null (not undefined) makes the whole body invalid. */
  lemma NullDocumentRejected(b: RawFarmer, s: Slot)
    requires b.documents.At(s) == Null
    ensures !InputValid(b)
  {
  }

  /** Each document slot is optional: with the rest of the body valid, a
      slot may hold a file or no value at all, and nothing else. */
  lemma DocumentSlotOptional(b: RawFarmer, s: Slot, d: JsValue)
    requires InputValid(b)
    ensures InputValid(b.(documents := b.documents.With(s, d))) <==> d.Undefined? || d.FileVal?
  {
    var b' := b.(documents := b.documents.With(s, d));
    if OptionalFile(d) {
      assert RawWellTyped(b');
      assert Typed(b') == WithDocuments(Typed(b), Typed(b').documents);
    } else {
      assert !OptionalFile(b'.documents.At(s));
    }
  }

  /** The two schemas agree on everything but documents and the date: a
      parsed input with any optional paths in place of its files passes the
      output schema exactly when its transformed date is a valid date. */
  lemma InputOutputAgree(b: RawFarmer, parseDate: string -> JsDate, paths: Documents<Option<string>>)
    requires ParseInput(b, parseDate).Some?
    ensures OutputValid(WithDocuments(ParseInput(b, parseDate).value, paths))
            <==> parseDate(b.dateOfBirth.s).ValidDate?
  {
  }
}
