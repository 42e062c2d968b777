/** The single-page form and the `/api/farmer` route together: the request
    the client serialises is read back by the route as exactly the record
    the form holds, so the outcome of a submission can be stated in terms of
    the form's values, its file slots and the client and server schemas.
    `JSON.stringify` and `JSON.parse` are assumed to round-trip the field
    list. */
module EndToEnd {
  import opened Platform
  import opened Schema
  import opened Route
  import opened FarmerForm

  /** The parsed JSON of a field list: each element's attributes as the
      string and numbers that were encoded. */
  function JsonOf(fs: seq<Field>): (r: seq<JsonField>)
    ensures |r| == |fs|
  {
    seq(|fs|, i requires 0 <= i < |fs| =>
      JsonField(Str(fs[i].surveyNumber), Number(fs[i].areaHa), Number(fs[i].yieldEstimate),
        Number(fs[i].locationX), Number(fs[i].locationY)))
  }

  /** `JSON.parse(JSON.stringify(fields))` gives the fields back. */
  predicate JsonRoundTrips(env: Env, json: Value -> string, fs: seq<Field>)
  {
    env.parseJson(json(FieldList(fs))) == Some(JsonOf(fs))
  }

  /** The record a form and its file slots stand for. */
  function ClientFarmer(v: FormValues, files: Files): Farmer<string, File>
  {
    Farmer(v.farmerName, v.relationship, v.gender, v.community, v.aadharNumber,
      v.state, v.district, v.mandal, v.village, v.panchayath, v.dateOfBirth, v.age as real,
      v.contactNumber, v.accountNumber,
      BankDetails(v.ifscCode, v.branchName, v.address, v.bankName, v.bankCode),
      v.fields, files)
  }

  function Request(v: FormValues, files: Files, json: Value -> string): FormData
  {
    Serialised(Entries(v), files, json)
  }

  /** `formData.get(key)` gives the text `s`. */
  predicate ReadsText(fd: FormData, key: string, s: string)
  {
    Get(fd, key) == Some(TextPart(s))
  }

  /** The scalar keys of `fd` read as the form's text, and `age` as its decimal text. */
  predicate ReadsAs(fd: FormData, v: FormValues)
  {
    && ReadsText(fd, "farmerName", v.farmerName) && ReadsText(fd, "relationship", v.relationship)
    && ReadsText(fd, "gender", v.gender) && ReadsText(fd, "community", v.community)
    && ReadsText(fd, "aadharNumber", v.aadharNumber) && ReadsText(fd, "state", v.state)
    && ReadsText(fd, "district", v.district) && ReadsText(fd, "mandal", v.mandal)
    && ReadsText(fd, "village", v.village) && ReadsText(fd, "panchayath", v.panchayath)
    && ReadsText(fd, "dateOfBirth", v.dateOfBirth) && ReadsText(fd, "age", IntToString(v.age))
    && ReadsText(fd, "contactNumber", v.contactNumber) && ReadsText(fd, "accountNumber", v.accountNumber)
    && ReadsText(fd, "ifscCode", v.ifscCode) && ReadsText(fd, "branchName", v.branchName)
    && ReadsText(fd, "address", v.address) && ReadsText(fd, "bankName", v.bankName)
    && ReadsText(fd, "bankCode", v.bankCode)
  }

  /** A key other than `fields` reads as the text of its entry. */
  lemma ReadEntry(v: FormValues, files: Files, json: Value -> string, key: string, value: Value)
    requires (key, value) in Entries(v) && key != "fields"
    ensures ReadsText(Request(v, files, json), key, JsString(value))
  {
    var i :| 0 <= i < |Entries(v)| && Entries(v)[i] == (key, value);
    GetEntry(v, files, json, i);
  }

  // One lemma per scalar key: each reads one entry of the request back.

  lemma ReadsFarmerName(v: FormValues, files: Files, json: Value -> string)
    ensures ReadsText(Request(v, files, json), "farmerName", v.farmerName)
  {
    ReadEntry(v, files, json, "farmerName", Text(v.farmerName));
  }

  lemma ReadsRelationship(v: FormValues, files: Files, json: Value -> string)
    ensures ReadsText(Request(v, files, json), "relationship", v.relationship)
  {
    ReadEntry(v, files, json, "relationship", Text(v.relationship));
  }

  lemma ReadsGender(v: FormValues, files: Files, json: Value -> string)
    ensures ReadsText(Request(v, files, json), "gender", v.gender)
  {
    ReadEntry(v, files, json, "gender", Text(v.gender));
  }

  lemma ReadsCommunity(v: FormValues, files: Files, json: Value -> string)
    ensures ReadsText(Request(v, files, json), "community", v.community)
  {
    ReadEntry(v, files, json, "community", Text(v.community));
  }

  lemma ReadsAadharNumber(v: FormValues, files: Files, json: Value -> string)
    ensures ReadsText(Request(v, files, json), "aadharNumber", v.aadharNumber)
  {
    ReadEntry(v, files, json, "aadharNumber", Text(v.aadharNumber));
  }

  lemma ReadsState(v: FormValues, files: Files, json: Value -> string)
    ensures ReadsText(Request(v, files, json), "state", v.state)
  {
    ReadEntry(v, files, json, "state", Text(v.state));
  }

  lemma ReadsDistrict(v: FormValues, files: Files, json: Value -> string)
    ensures ReadsText(Request(v, files, json), "district", v.district)
  {
    ReadEntry(v, files, json, "district", Text(v.district));
  }

  lemma ReadsMandal(v: FormValues, files: Files, json: Value -> string)
    ensures ReadsText(Request(v, files, json), "mandal", v.mandal)
  {
    ReadEntry(v, files, json, "mandal", Text(v.mandal));
  }

  lemma ReadsVillage(v: FormValues, files: Files, json: Value -> string)
    ensures ReadsText(Request(v, files, json), "village", v.village)
  {
    ReadEntry(v, files, json, "village", Text(v.village));
  }

  lemma ReadsPanchayath(v: FormValues, files: Files, json: Value -> string)
    ensures ReadsText(Request(v, files, json), "panchayath", v.panchayath)
  {
    ReadEntry(v, files, json, "panchayath", Text(v.panchayath));
  }

  lemma ReadsDateOfBirth(v: FormValues, files: Files, json: Value -> string)
    ensures ReadsText(Request(v, files, json), "dateOfBirth", v.dateOfBirth)
  {
    ReadEntry(v, files, json, "dateOfBirth", Text(v.dateOfBirth));
  }

  lemma ReadsAge(v: FormValues, files: Files, json: Value -> string)
    ensures ReadsText(Request(v, files, json), "age", IntToString(v.age))
  {
    ReadEntry(v, files, json, "age", Num(v.age));
  }

  lemma ReadsContactNumber(v: FormValues, files: Files, json: Value -> string)
    ensures ReadsText(Request(v, files, json), "contactNumber", v.contactNumber)
  {
    ReadEntry(v, files, json, "contactNumber", Text(v.contactNumber));
  }

  lemma ReadsAccountNumber(v: FormValues, files: Files, json: Value -> string)
    ensures ReadsText(Request(v, files, json), "accountNumber", v.accountNumber)
  {
    ReadEntry(v, files, json, "accountNumber", Text(v.accountNumber));
  }

  lemma ReadsIfscCode(v: FormValues, files: Files, json: Value -> string)
    ensures ReadsText(Request(v, files, json), "ifscCode", v.ifscCode)
  {
    ReadEntry(v, files, json, "ifscCode", Text(v.ifscCode));
  }

  lemma ReadsBranchName(v: FormValues, files: Files, json: Value -> string)
    ensures ReadsText(Request(v, files, json), "branchName", v.branchName)
  {
    ReadEntry(v, files, json, "branchName", Text(v.branchName));
  }

  lemma ReadsAddress(v: FormValues, files: Files, json: Value -> string)
    ensures ReadsText(Request(v, files, json), "address", v.address)
  {
    ReadEntry(v, files, json, "address", Text(v.address));
  }

  lemma ReadsBankName(v: FormValues, files: Files, json: Value -> string)
    ensures ReadsText(Request(v, files, json), "bankName", v.bankName)
  {
    ReadEntry(v, files, json, "bankName", Text(v.bankName));
  }

  lemma ReadsBankCode(v: FormValues, files: Files, json: Value -> string)
    ensures ReadsText(Request(v, files, json), "bankCode", v.bankCode)
  {
    ReadEntry(v, files, json, "bankCode", Text(v.bankCode));
  }

  lemma RequestReadsAs(v: FormValues, files: Files, json: Value -> string)
    ensures ReadsAs(Request(v, files, json), v)
  {
    ReadsFarmerName(v, files, json);
    ReadsRelationship(v, files, json);
    ReadsGender(v, files, json);
    ReadsCommunity(v, files, json);
    ReadsAadharNumber(v, files, json);
    ReadsState(v, files, json);
    ReadsDistrict(v, files, json);
    ReadsMandal(v, files, json);
    ReadsVillage(v, files, json);
    ReadsPanchayath(v, files, json);
    ReadsDateOfBirth(v, files, json);
    ReadsAge(v, files, json);
    ReadsContactNumber(v, files, json);
    ReadsAccountNumber(v, files, json);
    ReadsIfscCode(v, files, json);
    ReadsBranchName(v, files, json);
    ReadsAddress(v, files, json);
    ReadsBankName(v, files, json);
    ReadsBankCode(v, files, json);
  }

  /** The scalar keys, the bank keys and the age read back as the form's values. */
  lemma ReadScalars(fd: FormData, v: FormValues, files: Files, fields: seq<RawField>, docs: Documents<JsValue>)
    requires ReadsAs(fd, v)
    requires fields == EmbedFields(v.fields)
    requires docs == Documents(EmbedFile(files.profilePic), EmbedFile(files.aadhar), EmbedFile(files.land), EmbedFile(files.bank))
    ensures BodyOf(fd, fields, docs) == Embed(ClientFarmer(v, files), v.dateOfBirth)
  {
    ParseIntOfIntToString(v.age);
  }

  /** The `fields` key reads as the JSON text of the field list. */
  lemma ReadsFields(v: FormValues, files: Files, json: Value -> string)
    ensures JsText(Get(Request(v, files, json), "fields")) == json(FieldList(v.fields))
  {
    GetEntry(v, files, json, 19);
  }

  /** The document slots read back as the form's files, a missing one as undefined. */
  lemma ReadDocuments(v: FormValues, files: Files, json: Value -> string)
    ensures DocumentsOf(Request(v, files, json), Undefined) ==
      Documents(EmbedFile(files.profilePic), EmbedFile(files.aadhar), EmbedFile(files.land), EmbedFile(files.bank))
  {
    var d := DocumentsOf(Request(v, files, json), Undefined);
    GetFile(v, files, json, ProfilePic);
    GetFile(v, files, json, Aadhar);
    GetFile(v, files, json, Land);
    GetFile(v, files, json, Bank);
    assert d.At(ProfilePic) == EmbedFile(files.profilePic);
    assert d.At(Aadhar) == EmbedFile(files.aadhar);
    assert d.At(Land) == EmbedFile(files.land);
    assert d.At(Bank) == EmbedFile(files.bank);
  }

  /** The parsed field list becomes the body of the form's fields. */
  lemma FieldsRead(fs: seq<Field>, parseFloat: string -> Option<real>)
    ensures FieldsOfJson(JsonOf(fs), parseFloat) == EmbedFields(fs)
  {
    var a := FieldsOfJson(JsonOf(fs), parseFloat);
    assert forall i :: 0 <= i < |fs| ==> a[i] == EmbedField(fs[i]);
  }

  /** The route reads the client's request as the body of the form's record. */
  lemma ServerReadsClient(v: FormValues, files: Files, json: Value -> string, env: Env)
    requires JsonRoundTrips(env, json, v.fields)
    ensures AssembleBody(Request(v, files, json), env) == Some(Embed(ClientFarmer(v, files), v.dateOfBirth))
  {
    var fd := Request(v, files, json);
    RequestReadsAs(v, files, json);
    ReadsFields(v, files, json);
    var fields := FieldsOfJson(JsonOf(v.fields), env.parseFloat);
    FieldsRead(v.fields, env.parseFloat);
    var docs := DocumentsOf(fd, Undefined);
    ReadDocuments(v, files, json);
    ReadScalars(fd, v, files, fields, docs);
    assert AssembleBody(fd, env) == Some(BodyOf(fd, fields, docs));
  }

  /** The server's constraints on the form's record are the client's plus
      strictly positive areas and yields. */
  lemma ClientValidServerValid(v: FormValues, files: Files)
    requires FormValid(v)
    ensures FarmerValid(ClientFarmer(v, files)) <==>
      forall i :: 0 <= i < |v.fields| ==> v.fields[i].areaHa > 0.0 && v.fields[i].yieldEstimate > 0.0
  {
    IfscCharacters(v.ifscCode);
    assert forall i :: 0 <= i < |v.ifscCode| ==> !IsAstral(v.ifscCode[i]) by {
      forall i | 0 <= i < |v.ifscCode| ensures !IsAstral(v.ifscCode[i]) {
        assert i < 4 || i == 4 || 5 <= i < 11;
      }
    }
    JsLengthNoAstral(v.ifscCode);
  }

  /** A form the client accepts, with positive areas and yields, passes the
      server's input schema. */
  lemma ClientAcceptedServerAccepts(v: FormValues, files: Files, json: Value -> string, env: Env)
    requires JsonRoundTrips(env, json, v.fields)
    requires FormValid(v)
    requires forall i :: 0 <= i < |v.fields| ==> v.fields[i].areaHa > 0.0 && v.fields[i].yieldEstimate > 0.0
    ensures AssembleBody(Request(v, files, json), env).Some?
    ensures InputValid(AssembleBody(Request(v, files, json), env).value)
  {
    ServerReadsClient(v, files, json, env);
    ClientValidServerValid(v, files);
    ParseEmbed(ClientFarmer(v, files), env.parseDate);
  }

  /** A field entry with area 0 passes the client schema but makes the
      server answer 500 without uploading anything. */
  lemma ZeroAreaRefusedByServer(v: FormValues, files: Files, json: Value -> string, env: Env, nextId: nat, i: nat)
    requires JsonRoundTrips(env, json, v.fields)
    requires FormValid(v) && i < |v.fields| && v.fields[i].areaHa == 0.0
    ensures PostSpec(Request(v, files, json), env, nextId).response == InternalServerError
    ensures PostSpec(Request(v, files, json), env, nextId).stored == []
  {
    ServerReadsClient(v, files, json, env);
    ClientValidServerValid(v, files);
    ParseEmbed(ClientFarmer(v, files), env.parseDate);
  }

  /** A valid form is created when every filled slot uploads (the store
      takes it and its key is new), its date parses and the store accepts
      the create; the record then holds a path exactly for each filled slot. */
  lemma ClientSubmissionCreated(v: FormValues, files: Files, json: Value -> string, env: Env, nextId: nat, s: Slot)
    requires JsonRoundTrips(env, json, v.fields)
    requires FormValid(v)
    requires forall i :: 0 <= i < |v.fields| ==> v.fields[i].areaHa > 0.0 && v.fields[i].yieldEstimate > 0.0
    requires forall t :: !Refused(files, env, t)
    requires env.parseDate(v.dateOfBirth).ValidDate? && !env.createFails
    ensures PostSpec(Request(v, files, json), env, nextId).response.Created?
    ensures PostSpec(Request(v, files, json), env, nextId).response.farmer.farmer.documents.At(s).Some?
            <==> files.At(s).Some?
  {
    var fd := Request(v, files, json);
    ClientAcceptedServerAccepts(v, files, json, env);
    ServerReadsClient(v, files, json, env);
    var body := AssembleBody(fd, env).value;
    EmbedTyped(body);
    TypedEmbed(ClientFarmer(v, files), v.dateOfBirth);
    assert Typed(body).documents == files;
    assert ParseInput(body, env.parseDate).value.documents == files;
    CreatedExactly(fd, env, nextId);
    CreatedRecordContents(fd, env, nextId, s);
  }

  lemma TypedEmbed(x: Farmer<string, File>, dateText: string)
    requires x.dateOfBirth == dateText
    ensures RawWellTyped(Embed(x, dateText))
    ensures Typed(Embed(x, dateText)) == x
  {
    var t := Typed(Embed(x, dateText));
    assert t.fields == x.fields;
    assert t.documents == x.documents;
  }

  /** As the route is written, a submission from the form with any slot left
      empty is refused: the absent part reads as null. */
  lemma AsWrittenNeedsEveryFile(v: FormValues, files: Files, json: Value -> string, env: Env, nextId: nat, s: Slot)
    requires files.At(s).None?
    ensures !PostSpecAsWritten(Request(v, files, json), env, nextId).response.Created?
  {
    GetFile(v, files, json, s);
    MissingFilePartRefusedAsWritten(Request(v, files, json), env, nextId, s);
  }
}
