/** The `/api/farmer` route of app/api/farmer/route.ts.  POST assembles a
    body from the multipart request, validates it with the input schema,
    uploads each supplied document to its category folder, re-validates with
    the output schema and creates the nested record; GET lists one page of
    records.  The blob store and the record store are objects whose failures
    are inputs, as are the clock, `JSON.parse`, `parseFloat` on text and
    `new Date(text)`. */
module Route {
  import opened Platform
  import opened Schema
  import opened Utils

  /** One element of the JSON array sent under `fields`, as `JSON.parse`
      returns it (a missing key reads as undefined). */
  datatype JsonField = JsonField(
    surveyNumber: JsValue, areaHa: JsValue, yieldEstimate: JsValue, locationX: JsValue, locationY: JsValue)

  /** Everything the route consults that is outside the model. */
  datatype Env = Env(
    // JSON.parse of the `fields` text, mapped to its elements' attributes;
    // None when it throws, when the result is not an array, or when an element
    // is null (the callback's property read then throws); a number, string,
    // boolean or array element reads every attribute as undefined
    parseJson: string -> Option<seq<JsonField>>,
    // parseFloat of a text; None for NaN
    parseFloat: string -> Option<real>,
    // new Date(text)
    parseDate: string -> JsDate,
    // Date.now() when the slot's file name is generated
    clock: Slot -> nat,
    // the slots whose upload the blob store refuses for a reason of its own
    uploadFails: set<Slot>,
    // the keys already in the bucket when the request arrives; an upload
    // without `upsert` to one of them is refused
    existing: set<string>,
    // the record store refuses the create
    createFails: bool)

  /** The storage folder of each slot. */
  function Category(s: Slot): (c: string)
    ensures '/' !in c
  {
    match s
    case ProfilePic => "profile-pics"
    case Aadhar => "aadhar"
    case Land => "land"
    case Bank => "bank"
  }

  /** Different slots use different folders, so their keys never collide. */
  lemma CategoriesSeparateSlots(s1: Slot, s2: Slot, t1: nat, t2: nat, f1: File, f2: File)
    requires StorageKey(Category(s1), t1, f1) == StorageKey(Category(s2), t2, f2)
    ensures s1 == s2
  {
    StorageKeysSeparateCategories(Category(s1), Category(s2), t1, t2, f1, f2);
  }

  // ---------------------------------------------------------------------------
  // Body assembly

  /** `formData.get(key)` as a value: null when the key is missing. */
  function FormValue(p: Option<Part>): JsValue
  {
    match p
    case None => Null
    case Some(TextPart(s)) => Str(s)
    case Some(FilePart(f)) => FileVal(f)
  }

  /** `String(formData.get(key))`. */
  function JsText(p: Option<Part>): string
  {
    match p
    case None => "null"
    case Some(TextPart(s)) => s
    case Some(FilePart(_)) => "[object File]"
  }

  /** `parseInt(formData.get(key) as string)`: the value is converted to text first. */
  function ParseIntValue(p: Option<Part>): JsValue
  {
    match ParseInt(JsText(p))
    case Some(i) => Number(i as real)
    case None => NaN
  }

  /** `parseFloat(v)` for a value of the parsed JSON. */
  function ParseFloatValue(v: JsValue, parseFloat: string -> Option<real>): JsValue
  {
    match v
    case Number(x) => Number(x)
    case Str(s) => (match parseFloat(s) case Some(x) => Number(x) case None => NaN)
    case _ => NaN
  }

  function FieldOfJson(f: JsonField, parseFloat: string -> Option<real>): RawField
  {
    RawField(f.surveyNumber, ParseFloatValue(f.areaHa, parseFloat), ParseFloatValue(f.yieldEstimate, parseFloat),
      ParseFloatValue(f.locationX, parseFloat), ParseFloatValue(f.locationY, parseFloat))
  }

  /** A document slot's value: the file or text sent under its key, or
      `missing` when the request has no such part. */
  function DocumentValue(p: Option<Part>, missing: JsValue): JsValue
  {
    if p.None? then missing else FormValue(p)
  }

  /** `JSON.parse(fields).map(...)`: each element's numbers go through `parseFloat`. */
  function FieldsOfJson(json: seq<JsonField>, parseFloat: string -> Option<real>): seq<RawField>
  {
    seq(|json|, i requires 0 <= i < |json| => FieldOfJson(json[i], parseFloat))
  }

  /** The four document values, in slot order. */
  function DocumentsOf(fd: FormData, missing: JsValue): (d: Documents<JsValue>)
    ensures forall s :: d.At(s) == DocumentValue(Get(fd, SlotKey(s)), missing)
  {
    Documents(
      DocumentValue(Get(fd, "profilePic"), missing), DocumentValue(Get(fd, "aadhar"), missing),
      DocumentValue(Get(fd, "land"), missing), DocumentValue(Get(fd, "bank"), missing))
  }

  /** The body's scalar keys read by name, the five bank keys grouped under
      `bankDetails`, and `age` through `parseInt`. */
  function BodyOf(fd: FormData, fields: seq<RawField>, docs: Documents<JsValue>): RawFarmer
  {
    RawFarmer(
      FormValue(Get(fd, "farmerName")), FormValue(Get(fd, "relationship")),
      FormValue(Get(fd, "gender")), FormValue(Get(fd, "community")),
      FormValue(Get(fd, "aadharNumber")), FormValue(Get(fd, "state")),
      FormValue(Get(fd, "district")), FormValue(Get(fd, "mandal")),
      FormValue(Get(fd, "village")), FormValue(Get(fd, "panchayath")),
      FormValue(Get(fd, "dateOfBirth")), ParseIntValue(Get(fd, "age")),
      FormValue(Get(fd, "contactNumber")), FormValue(Get(fd, "accountNumber")),
      RawBankDetails(
        FormValue(Get(fd, "ifscCode")), FormValue(Get(fd, "branchName")),
        FormValue(Get(fd, "address")), FormValue(Get(fd, "bankName")),
        FormValue(Get(fd, "bankCode"))),
      fields, docs)
  }

  /** The body object built before the `try`.  None stands for the exception
      `JSON.parse(...).map(...)` throws, which the handler does not catch. */
  function AssembleWith(fd: FormData, env: Env, missing: JsValue): Option<RawFarmer>
  {
    match env.parseJson(JsText(Get(fd, "fields")))
    case None => None
    case Some(json) => Some(BodyOf(fd, FieldsOfJson(json, env.parseFloat), DocumentsOf(fd, missing)))
  }

  /** The body as the route writes it: a missing file part is null. */
  function AssembleBodyAsWritten(fd: FormData, env: Env): Option<RawFarmer>
  {
    AssembleWith(fd, env, Null)
  }

  /** The body with a missing file part left undefined, as the optional
      document schema expects; the pipeline below uses this one. */
  function AssembleBody(fd: FormData, env: Env): Option<RawFarmer>
  {
    AssembleWith(fd, env, Undefined)
  }

  // ---------------------------------------------------------------------------
  // The record store

  /** A created farmer: its identity and the nested record (scalars,
      documents, bank details, fields). */
  datatype FarmerRecord = FarmerRecord(id: nat, farmer: FarmerOutput)

  /** Rows `skip .. skip+take` of the table, cut off at its end. */
  function Window(rows: seq<FarmerRecord>, skip: nat, take: nat): (w: seq<FarmerRecord>)
    ensures |w| <= take
    ensures forall j :: 0 <= j < |w| ==> skip + j < |rows| && w[j] == rows[skip + j]
    ensures skip + take <= |rows| ==> |w| == take
  {
    var lo := if skip < |rows| then skip else |rows|;
    var hi := if skip + take < |rows| then skip + take else |rows|;
    rows[lo..hi]
  }

  /** The farmer table with its children, as the ORM presents it. */
  class FarmerTable {
    var rows: seq<FarmerRecord>
    var nextId: nat

    /** Ids are assigned in increasing order and all lie below the next one. */
    ghost predicate Valid()
      reads this
    {
      && (forall i :: 0 <= i < |rows| ==> rows[i].id < nextId)
      && (forall i, j :: 0 <= i < j < |rows| ==> rows[i].id < rows[j].id)
    }

    constructor ()
      ensures Valid() && rows == [] && nextId == 1
    {
      rows := [];
      nextId := 1;
    }

    /** `prisma.farmer.create({data})`: one new row with a fresh id, or an
        error the store reports (then nothing is written). */
    method Create(data: FarmerOutput, fails: bool) returns (r: Result<FarmerRecord>)
      requires Valid()
      modifies this
      ensures Valid()
      ensures fails ==> r.Err? && rows == old(rows) && nextId == old(nextId)
      ensures !fails ==> r == Ok(FarmerRecord(old(nextId), data))
      ensures !fails ==> rows == old(rows) + [r.value] && nextId == old(nextId) + 1
    {
      if fails {
        r := Err("database error");
        return;
      }
      var rec := FarmerRecord(nextId, data);
      rows := rows + [rec];
      nextId := nextId + 1;
      r := Ok(rec);
    }

    /** `prisma.farmer.findMany({skip, take})`.  A NaN, a negative skip or a
        negative take is answered with an error. */
    method FindMany(skip: Option<int>, take: Option<int>, fails: bool) returns (r: Result<seq<FarmerRecord>>)
      ensures r.Ok? <==> !fails && skip.Some? && take.Some? && skip.value >= 0 && take.value >= 0
      ensures r.Ok? ==> r.value == Window(rows, skip.value, take.value)
    {
      if fails || skip.None? || take.None? || skip.value < 0 || take.value < 0 {
        r := Err("database error");
        return;
      }
      r := Ok(Window(rows, skip.value, take.value));
    }
  }

  /** Every id in a valid table is distinct. */
  lemma IdsUnique(t: FarmerTable, i: nat, j: nat)
    requires t.Valid() && i < |t.rows| && j < |t.rows| && i != j
    ensures t.rows[i].id != t.rows[j].id
  {
  }

  // ---------------------------------------------------------------------------
  // The POST pipeline, as a function of its inputs

  datatype SlotUpload = Skipped | Stored(path: string) | UploadFailed

  /** `input.documents.s ? await uploadFileToSupabase(file, category) : undefined`. */
  function UploadSlot(doc: Option<File>, s: Slot, env: Env): SlotUpload
  {
    if doc.None? then Skipped
    else if s in env.uploadFails || StorageKey(Category(s), env.clock(s), doc.value) in env.existing then UploadFailed
    else Stored(StorageKey(Category(s), env.clock(s), doc.value))
  }

  /** The uploads performed so far, the paths collected, and whether one threw. */
  datatype UploadRun = UploadRun(stored: seq<(string, File)>, paths: Documents<Option<string>>, failed: bool)

  const NoPaths: Documents<Option<string>> := Documents(None, None, None, None)

  /** One awaited upload statement; after a throw nothing else runs. */
  function UploadStep(run: UploadRun, docs: Documents<Option<File>>, env: Env, s: Slot): UploadRun
  {
    if run.failed then run
    else match UploadSlot(docs.At(s), s, env)
      case Skipped => run
      case UploadFailed => run.(failed := true)
      case Stored(p) => UploadRun(run.stored + [(p, docs.At(s).value)], run.paths.With(s, Some(p)), false)
  }

  /** The four upload statements, in the source's order. */
  function RunUploads(docs: Documents<Option<File>>, env: Env): UploadRun
  {
    var r0 := UploadRun([], NoPaths, false);
    var r1 := UploadStep(r0, docs, env, ProfilePic);
    var r2 := UploadStep(r1, docs, env, Aadhar);
    var r3 := UploadStep(r2, docs, env, Land);
    UploadStep(r3, docs, env, Bank)
  }

  /** The three answers of POST: 201 with the farmer, 500 with the message
      'Internal Server Error', and an exception thrown before the `try`. */
  datatype PostResponse = Created(farmer: FarmerRecord) | InternalServerError | Unhandled

  function StatusCode(r: PostResponse): Option<int>
  {
    match r
    case Created(_) => Some(201)
    case InternalServerError => Some(500)
    case Unhandled => None
  }

  datatype PostOutcome = PostOutcome(response: PostResponse, stored: seq<(string, File)>, created: Option<FarmerRecord>)

  /** What POST does after the uploads: re-validate with the output schema,
      then create the record. */
  function AfterUploads(input: FarmerInput, run: UploadRun, env: Env, nextId: nat): PostOutcome
  {
    if run.failed then PostOutcome(InternalServerError, run.stored, None)
    else match ParseOutput(WithDocuments(input, run.paths))
      case None => PostOutcome(InternalServerError, run.stored, None)
      case Some(output) =>
        if env.createFails then PostOutcome(InternalServerError, run.stored, None)
        else
          var rec := FarmerRecord(nextId, output);
          PostOutcome(Created(rec), run.stored, Some(rec))
  }

  /** What POST does once the input schema has accepted the body. */
  function AfterValidation(input: FarmerInput, env: Env, nextId: nat): PostOutcome
  {
    AfterUploads(input, RunUploads(input.documents, env), env, nextId)
  }

  /** What POST does once the body has been assembled (or failed to be). */
  function PostFrom(body: Option<RawFarmer>, env: Env, nextId: nat): PostOutcome
  {
    match body
    case None => PostOutcome(Unhandled, [], None)
    case Some(b) =>
      match ParseInput(b, env.parseDate)
      case None => PostOutcome(InternalServerError, [], None)
      case Some(input) => AfterValidation(input, env, nextId)
  }

  /** POST with the corrected body assembly. */
  function PostSpec(fd: FormData, env: Env, nextId: nat): PostOutcome
  {
    PostFrom(AssembleBody(fd, env), env, nextId)
  }

  /** POST as the route is written. */
  function PostSpecAsWritten(fd: FormData, env: Env, nextId: nat): PostOutcome
  {
    PostFrom(AssembleBodyAsWritten(fd, env), env, nextId)
  }

  /** The bucket after a sequence of writes. */
  function StoreAll(objects: map<string, File>, stored: seq<(string, File)>): map<string, File>
    decreases |stored|
  {
    if stored == [] then objects
    else StoreAll(objects[stored[0].0 := stored[0].1], stored[1..])
  }

  lemma {:induction false} StoreAllSnoc(objects: map<string, File>, stored: seq<(string, File)>, e: (string, File))
    ensures StoreAll(objects, stored + [e]) == StoreAll(objects, stored)[e.0 := e.1]
    decreases |stored|
  {
    if stored == [] {
      assert StoreAll(objects[e.0 := e.1], []) == objects[e.0 := e.1];
    } else {
      assert (stored + [e])[1..] == stored[1..] + [e];
      StoreAllSnoc(objects[stored[0].0 := stored[0].1], stored[1..], e);
    }
  }

  /** Writes under other keys leave a key's presence as it was. */
  lemma {:induction false} StoreAllOther(objects: map<string, File>, stored: seq<(string, File)>, k: string)
    requires forall i :: 0 <= i < |stored| ==> Folder(stored[i].0) != Folder(k)
    ensures k in StoreAll(objects, stored) <==> k in objects
    decreases |stored|
  {
    if stored != [] {
      assert Folder(stored[0].0) != Folder(k);
      StoreAllOther(objects[stored[0].0 := stored[0].1], stored[1..], k);
    }
  }

  // ---------------------------------------------------------------------------
  // The POST pipeline, step by step

  /** One awaited upload: only when the slot holds a file, into the slot's
      folder.  The bucket holds the slot's key exactly when it was there
      before the request. */
  method UploadIfPresent(bucket: FileBucket, doc: Option<File>, s: Slot, env: Env) returns (u: SlotUpload)
    requires doc.Some? ==>
      (StorageKey(Category(s), env.clock(s), doc.value) in bucket.objects <==>
       StorageKey(Category(s), env.clock(s), doc.value) in env.existing)
    modifies bucket
    ensures u == UploadSlot(doc, s, env)
    ensures u.Stored? ==> bucket.objects == old(bucket.objects)[u.path := doc.value]
    ensures !u.Stored? ==> bucket.objects == old(bucket.objects)
  {
    if doc.None? {
      return Skipped;
    }
    var r := bucket.UploadFile(doc.value, Category(s), env.clock(s), s in env.uploadFails);
    if r.Err? {
      return UploadFailed;
    }
    return Stored(r.value);
  }

  /** Advance the upload run by one slot, keeping the bucket in step with
      it.  `done` holds the folders written so far, which do not include
      this slot's, so the request's own uploads never take its key. */
  method Upload(bucket: FileBucket, docs: Documents<Option<File>>, env: Env, s: Slot,
                ghost base: map<string, File>, ghost done: set<string>, run: UploadRun) returns (next: UploadRun)
    requires !run.failed && bucket.objects == StoreAll(base, run.stored) && base.Keys == env.existing
    requires forall i :: 0 <= i < |run.stored| ==> Folder(run.stored[i].0) in done
    requires Category(s) !in done
    modifies bucket
    ensures next == UploadStep(run, docs, env, s)
    ensures bucket.objects == StoreAll(base, next.stored)
    ensures forall i :: 0 <= i < |next.stored| ==> Folder(next.stored[i].0) in done + {Category(s)}
  {
    if docs.At(s).Some? {
      var k := StorageKey(Category(s), env.clock(s), docs.At(s).value);
      FolderOfKey(Category(s), GenerateFileName(env.clock(s), docs.At(s).value));
      StoreAllOther(base, run.stored, k);
    }
    var u := UploadIfPresent(bucket, docs.At(s), s, env);
    match u
    case Skipped => next := run;
    case UploadFailed => next := run.(failed := true);
    case Stored(p) =>
      StoreAllSnoc(base, run.stored, (p, docs.At(s).value));
      next := UploadRun(run.stored + [(p, docs.At(s).value)], run.paths.With(s, Some(p)), false);
      FolderOfKey(Category(s), GenerateFileName(env.clock(s), docs.At(s).value));
  }

  /** The part of POST after the input schema has accepted the body. */
  method CreateValidated(input: FarmerInput, env: Env, bucket: FileBucket, table: FarmerTable)
    returns (resp: PostResponse)
    requires table.Valid() && bucket.objects.Keys == env.existing
    modifies bucket, table
    ensures table.Valid()
    ensures table.nextId == old(table.nextId) + if AfterValidation(input, env, old(table.nextId)).created.Some? then 1 else 0
    ensures resp == AfterValidation(input, env, old(table.nextId)).response
    ensures bucket.objects == StoreAll(old(bucket.objects), AfterValidation(input, env, old(table.nextId)).stored)
    ensures AfterValidation(input, env, old(table.nextId)).created.None? ==> table.rows == old(table.rows)
    ensures AfterValidation(input, env, old(table.nextId)).created.Some? ==>
      table.rows == old(table.rows) + [AfterValidation(input, env, old(table.nextId)).created.value]
  {
    var docs := input.documents;
    ghost var base := bucket.objects;
    var run := UploadRun([], NoPaths, false);
    run := Upload(bucket, docs, env, ProfilePic, base, {}, run);
    if run.failed {
      return InternalServerError;
    }
    run := Upload(bucket, docs, env, Aadhar, base, {"profile-pics"}, run);
    if run.failed {
      return InternalServerError;
    }
    run := Upload(bucket, docs, env, Land, base, {"profile-pics", "aadhar"}, run);
    if run.failed {
      return InternalServerError;
    }
    run := Upload(bucket, docs, env, Bank, base, {"profile-pics", "aadhar", "land"}, run);
    if run.failed {
      return InternalServerError;
    }
    var output := ParseOutput(WithDocuments(input, run.paths));
    if output.None? {
      return InternalServerError;
    }
    var created := table.Create(output.value, env.createFails);
    if created.Err? {
      return InternalServerError;
    }
    return Created(created.value);
  }

  /** POST /api/farmer: assemble the body, then (inside the `try`) validate,
      upload, re-validate and create; any failure inside is answered with 500.
      `env.existing` describes the bucket as the request finds it. */
  method Post(fd: FormData, env: Env, bucket: FileBucket, table: FarmerTable) returns (resp: PostResponse)
    requires table.Valid() && bucket.objects.Keys == env.existing
    modifies bucket, table
    ensures table.Valid()
    ensures table.nextId == old(table.nextId) + if PostSpec(fd, env, old(table.nextId)).created.Some? then 1 else 0
    ensures resp == PostSpec(fd, env, old(table.nextId)).response
    ensures bucket.objects == StoreAll(old(bucket.objects), PostSpec(fd, env, old(table.nextId)).stored)
    ensures PostSpec(fd, env, old(table.nextId)).created.None? ==> table.rows == old(table.rows)
    ensures PostSpec(fd, env, old(table.nextId)).created.Some? ==>
      table.rows == old(table.rows) + [PostSpec(fd, env, old(table.nextId)).created.value]
  {
    var body := AssembleBody(fd, env);
    if body.None? {
      return Unhandled;
    }
    var input := ParseInput(body.value, env.parseDate);
    if input.None? {
      return InternalServerError;
    }
    resp := CreateValidated(input.value, env, bucket, table);
  }

  // ---------------------------------------------------------------------------
  // Properties of the POST pipeline

  /** A slot is refused when it holds a file the blob store does not take:
      the store fails, or the file's key is already in the bucket. */
  predicate Refused(docs: Documents<Option<File>>, env: Env, s: Slot)
  {
    && docs.At(s).Some?
    && (s in env.uploadFails || StorageKey(Category(s), env.clock(s), docs.At(s).value) in env.existing)
  }

  /** One step fails when an earlier one did or its own slot is refused. */
  lemma UploadStepFails(run: UploadRun, docs: Documents<Option<File>>, env: Env, s: Slot)
    ensures UploadStep(run, docs, env, s).failed <==> run.failed || Refused(docs, env, s)
  {
  }

  /** A step that does not fail sets only its own slot's path, and that
      one exactly when the slot holds a file. */
  lemma UploadStepPaths(run: UploadRun, docs: Documents<Option<File>>, env: Env, s: Slot, t: Slot)
    requires !UploadStep(run, docs, env, s).failed
    ensures !run.failed
    ensures UploadStep(run, docs, env, s).paths.At(t) ==
      if t == s && docs.At(s).Some? then Some(StorageKey(Category(s), env.clock(s), docs.At(s).value))
      else run.paths.At(t)
  {
  }

  /** The upload run fails exactly when some slot holding a file is refused. */
  lemma RunUploadsFails(docs: Documents<Option<File>>, env: Env)
    ensures RunUploads(docs, env).failed <==> exists s :: Refused(docs, env, s)
  {
    var r1 := UploadStep(UploadRun([], NoPaths, false), docs, env, ProfilePic);
    UploadStepFails(UploadRun([], NoPaths, false), docs, env, ProfilePic);
    var r2 := UploadStep(r1, docs, env, Aadhar);
    UploadStepFails(r1, docs, env, Aadhar);
    var r3 := UploadStep(r2, docs, env, Land);
    UploadStepFails(r2, docs, env, Land);
    UploadStepFails(r3, docs, env, Bank);
    var any := Refused(docs, env, ProfilePic) || Refused(docs, env, Aadhar)
      || Refused(docs, env, Land) || Refused(docs, env, Bank);
    assert RunUploads(docs, env).failed <==> any;
    if exists s :: Refused(docs, env, s) {
      var s :| Refused(docs, env, s);
      assert any by { match s { case ProfilePic => case Aadhar => case Land => case Bank => } }
    }
  }

  /** After a complete run, a slot has a path iff it held a file, and the
      path is the generated key in the slot's folder. */
  lemma RunUploadsPaths(docs: Documents<Option<File>>, env: Env, s: Slot)
    requires !RunUploads(docs, env).failed
    ensures RunUploads(docs, env).paths.At(s).Some? <==> docs.At(s).Some?
    ensures docs.At(s).Some? ==>
      RunUploads(docs, env).paths.At(s) == Some(StorageKey(Category(s), env.clock(s), docs.At(s).value))
  {
    var r0 := UploadRun([], NoPaths, false);
    var r1 := UploadStep(r0, docs, env, ProfilePic);
    var r2 := UploadStep(r1, docs, env, Aadhar);
    var r3 := UploadStep(r2, docs, env, Land);
    UploadStepPaths(r3, docs, env, Bank, s);
    UploadStepPaths(r2, docs, env, Land, s);
    UploadStepPaths(r1, docs, env, Aadhar, s);
    UploadStepPaths(r0, docs, env, ProfilePic, s);
    assert NoPaths.At(s) == None;
  }

  /** With no file in any slot nothing is uploaded and no path is set. */
  lemma RunUploadsEmpty(env: Env)
    ensures RunUploads(Documents(None, None, None, None), env) == UploadRun([], NoPaths, false)
  {
  }

  /** A validated input is created exactly when every present slot uploads,
      its transformed date is valid and the store accepts the create. */
  lemma AfterValidationCreates(b: RawFarmer, env: Env, nextId: nat)
    requires ParseInput(b, env.parseDate).Some?
    ensures var input := ParseInput(b, env.parseDate).value;
      var o := AfterValidation(input, env, nextId);
      && (o.response.Created? <==> o.created.Some?)
      && (o.created.Some? ==> o.response == Created(o.created.value))
      && (o.response.Created? <==>
            && (forall s :: !Refused(input.documents, env, s))
            && env.parseDate(b.dateOfBirth.s).ValidDate?
            && !env.createFails)
  {
    var input := ParseInput(b, env.parseDate).value;
    RunUploadsFails(input.documents, env);
    InputOutputAgree(b, env.parseDate, RunUploads(input.documents, env).paths);
  }

  /** A record is created exactly when the body parses, the input schema
      accepts it, every present slot uploads, the transformed date is valid
      and the store accepts the create; the response is 201 exactly then. */
  lemma CreatedExactly(fd: FormData, env: Env, nextId: nat)
    ensures var o := PostSpec(fd, env, nextId);
      && (o.response.Created? <==> o.created.Some?)
      && (o.created.Some? ==> o.response == Created(o.created.value))
      && (o.response.Created? <==>
            && AssembleBody(fd, env).Some?
            && InputValid(AssembleBody(fd, env).value)
            && (forall s :: !Refused(ParseInput(AssembleBody(fd, env).value, env.parseDate).value.documents, env, s))
            && env.parseDate(AssembleBody(fd, env).value.dateOfBirth.s).ValidDate?
            && !env.createFails)
  {
    var body := AssembleBody(fd, env);
    if body.Some? && InputValid(body.value) {
      AfterValidationCreates(body.value, env, nextId);
    }
  }

  /** POST answers without a status (the exception escapes the handler)
      exactly when the `fields` text does not parse; then nothing is stored
      or created.  A 500 never comes with a created record. */
  lemma PostStatusCodes(fd: FormData, env: Env, nextId: nat)
    ensures var o := PostSpec(fd, env, nextId);
      && (StatusCode(o.response).None? <==> env.parseJson(JsText(Get(fd, "fields"))).None?)
      && (StatusCode(o.response).None? ==> o.stored == [] && o.created.None?)
      && (StatusCode(o.response) == Some(500) ==> o.created.None?)
      && (StatusCode(o.response) == Some(201) ==> o.created == Some(o.response.farmer))
  {
    var body := AssembleBody(fd, env);
    if body.Some? && InputValid(body.value) {
      var input := ParseInput(body.value, env.parseDate).value;
      assert PostSpec(fd, env, nextId) == AfterValidation(input, env, nextId);
      AfterUploadsAnswers(input, RunUploads(input.documents, env), env, nextId);
    }
  }

  /** After validation the handler always answers: 201 with the created record or 500 without one. */
  lemma AfterUploadsAnswers(input: FarmerInput, run: UploadRun, env: Env, nextId: nat)
    ensures var o := AfterUploads(input, run, env, nextId);
      && !o.response.Unhandled?
      && (o.response.Created? <==> o.created.Some?)
      && (o.response.Created? ==> o.created == Some(o.response.farmer))
  {
  }

  /** No upload and no create happen unless the input schema accepts the body. */
  lemma NothingBeforeValidation(fd: FormData, env: Env, nextId: nat)
    requires AssembleBody(fd, env).None? || !InputValid(AssembleBody(fd, env).value)
    ensures PostSpec(fd, env, nextId).stored == []
    ensures PostSpec(fd, env, nextId).created.None?
    ensures !PostSpec(fd, env, nextId).response.Created?
  {
  }

  /** The created record carries the body's values unchanged (the date as
      transformed), its documents hold a path exactly for each slot that
      held a file, and each path lies in the slot's folder. */
  lemma CreatedRecordContents(fd: FormData, env: Env, nextId: nat, s: Slot)
    requires PostSpec(fd, env, nextId).response.Created?
    ensures AssembleBody(fd, env).Some?
    ensures var body := AssembleBody(fd, env).value;
      var rec := PostSpec(fd, env, nextId).response.farmer;
      && rec.id == nextId
      && InputValid(body)
      && Embed(WithDocuments(rec.farmer, Typed(body).documents), body.dateOfBirth.s) == body
      && rec.farmer.dateOfBirth == env.parseDate(body.dateOfBirth.s)
      && (rec.farmer.documents.At(s).Some? <==> Typed(body).documents.At(s).Some?)
      && (Typed(body).documents.At(s).Some? ==>
            rec.farmer.documents.At(s) == Some(StorageKey(Category(s), env.clock(s), Typed(body).documents.At(s).value)))
  {
    var body := AssembleBody(fd, env).value;
    var input := ParseInput(body, env.parseDate).value;
    RunUploadsPaths(input.documents, env, s);
    assert WithDocuments(input, Typed(body).documents) == WithDate(Typed(body), input.dateOfBirth);
  }

  /** The body depends on the environment only through `JSON.parse` and `parseFloat`. */
  lemma AssembleSameParsers(fd: FormData, e1: Env, e2: Env, missing: JsValue)
    requires e1.parseJson == e2.parseJson && e1.parseFloat == e2.parseFloat
    ensures AssembleWith(fd, e1, missing) == AssembleWith(fd, e2, missing)
  {
  }

  /** The uploads depend on the environment only through the clock and the
      blob store's answers. */
  lemma RunUploadsSameStore(docs: Documents<Option<File>>, e1: Env, e2: Env)
    requires e1.clock == e2.clock && e1.uploadFails == e2.uploadFails && e1.existing == e2.existing
    ensures RunUploads(docs, e1) == RunUploads(docs, e2)
  {
    var r1 := UploadStep(UploadRun([], NoPaths, false), docs, e1, ProfilePic);
    UploadStepSameStore(UploadRun([], NoPaths, false), docs, e1, e2, ProfilePic);
    var r2 := UploadStep(r1, docs, e1, Aadhar);
    UploadStepSameStore(r1, docs, e1, e2, Aadhar);
    var r3 := UploadStep(r2, docs, e1, Land);
    UploadStepSameStore(r2, docs, e1, e2, Land);
    UploadStepSameStore(r3, docs, e1, e2, Bank);
  }

  lemma UploadStepSameStore(run: UploadRun, docs: Documents<Option<File>>, e1: Env, e2: Env, s: Slot)
    requires e1.clock == e2.clock && e1.uploadFails == e2.uploadFails && e1.existing == e2.existing
    ensures UploadStep(run, docs, e1, s) == UploadStep(run, docs, e2, s)
  {
    assert UploadSlot(docs.At(s), s, e1) == UploadSlot(docs.At(s), s, e2);
  }

  lemma AfterValidationIgnoresStore(input: FarmerInput, env: Env, nextId: nat)
    ensures AfterValidation(input, env.(createFails := true), nextId).stored == AfterValidation(input, env, nextId).stored
    ensures !AfterValidation(input, env.(createFails := true), nextId).response.Created?
  {
    RunUploadsSameStore(input.documents, env.(createFails := true), env);
  }

  /** Uploaded files are not taken back when the create fails: the same
      objects are written whatever the record store answers. */
  lemma UploadsNotRolledBack(fd: FormData, env: Env, nextId: nat)
    ensures PostSpec(fd, env.(createFails := true), nextId).stored == PostSpec(fd, env, nextId).stored
    ensures !PostSpec(fd, env.(createFails := true), nextId).response.Created?
  {
    var env' := env.(createFails := true);
    AssembleSameParsers(fd, env', env, Undefined);
    var body := AssembleBody(fd, env);
    assert PostSpec(fd, env', nextId) == PostFrom(body, env', nextId);
    if body.Some? {
      var input := ParseInput(body.value, env.parseDate);
      if input.Some? {
        assert PostFrom(body, env', nextId) == AfterValidation(input.value, env', nextId);
        AfterValidationIgnoresStore(input.value, env, nextId);
      }
    }
  }

  /** As written, a request missing any one file part is refused: the part
      reads as null, which the optional document schema does not accept. */
  lemma MissingFilePartRefusedAsWritten(fd: FormData, env: Env, nextId: nat, s: Slot)
    requires Get(fd, SlotKey(s)) == None
    ensures !PostSpecAsWritten(fd, env, nextId).response.Created?
    ensures PostSpecAsWritten(fd, env, nextId).stored == []
  {
    var body := AssembleBodyAsWritten(fd, env);
    if body.Some? {
      assert body.value.documents == DocumentsOf(fd, Null);
      NullDocumentRejected(body.value, s);
    }
  }

  /** With no file part at all, every slot reads as `missing`. */
  lemma DocumentsOfAbsent(fd: FormData, missing: JsValue)
    requires forall s :: Get(fd, SlotKey(s)) == None
    ensures DocumentsOf(fd, missing) == Documents(missing, missing, missing, missing)
  {
    var d := DocumentsOf(fd, missing);
    assert Get(fd, SlotKey(ProfilePic)) == None && d.At(ProfilePic) == missing;
    assert Get(fd, SlotKey(Aadhar)) == None && d.At(Aadhar) == missing;
    assert Get(fd, SlotKey(Land)) == None && d.At(Land) == missing;
    assert Get(fd, SlotKey(Bank)) == None && d.At(Bank) == missing;
  }

  lemma NoFilesCreatedFrom(b: RawFarmer, env: Env, nextId: nat)
    requires b.documents == Documents(Undefined, Undefined, Undefined, Undefined)
    requires ParseInput(b, env.parseDate).Some?
    requires env.parseDate(b.dateOfBirth.s).ValidDate? && !env.createFails
    ensures var o := AfterValidation(ParseInput(b, env.parseDate).value, env, nextId);
      o.response.Created? && o.stored == [] && o.response.farmer.farmer.documents == NoPaths
  {
    var input := ParseInput(b, env.parseDate).value;
    assert input.documents == Typed(b).documents == Documents(None, None, None, None);
    RunUploadsEmpty(env);
    InputOutputAgree(b, env.parseDate, NoPaths);
  }

  /** With missing parts left undefined, a request without any file part is
      created when everything else is in order, with no upload and every
      document path undefined. */
  lemma NoFilesCreated(fd: FormData, env: Env, nextId: nat)
    requires forall s :: Get(fd, SlotKey(s)) == None
    requires AssembleBody(fd, env).Some? && InputValid(AssembleBody(fd, env).value)
    requires env.parseDate(AssembleBody(fd, env).value.dateOfBirth.s).ValidDate?
    requires !env.createFails
    ensures PostSpec(fd, env, nextId).response.Created?
    ensures PostSpec(fd, env, nextId).stored == []
    ensures PostSpec(fd, env, nextId).response.farmer.farmer.documents == NoPaths
  {
    var body := AssembleBody(fd, env).value;
    DocumentsOfAbsent(fd, Undefined);
    NoFilesCreatedFrom(body, env, nextId);
    assert PostSpec(fd, env, nextId) == AfterValidation(ParseInput(body, env.parseDate).value, env, nextId);
  }

  // ---------------------------------------------------------------------------
  // GET: one page of records

  datatype ListResponse = Farmers(farmers: seq<FarmerRecord>) | ListError

  /** `searchParams.get(key) || fallback`: a missing or empty parameter takes the fallback. */
  function ParamOr(p: Option<string>, fallback: string): string
  {
    if p.None? || p.value == "" then fallback else p.value
  }

  /** `skip = (page - 1) * limit`, NaN when either is NaN. */
  function Skip(page: Option<int>, limit: Option<int>): Option<int>
  {
    if page.Some? && limit.Some? then Some((page.value - 1) * limit.value) else None
  }

  /** GET /api/farmer?page=&limit=, with the store's failure as an input. */
  method List(pageParam: Option<string>, limitParam: Option<string>, table: FarmerTable, fails: bool)
    returns (resp: ListResponse)
    ensures var page := ParseInt(ParamOr(pageParam, "1"));
      var limit := ParseInt(ParamOr(limitParam, "10"));
      var skip := Skip(page, limit);
      && (resp.Farmers? <==> !fails && skip.Some? && skip.value >= 0 && limit.value >= 0)
      && (resp.Farmers? ==> resp.farmers == Window(table.rows, skip.value, limit.value))
  {
    var page := ParseInt(ParamOr(pageParam, "1"));
    var limit := ParseInt(ParamOr(limitParam, "10"));
    var r := table.FindMany(Skip(page, limit), limit, fails);
    if r.Err? {
      return ListError;
    }
    return Farmers(r.value);
  }

  /** The defaults `"1"` and `"10"` parse as page 1 of ten records, which starts at offset 0. */
  lemma ParseDefaults()
    ensures ParseInt(ParamOr(None, "1")) == Some(1) && ParseInt(ParamOr(None, "10")) == Some(10)
    ensures Skip(ParseInt(ParamOr(None, "1")), ParseInt(ParamOr(None, "10"))) == Some(0)
  {
    assert ParamOr(None, "1") == IntToString(1) by { assert NatToString(1) == "1"; }
    assert ParamOr(None, "10") == IntToString(10) by { assert NatToString(10) == "10"; }
    ParseIntOfIntToString(1);
    ParseIntOfIntToString(10);
  }

  /** Without parameters the first ten records are returned. */
  lemma DefaultsListFirstTen(rows: seq<FarmerRecord>)
    ensures Window(rows, 0, 10) == rows[..if |rows| < 10 then |rows| else 10]
  {
  }

  /** Page p of size l holds the records at offsets (p-1)*l onwards, at most l of them. */
  lemma PageContents(rows: seq<FarmerRecord>, p: nat, l: nat, j: nat)
    requires p >= 1 && j < |Window(rows, (p - 1) * l, l)|
    ensures j < l && (p - 1) * l + j < |rows|
    ensures Window(rows, (p - 1) * l, l)[j] == rows[(p - 1) * l + j]
  {
  }

  /** Pages 1..n laid end to end. */
  function Pages(rows: seq<FarmerRecord>, l: nat, n: nat): seq<FarmerRecord>
  {
    if n == 0 then [] else Pages(rows, l, n - 1) + Window(rows, (n - 1) * l, l)
  }

  /** Consecutive pages tile the table: pages 1..n are its first n*l records. */
  lemma {:induction false} PagesTile(rows: seq<FarmerRecord>, l: nat, n: nat)
    ensures Pages(rows, l, n) == rows[..if n * l < |rows| then n * l else |rows|]
  {
    if n > 0 {
      PagesTile(rows, l, n - 1);
      var a := if (n - 1) * l < |rows| then (n - 1) * l else |rows|;
      var b := if n * l < |rows| then n * l else |rows|;
      assert (n - 1) * l + l == n * l;
      assert Window(rows, (n - 1) * l, l) == rows[a..b];
      assert rows[..a] + rows[a..b] == rows[..b];
    }
  }
}
