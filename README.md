# Farmer registration: schemas, storage keys, age, form state and the `/api/farmer` route

This project models the core of a small farmer-registration web application.
Farmers are registered with personal, location and bank details, a list of
land fields and up to four documents: a profile picture and scans of the
Aadhar card, the land record and the bank book. The model covers:

- **The record schemas** (`lib/schema.ts`), as predicates over a typed
  record and over the loosely typed body the route builds. Module `Schema`,
  file `schema.dfy`.
- **The storage helpers** (`lib/utils.ts`). `generateFileName` is a
  character filter plus a timestamp prefix. `uploadFileToSupabase` is an
  upload into the `files` bucket, modelled as a class holding the bucket's
  objects. Module `Utils`.
- **The route** (`app/api/farmer/route.ts`). POST turns the multipart request
  into a body, validates it, uploads each present document into its
  category folder, re-validates with the output schema and creates the
  nested record. GET returns one page of records. POST is a method over a
  blob bucket and a record table. Both are classes. Their failures, the
  keys the bucket already holds, the clock, `JSON.parse`, `parseFloat` on
  text and `new Date(text)` are parameters. The method is proved equal to a functional specification,
  `PostSpec`, and the lemmas are stated about that. Module `Route`.
- **The single-page form** (`app/components/FarmerForm.tsx`). Module
  `FarmerForm`. It covers:
  - the client schema, including the IFSC regular expression, checked by a
    small anchored pattern matcher;
  - `calculateAge` as a method proved against "whole years completed";
  - the form store with `append`/`remove`;
  - the four file slots;
  - the `onSubmit` serialiser, a method with the two `forEach` loops.
- **The age effect** (`app/components/personal-info-tab.tsx`), with its two
  clamps. Module `PersonalInfoTab`.
- **The confirm-before-send form** (`app/components/RegistrationForm.tsx`):
  the `open` / `formData` / `files` state machine. Module `RegistrationForm`.
- **The alternate test page** (`app/test/page.tsx`): its per-input
  `register` rules, file slots and serialiser. Module `TestPage`.
- **End to end** (`end_to_end.dfy`). What the route reads from the request
  the form sends is exactly the form's record. So a submission's outcome can
  be stated in terms of the form's values.

The three pages share one form store, one file-slot model and one
serialiser: the handlers in the three files are the same code. Module
`Platform` holds the web-platform values:
- `FormData` with `get`;
- the JavaScript values a schema is handed;
- the four document slots;
- `String(n)`, `parseInt` and the UTF-16 length JavaScript gives a string.

`RegistrationForm.tsx` and `personal-info-tab.tsx` import a
`FarmerFormSchema` from `lib/schema.ts`, which defines no such export. The
model validates those forms with the schema defined in `FarmerForm.tsx`. The
order of `Object.entries(data)` is taken to be the order of the
`defaultValues` keys, which is how react-hook-form builds the values.

## Model

| member | source | states |
|---|---|---|
| Platform.GetFirst | app/api/farmer/route.ts:20-39 | `formData.get(key)` is the first entry appended under `key` |
| Platform.GetAbsent | app/api/farmer/route.ts:49-52 | a key with no entry reads as null, not as undefined |
| Platform.GetSkip | app/api/farmer/route.ts:49-52 | entries under other keys appended before do not change what a key reads as |
| Platform.NatToString | app/components/FarmerForm.tsx:126 | `String(n)` of a whole number is non-empty, all decimal digits, with no leading zero |
| Platform.DigitsOfNat | app/components/FarmerForm.tsx:126 | the digits `String(n)` prints denote `n` |
| Platform.ParseInt | app/api/farmer/route.ts:31 | `parseInt` gives NaN exactly when no digit of the selected radix (16 after a `0x` or `0X` prefix, 10 otherwise) follows the leading white space and the optional sign |
| Platform.ParseIntHex | app/api/farmer/route.ts:130-131 | `?page=0x2` reads as page 2, and a bare `0x` as NaN |
| Platform.ParseIntOfHex | app/api/farmer/route.ts:130-131 | an optional sign, a `0x` or `0X` prefix and then only hexadecimal digits parse to their value in radix 16, negated after `-` |
| Platform.ParseIntVerticalTab | app/api/farmer/route.ts:31 | a leading vertical tab is skipped like any other JavaScript white space |
| Platform.ParseIntOfSigned | app/api/farmer/route.ts:31 | text with no leading space, an optional sign and then only digits parses to their value, negated after `-` |
| Platform.JsLengthNoAstral | lib/schema.ts:43 | without characters above U+FFFF, the JavaScript length of a string is its character count |
| Platform.JsLengthAllAstral | lib/schema.ts:43 | a string of characters above U+FFFF has JavaScript length twice its character count |
| Platform.ParseIntOfIntToString | app/api/farmer/route.ts:31 | `parseInt(String(i)) == i` for every integer, so the age the client sends is the age the server reads |
| Schema.ParseInput | lib/schema.ts:38-56 | FarmerInputSchema accepts a body iff it is well typed and satisfies every constraint; the result satisfies them, carries the transformed date, and turns back into the same body |
| Schema.EmbedTyped | lib/schema.ts:38-56 | the typed view of a well-typed body turns back into that body |
| Schema.ParseOutput | lib/schema.ts:59-77 | FarmerOutputSchema accepts a record iff it satisfies the constraints and its date is a valid `Date`, and returns it unchanged |
| Schema.ParseEmbed | lib/schema.ts:38-56 | the body of a typed record is accepted iff the record satisfies the constraints, and parses back to that record with its date transformed |
| Schema.AadharLengthExact | lib/schema.ts:43 | with the rest of the body valid, an Aadhar number is accepted iff its JavaScript length (UTF-16 code units) is 12, whatever its characters are |
| Schema.AadharCodeUnits | lib/schema.ts:43 | six astral characters pass as an Aadhar number and twelve do not, while an ASCII one needs twelve |
| Schema.ContactLengthExact | lib/schema.ts:51 | a contact number is accepted iff its JavaScript length is 10 |
| Schema.BankStringsConstraints | lib/schema.ts:4-10 | bank details are accepted iff the IFSC code's JavaScript length is 11; branch, address, bank name and code may be any string, empty included |
| Schema.AgeStrictlyPositive | lib/schema.ts:50 | the age is accepted iff it is a number above 0; NaN, 0 and negatives are refused |
| Schema.FieldEntryConstraints | lib/schema.ts:13-19 | a field entry is accepted iff it is well typed with area and yield above 0; survey number and coordinates are unconstrained |
| Schema.EmptyValuesAccepted | lib/schema.ts:39-54 | an empty field list and empty names, places and account number are accepted |
| Schema.NullDocumentRejected | lib/schema.ts:22-27 | a document slot holding null makes the body invalid |
| Schema.DocumentSlotOptional | lib/schema.ts:22-27 | with the rest valid, a slot may hold a file or nothing at all, and no other value |
| Schema.InputOutputAgree | lib/schema.ts:38-77 | a parsed input with any optional paths in place of its files passes the output schema iff its transformed date is valid |
| Utils.SanitiseAllowed | lib/utils.ts:10 | the sanitised name holds only ASCII letters, digits and dots, and is never longer |
| Utils.SanitiseAppend | lib/utils.ts:10 | sanitising distributes over concatenation: an order-preserving filter |
| Utils.SanitiseCounts | lib/utils.ts:10 | each allowed character is kept as often as it occurs, every other character is dropped (the global flag) |
| Utils.SanitiseKeepsAllowed | lib/utils.ts:10 | a name of allowed characters only is unchanged |
| Utils.SanitiseIdempotent | lib/utils.ts:10 | sanitising twice is sanitising once |
| Utils.SplitAtFirstDash | lib/utils.ts:10 | text with no dash, a dash, then anything splits back at that first dash |
| Utils.FileNameSplits | lib/utils.ts:9-11 | the generated name is the timestamp's digits, a dash and the sanitised name, and `parseInt` of its prefix recovers the timestamp |
| Utils.NoSlashInFileName | lib/utils.ts:10 | a generated name contains no `/` |
| Utils.StorageKeysSeparateCategories | lib/utils.ts:15 | keys `path/name` under two slash-free folders are equal only if the folders are |
| Utils.FolderOfKey | lib/utils.ts:15 | the text before the first slash of a key `path/name` is the path |
| Utils.FileBucket.UploadFile | lib/utils.ts:13-19 | the upload succeeds iff the store does not fail and the key `path/generatedName` is not yet in the bucket (no `upsert`); it then stores the file under that key and returns it; a failure is thrown and writes nothing |
| Route.Category | app/api/farmer/route.ts:63-66 | each slot's fixed folder contains no `/` |
| Route.CategoriesSeparateSlots | app/api/farmer/route.ts:63-66 | storage keys of different slots never collide |
| Route.DocumentsOf | app/api/farmer/route.ts:48-53 | each slot reads whatever was sent under its own key, and a missing part as the given value |
| Route.Window | app/api/farmer/route.ts:134-136 | a page holds at most `take` records, the records from offset `skip` in the table's order, and exactly `take` when the table has enough |
| Route.FarmerTable.Create | app/api/farmer/route.ts:87-118 | a successful create appends one record with the next id and keeps ids increasing; a failed one changes nothing |
| Route.FarmerTable.FindMany | app/api/farmer/route.ts:134-142 | the query answers iff the store works and skip and take are numbers, not negative; it returns the window of the rows in the table's order |
| Route.IdsUnique | app/api/farmer/route.ts:87 | ids in the table are distinct |
| Route.UploadIfPresent | app/api/farmer/route.ts:63-66 | a slot is uploaded only when it holds a file, into its slot's folder; the bucket changes only on success |
| Route.Upload | app/api/farmer/route.ts:63-66 | one awaited upload advances the run as the specification does and keeps the bucket in step with it; the request's earlier uploads lie in other folders, so they never take this slot's key |
| Route.CreateValidated | app/api/farmer/route.ts:59-124 | after validation: the response, the bucket and the table are those the specification gives, and the next id advances exactly when a record is created |
| Route.Post | app/api/farmer/route.ts:14-126 | POST's response, the bucket's objects and the table's rows are those of `PostSpec`; the table stays valid; the next id advances by one exactly when a record is created |
| Route.UploadStepFails | app/api/farmer/route.ts:63-66 | one step fails iff an earlier one did or its slot holds a file the store refuses, by failing or because the key is already taken |
| Route.UploadStepPaths | app/api/farmer/route.ts:63-66 | a step that does not fail sets only its own slot's path, exactly when that slot holds a file |
| Route.RunUploadsFails | app/api/farmer/route.ts:63-66 | the upload run fails iff some slot holding a file is refused: the store fails or the slot's key was already in the bucket |
| Route.RunUploadsPaths | app/api/farmer/route.ts:63-66 | after a complete run a slot has a path iff it held a file, and the path is the generated key in the slot's folder |
| Route.RunUploadsEmpty | app/api/farmer/route.ts:63-66 | with no file in any slot nothing is uploaded |
| Route.PostStatusCodes | app/api/farmer/route.ts:41-125 | POST throws without a status iff the `fields` text does not parse, and then stores nothing; a 500 never comes with a record; a 201 carries the created record |
| Route.AfterUploadsAnswers | app/api/farmer/route.ts:75-124 | once inside the `try`, the handler always answers: 201 with the record or 500 without one |
| Route.AfterValidationCreates | app/api/farmer/route.ts:59-118 | a validated input is created iff no present slot is refused, its date is valid and the store accepts the create |
| Route.CreatedExactly | app/api/farmer/route.ts:59-121 | a record is created (and 201 answered) iff the body parses, passes the input schema, no present slot is refused, the date is valid and the store accepts |
| Route.NothingBeforeValidation | app/api/farmer/route.ts:59-66 | no upload and no create happen unless the input schema accepts the body |
| Route.CreatedRecordContents | app/api/farmer/route.ts:75-118 | the created record carries the body's values with the date transformed, and a path in the slot's folder exactly for each slot that held a file |
| Route.UploadsNotRolledBack | app/api/farmer/route.ts:63-124 | when the create fails, the same files have already been written and are not removed |
| Route.MissingFilePartRefusedAsWritten | app/api/farmer/route.ts:48-53 | as written, a request missing any one file part is refused without uploads |
| Route.NoFilesCreated | app/api/farmer/route.ts:48-53 | with a missing part read as undefined, a request with no file part is created with no upload and no path |
| Route.List | app/api/farmer/route.ts:128-149 | GET answers with records iff the store works and the parsed skip and limit are numbers, not negative; the records are the window at `(page-1)*limit` |
| Route.ParseDefaults | app/api/farmer/route.ts:130-131 | without parameters page is 1 and limit is 10, so skip is 0 |
| Route.DefaultsListFirstTen | app/api/farmer/route.ts:130-136 | the default window is the first ten records, or all of them when there are fewer |
| Route.PageContents | app/api/farmer/route.ts:135-136 | record `j` of page `p` is the record at offset `(p-1)*l + j` |
| Route.PagesTile | app/api/farmer/route.ts:135-136 | pages 1..n laid end to end are the first `n*l` records in the table's order: no record is skipped or repeated |
| FarmerForm.MatchesLength | app/components/FarmerForm.tsx:35 | a fixed-count anchored pattern fixes the length of what it matches |
| FarmerForm.IfscCharacters | app/components/FarmerForm.tsx:35 | the IFSC pattern accepts exactly 4 capitals, `0`, then 6 capitals or digits, so length 11 |
| FarmerForm.DigitsPatternExactly | app/test/page.tsx:149 | `^\d{n}$` accepts exactly the strings of n ASCII digits |
| FarmerForm.DefaultValuesRefused | app/components/FarmerForm.tsx:56-86 | the untouched form does not pass the schema |
| FarmerForm.FieldEntryClientServer | app/components/FarmerForm.tsx:43-44 | a client-accepted field entry is server-accepted iff its area and yield are above 0 |
| FarmerForm.CompletedYearsUnique | app/components/FarmerForm.tsx:107-116 | at most one count of whole years fits a birth date and today |
| FarmerForm.CalculateAge | app/components/FarmerForm.tsx:107-116 | the result is the number of whole years since birth |
| FarmerForm.BirthdayGivesFullDifference | app/components/FarmerForm.tsx:110-113 | on the birthday the full year difference is returned |
| FarmerForm.FutureBirthNegative | app/components/FarmerForm.tsx:107-116 | there is no clamping: a birth date after today gives a negative age |
| FarmerForm.FormStore.constructor | app/components/FarmerForm.tsx:56-86 | the form starts at `defaultValues`, with one zeroed field entry |
| FarmerForm.FormStore.SetAge | app/components/FarmerForm.tsx:256 | only the age changes |
| FarmerForm.FormStore.SetDateOfBirth | app/components/FarmerForm.tsx:253 | only the date of birth changes |
| FarmerForm.FormStore.AppendField | app/components/FarmerForm.tsx:559-566 | a zeroed entry is added at the end; nothing else changes |
| FarmerForm.FormStore.RemoveField | app/components/FarmerForm.tsx:545-553 | the entry at an index above 0 is removed, the others keep their order, and the list keeps at least one entry |
| FarmerForm.ChooseFileEffect | app/components/FarmerForm.tsx:100-105 | choosing files sets the named slot to the first one; choosing none changes nothing; other slots are unchanged |
| FarmerForm.ChooseFileOverwritesAndCommutes | app/components/FarmerForm.tsx:100-105 | a later choice for a slot replaces the earlier one; choices for different slots commute |
| FarmerForm.FormKeysDistinct | app/components/FarmerForm.tsx:118-133 | the form keys are distinct from each other and from the slot keys |
| FarmerForm.Entries | app/components/FarmerForm.tsx:122 | one entry per form key, in key order |
| FarmerForm.BuildFormData | app/components/FarmerForm.tsx:118-133 | the two loops build the entries' text parts followed by one file part per filled slot, in slot order |
| FarmerForm.GetEntry | app/components/FarmerForm.tsx:122-128 | each form key reads back from the request as its value's text: `fields` through `JSON.stringify`, the rest through `String` |
| FarmerForm.GetFile | app/components/FarmerForm.tsx:131-133 | a slot's key reads back as its file when filled, and as no part at all when empty |
| FarmerForm.GetFileParts | app/components/FarmerForm.tsx:131-133 | among the file parts a slot key reads as that slot's file exactly when it is filled |
| FarmerForm.FarmerFormPage.constructor | app/components/FarmerForm.tsx:54-98 | one zeroed field entry and four null slots |
| FarmerForm.FarmerFormPage.HandleFileChange | app/components/FarmerForm.tsx:100-105 | the slots change as `ChooseFile` says |
| FarmerForm.FarmerFormPage.DateOfBirthChanged | app/components/FarmerForm.tsx:253-258 | the date is stored and the age becomes the whole years since birth; nothing else changes |
| FarmerForm.FarmerFormPage.Submit | app/components/FarmerForm.tsx:118-133 | a request is sent iff the schema accepts the values, and it is their serialisation with the current files |
| PersonalInfoTab.ClampedAge | app/components/personal-info-tab.tsx:24-38 | the warning shows iff the birth instant is after now; the age is never negative, is the whole years when positive, and is 0 iff the first birthday is not reached |
| PersonalInfoTab.FutureClampRedundant | app/components/personal-info-tab.tsx:34-38 | the future-date rule never changes the value the negative-age clamp has already given |
| PersonalInfoTab.AgeEffect | app/components/personal-info-tab.tsx:22-42 | nothing is written while the date is empty; otherwise only the age changes, to the clamped age |
| PersonalInfoTab.ClampedIsMaxWithZero | app/components/personal-info-tab.tsx:27-34 | the clamped age is the whole years completed when that is not negative, and 0 otherwise |
| RegistrationForm.RegistrationFormPage.constructor | app/components/RegistrationForm.tsx:42-89 | one zeroed field entry, four null slots, nothing stored, dialog closed |
| RegistrationForm.RegistrationFormPage.HandleFileChange | app/components/RegistrationForm.tsx:91-96 | only the named slot changes, and only when a file was chosen; dialog and stored values unchanged |
| RegistrationForm.RegistrationFormPage.Submit | app/components/RegistrationForm.tsx:98-101 | accepted values are stored and the dialog opens, nothing is sent; refused values change nothing |
| RegistrationForm.RegistrationFormPage.Confirm | app/components/RegistrationForm.tsx:103-140 | with nothing stored, nothing happens; otherwise the stored values and current files are sent, serialised, and the dialog closes |
| RegistrationForm.RegistrationFormPage.Cancel | app/components/RegistrationForm.tsx:224 | the dialog closes and nothing is sent |
| RegistrationForm.ConfirmedValuesValid | app/components/RegistrationForm.tsx:103-120 | what Confirm sends was accepted by the schema, with a file part exactly for each filled slot |
| TestPage.RulesAreSchemaPlusDigits | app/test/page.tsx:101-347 | the page's rules hold iff the form schema holds and the Aadhar and contact numbers are all digits |
| TestPage.LettersPassOnlyTheSchema | app/test/page.tsx:149 | twelve letters pass the schema's length rule but not the page's digit pattern |
| TestPage.TestFormPage.constructor | app/test/page.tsx:13-47 | one zeroed field entry and four null slots |
| TestPage.TestFormPage.HandleFileChange | app/test/page.tsx:49-54 | the slots change as `ChooseFile` says |
| TestPage.TestFormPage.Submit | app/test/page.tsx:56-71 | a request is sent iff every rule holds, and it is the serialisation of the values and files |
| EndToEnd.ReadScalars | app/api/farmer/route.ts:19-40 | the scalar keys are copied by name, the five bank keys grouped under `bankDetails`, and the age parsed back to the form's age |
| EndToEnd.ReadDocuments | app/api/farmer/route.ts:48-53 | the route reads the form's filled slots as their files and its empty slots as missing |
| EndToEnd.FieldsRead | app/api/farmer/route.ts:41-47 | the parsed field list becomes the body of the form's fields |
| EndToEnd.ServerReadsClient | app/api/farmer/route.ts:19-54 | the body the route assembles from the form's request is exactly the body of the form's record |
| EndToEnd.ClientValidServerValid | app/components/FarmerForm.tsx:20-49 | for accepted form values, the server constraints hold iff every area and yield is above 0 |
| EndToEnd.ClientAcceptedServerAccepts | app/api/farmer/route.ts:59 | form values the client accepts, with positive areas and yields, pass the input schema |
| EndToEnd.ZeroAreaRefusedByServer | app/components/FarmerForm.tsx:43-44 | a field with area 0 passes the client but gets a 500 with no upload |
| EndToEnd.ClientSubmissionCreated | app/api/farmer/route.ts:59-121 | a valid form whose filled slots are not refused and whose date and create succeed gets 201, with a path exactly for each filled slot |
| EndToEnd.AsWrittenNeedsEveryFile | app/api/farmer/route.ts:49-52 | as written, a submission with any slot left empty is not created |

## Left out

- Supabase storage and Prisma are classes here, holding a map of objects and a sequence of records. Their failures are inputs.
- `fetch` is not modelled. `FarmerFormPage.Submit` and `RegistrationFormPage.Confirm` return the `FormData` that would be posted; the response and the `alert` after it are left out.
- Logging through `console` has no effect on the state and is left out. The future-date warning is returned as a flag.
- `Date.now()` and `new Date(...)` are parameters. A date is given as its calendar fields and the time of day. Time zones, and the NaN age an invalid date gives, are not modelled.
- `JSON.stringify`, `JSON.parse` and `parseFloat` on text are parameters. The end-to-end lemmas assume that `JSON.parse(JSON.stringify(fields))` gives the fields back.
- Platform.ParseInt: the value read is an exact integer. JavaScript rounds a magnitude above 2^53 to the nearest double; numbers are unbounded integers here.
- Platform.NatToString: prints every natural number in plain digits. JavaScript's `String(n)` switches to exponent notation from 1e21; numbers are unbounded here.
- Platform.DigitsOfNat: the digits read back as `n` for every natural number, where JavaScript's digits stop at the 1e21 threshold; numbers are unbounded here.
- Platform.ParseIntOfIntToString: the round trip holds for every integer. In JavaScript it holds only below 2^53, where numbers are exact; an age is a small number, so the model does not bound it.
- Strings are sequences of Unicode scalar values, so a lone surrogate, which a JavaScript string may hold, cannot be expressed. Lengths are counted in UTF-16 code units as JavaScript counts them.
- Route.FarmerTable.FindMany: a negative or NaN skip or take is reported as an error. The real query's behaviour for such values belongs to the ORM and is not modelled.
- Route.FarmerTable.FindMany: rows come back in insertion order. The query has no `orderBy`, so the database promises no order at all; the model fixes one.
- Route.PagesTile: the tiling holds for the single fixed order the model gives the table. Without `orderBy`, two page requests may see different orders and so skip or repeat records.
- Route.FarmerTable.Create: the created record is modelled with its nested documents, bank details and fields. Without an `include`, the real create answers with the scalar columns only.
- Concurrency between requests, and the ordering of awaited calls beyond their sequence, are not modelled.
- The client's numbers are whole ages and real areas. NaN from an empty number input and fractional ages are not modelled. On the client and in the route a JavaScript number is a finite real (`Platform.JsValue.Number`, `Route.Env.parseFloat`), so ±Infinity is not modelled either: `parseFloat("Infinity")` gives Infinity, which `z.number().positive()` accepts.
- TestPage.TestFormPage.Submit: the page's number inputs have no `valueAsNumber`, so their values are really text. The model checks them as numbers.
- react-hook-form's machinery is reduced to the values it holds and to the schema (or rules) gating submission. This covers `watch`, `register`, error messages and re-validation on `setValue`.
- The markup-only parts are left out: the tabs, the dialog markup, `cn`, the `[id]` route and `app/api/test/route.ts`. The `fields-tab.tsx` append and remove buttons are the same `FormStore` operations.
- The form offers fixed choices for gender and community, but the server does not constrain them. Both are plain strings here.

## Findings

| source | as written | input that shows it | evidently intended | confidence | as-written member | corrected member |
|---|---|---|---|---|---|---|
| app/api/farmer/route.ts:49-52 | each document is read with `formData.get`, which gives null for a missing part; `z.instanceof(File).optional()` (lib/schema.ts:23-26) accepts only a file or undefined | any request, for example from the form, with no `profilePic` part: POST answers 500 and creates nothing | documents are optional: a request without a file part is created, with no path for that slot | not executed | Route.MissingFilePartRefusedAsWritten | Route.NoFilesCreated |

The rest of the model, including `Route.Post` and the end-to-end lemmas,
uses the corrected assembly `Route.AssembleBody`, which reads a missing part
as undefined. `Route.AssembleBodyAsWritten` and `Route.PostSpecAsWritten`
keep the code as written. `EndToEnd.AsWrittenNeedsEveryFile` shows the
effect on the form: as written, a submission is created only when all four
slots are filled.
