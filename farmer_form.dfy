/** The single-page registration form of app/components/FarmerForm.tsx: the
    values react-hook-form keeps, the client schema they must satisfy, the
    age computed from the date of birth, the four file slots, and the
    serialiser that turns values and files into the multipart request.
    The page's form store, file slots and serialiser are shared with the
    confirm-before-send form and the test page. */
module FarmerForm {
  import opened Platform
  import Schema

  // ---------------------------------------------------------------------------
  // Form values

  /** The values of the form, keys in the order of `defaultValues`. */
  datatype FormValues = FormValues(
    farmerName: string, relationship: string, gender: string, community: string,
    aadharNumber: string, state: string, district: string, mandal: string,
    village: string, panchayath: string, dateOfBirth: string, age: int,
    contactNumber: string, accountNumber: string, ifscCode: string,
    branchName: string, address: string, bankName: string, bankCode: string,
    fields: seq<Schema.Field>)

  /** The entry `append` adds and the form starts with. */
  const ZeroField: Schema.Field := Schema.Field("", 0.0, 0.0, 0.0, 0.0)

  const DefaultValues: FormValues :=
    FormValues("", "", "", "", "", "", "", "", "", "", "", 0, "", "", "", "", "", "", "", [ZeroField])

  // ---------------------------------------------------------------------------
  // Anchored patterns of the form `^c1{n1}c2{n2}...$`

  datatype CharClass = UpperLetter | UpperOrDigit | DecimalDigit | Exactly(c: char)

  predicate InClass(c: char, k: CharClass)
  {
    match k
    case UpperLetter => 'A' <= c <= 'Z'
    case UpperOrDigit => ('A' <= c <= 'Z') || ('0' <= c <= '9')
    case DecimalDigit => IsDigit(c)
    case Exactly(d) => c == d
  }

  /** `count` characters of one class in a row. */
  datatype Piece = Piece(cls: CharClass, count: nat)

  /** The whole string is the pieces one after another (`$` without the
      multiline flag matches only at the end of the input). */
  predicate Matches(s: string, pat: seq<Piece>)
    decreases pat
  {
    if pat == [] then s == []
    else
      && |s| >= pat[0].count
      && (forall i :: 0 <= i < pat[0].count ==> InClass(s[i], pat[0].cls))
      && Matches(s[pat[0].count..], pat[1..])
  }

  function PatternLength(pat: seq<Piece>): nat
  {
    if pat == [] then 0 else pat[0].count + PatternLength(pat[1..])
  }

  /** A fixed-count pattern fixes the length of what it matches. */
  lemma {:induction false} MatchesLength(s: string, pat: seq<Piece>)
    requires Matches(s, pat)
    ensures |s| == PatternLength(pat)
    decreases pat
  {
    if pat != [] {
      MatchesLength(s[pat[0].count..], pat[1..]);
    }
  }

  /** `/^[A-Z]{4}0[A-Z0-9]{6}$/`. */
  const IfscPattern: seq<Piece> := [Piece(UpperLetter, 4), Piece(Exactly('0'), 1), Piece(UpperOrDigit, 6)]

  /** What the IFSC pattern accepts, character by character; it implies length 11. */
  lemma IfscCharacters(s: string)
    ensures Matches(s, IfscPattern) <==>
      && |s| == 11
      && (forall i :: 0 <= i < 4 ==> 'A' <= s[i] <= 'Z')
      && s[4] == '0'
      && (forall i :: 5 <= i < 11 ==> ('A' <= s[i] <= 'Z') || ('0' <= s[i] <= '9'))
  {
    var p1 := IfscPattern[1..];
    var p2 := IfscPattern[2..];
    assert p1 == [Piece(Exactly('0'), 1), Piece(UpperOrDigit, 6)];
    assert p2 == [Piece(UpperOrDigit, 6)];
    assert p2[1..] == [];
    if |s| == 11 {
      assert s[4..][1..] == s[5..];
      assert forall i :: 0 <= i < 6 ==> s[5..][i] == s[5 + i];
      assert s[5..][6..] == [];
    }
    if Matches(s, IfscPattern) {
      MatchesLength(s, IfscPattern);
    }
  }

  /** `/^\d{n}$/` (`\d` is ASCII digits only). */
  function DigitsPattern(n: nat): seq<Piece>
  {
    [Piece(DecimalDigit, n)]
  }

  lemma DigitsPatternExactly(s: string, n: nat)
    ensures Matches(s, DigitsPattern(n)) <==> |s| == n && forall i :: 0 <= i < |s| ==> IsDigit(s[i])
  {
    assert DigitsPattern(n)[1..] == [];
  }

  // ---------------------------------------------------------------------------
  // The client schema

  /** One element of the `fields` array: a survey number, and an area and a
      yield that may be zero. */
  predicate FieldEntryValid(f: Schema.Field)
  {
    |f.surveyNumber| >= 1 && f.areaHa >= 0.0 && f.yieldEstimate >= 0.0
  }

  /** FarmerFormSchema: every text non-empty, Aadhar of JavaScript length
      12, contact of JavaScript length 10, an IFSC code matching the pattern,
      age at least 18.  (`.min(1)` holds of exactly the non-empty strings,
      however their length is counted.) */
  predicate FormValid(v: FormValues)
  {
    && |v.farmerName| >= 1 && |v.relationship| >= 1 && |v.gender| >= 1 && |v.community| >= 1
    && JsLength(v.aadharNumber) == 12
    && |v.state| >= 1 && |v.district| >= 1 && |v.mandal| >= 1 && |v.village| >= 1 && |v.panchayath| >= 1
    && |v.dateOfBirth| >= 1
    && v.age >= 18
    && JsLength(v.contactNumber) == 10
    && |v.accountNumber| >= 1
    && Matches(v.ifscCode, IfscPattern)
    && |v.branchName| >= 1 && |v.address| >= 1 && |v.bankName| >= 1 && |v.bankCode| >= 1
    && (forall i :: 0 <= i < |v.fields| ==> FieldEntryValid(v.fields[i]))
  }

  /** The untouched form is refused: its name is empty and its age is 0. */
  lemma DefaultValuesRefused()
    ensures !FormValid(DefaultValues)
    ensures !FormValid(DefaultValues.(farmerName := "x"))
  {
  }

  /** A field entry the client accepts with a zero area or yield is one the
      server schema refuses; with both positive the server accepts it. */
  lemma FieldEntryClientServer(f: Schema.Field)
    requires FieldEntryValid(f)
    ensures Schema.FieldValid(f) <==> f.areaHa > 0.0 && f.yieldEstimate > 0.0
  {
  }

  // ---------------------------------------------------------------------------
  // Age from the date of birth

  /** A calendar date as `getFullYear`, `getMonth` and `getDate` give it. */
  datatype Date = Date(year: int, month: int, day: int)

  /** Calendar order: by year, then month, then day. */
  predicate DateLe(a: Date, b: Date)
  {
    a.year < b.year || (a.year == b.year && (a.month < b.month || (a.month == b.month && a.day <= b.day)))
  }

  function Anniversary(birth: Date, n: int): Date
  {
    Date(birth.year + n, birth.month, birth.day)
  }

  /** `n` whole years have passed: the n-th anniversary is on or before
      today and the next one is after it. */
  predicate CompletedYears(birth: Date, today: Date, n: int)
  {
    DateLe(Anniversary(birth, n), today) && !DateLe(Anniversary(birth, n + 1), today)
  }

  /** At most one count of whole years fits. */
  lemma CompletedYearsUnique(birth: Date, today: Date, n: int, m: int)
    requires CompletedYears(birth, today, n) && CompletedYears(birth, today, m)
    ensures n == m
  {
  }

  /** `calculateAge(dob)`: the year difference, one less while this year's
      birthday is still ahead; `new Date(dob)` and `new Date()` are given. */
  method CalculateAge(birth: Date, today: Date) returns (age: int)
    ensures CompletedYears(birth, today, age)
  {
    age := today.year - birth.year;
    var m := today.month - birth.month;
    if m < 0 || (m == 0 && today.day < birth.day) {
      age := age - 1;
    }
  }

  /** On the birthday itself the full year difference is returned. */
  lemma BirthdayGivesFullDifference(birth: Date, today: Date, n: int)
    requires CompletedYears(birth, today, n)
    requires today.month == birth.month && today.day == birth.day
    ensures n == today.year - birth.year
  {
  }

  /** No clamping: a birth date after today gives a negative age. */
  lemma FutureBirthNegative(birth: Date, today: Date, n: int)
    requires CompletedYears(birth, today, n) && !DateLe(birth, today)
    ensures n < 0
  {
    assert Anniversary(birth, 0) == birth;
  }

  // ---------------------------------------------------------------------------
  // The form store

  /** The form object of react-hook-form: its current values. */
  class FormStore {
    var values: FormValues

    /** The field list never drops below one entry. */
    ghost predicate Valid()
      reads this
    {
      |values.fields| >= 1
    }

    /** The form as `defaultValues` sets it up: one zeroed field entry. */
    constructor ()
      ensures Valid() && values == DefaultValues
    {
      values := DefaultValues;
    }

    /** `setValue('age', age)`. */
    method SetAge(age: int)
      requires Valid()
      modifies this
      ensures Valid() && values == old(values).(age := age)
    {
      values := values.(age := age);
    }

    /** A change of the date-of-birth input. */
    method SetDateOfBirth(text: string)
      requires Valid()
      modifies this
      ensures Valid() && values == old(values).(dateOfBirth := text)
    {
      values := values.(dateOfBirth := text);
    }

    /** The Add Field button: `append` a zeroed entry at the end. */
    method AppendField()
      requires Valid()
      modifies this
      ensures Valid() && values == old(values).(fields := old(values.fields) + [ZeroField])
    {
      values := values.(fields := values.fields + [ZeroField]);
    }

    /** The Remove Field button, rendered only for an index above 0. */
    method RemoveField(i: nat)
      requires Valid() && 0 < i < |values.fields|
      modifies this
      ensures Valid()
      ensures values == old(values).(fields := old(values.fields[..i]) + old(values.fields[i + 1..]))
    {
      values := values.(fields := values.fields[..i] + values.fields[i + 1..]);
    }
  }

  // ---------------------------------------------------------------------------
  // File slots

  /** The `files` state: each slot null or the file chosen for it. */
  type Files = Documents<Option<File>>

  const NoFiles: Files := Documents(None, None, None, None)

  /** `handleFileChange`: the input named after a slot sets that slot to its
      first chosen file, and only when a file was chosen. */
  function ChooseFile(files: Files, name: Slot, chosen: seq<File>): (r: Files)
  {
    if |chosen| > 0 then files.With(name, Some(chosen[0])) else files
  }

  lemma ChooseFileEffect(files: Files, name: Slot, chosen: seq<File>)
    ensures |chosen| > 0 ==> ChooseFile(files, name, chosen).At(name) == Some(chosen[0])
    ensures |chosen| == 0 ==> ChooseFile(files, name, chosen) == files
    ensures forall t :: t != name ==> ChooseFile(files, name, chosen).At(t) == files.At(t)
  {
  }

  /** Choosing again replaces the earlier choice; slots are independent,
      so choices for different slots commute. */
  lemma ChooseFileOverwritesAndCommutes(files: Files, a: Slot, b: Slot, fa: seq<File>, fb: seq<File>)
    ensures |fb| > 0 ==> ChooseFile(ChooseFile(files, a, fa), a, fb) == ChooseFile(files, a, fb)
    ensures a != b ==> ChooseFile(ChooseFile(files, a, fa), b, fb) == ChooseFile(ChooseFile(files, b, fb), a, fa)
  {
  }

  // ---------------------------------------------------------------------------
  // Serialisation into the multipart request

  /** The kinds of value a form key holds. */
  datatype Value = Text(s: string) | Num(n: int) | FieldList(fs: seq<Schema.Field>)

  /** `String(value)`; an array of objects prints as its elements' `[object Object]`. */
  function JsString(v: Value): string
  {
    match v
    case Text(s) => s
    case Num(n) => IntToString(n)
    case FieldList(fs) => ObjectsString(|fs|)
  }

  function ObjectsString(n: nat): string
  {
    if n == 0 then "" else if n == 1 then "[object Object]" else ObjectsString(n - 1) + ",[object Object]"
  }

  const FormKeys: seq<string> := [
    "farmerName", "relationship", "gender", "community", "aadharNumber", "state",
    "district", "mandal", "village", "panchayath", "dateOfBirth", "age",
    "contactNumber", "accountNumber", "ifscCode", "branchName", "address",
    "bankName", "bankCode", "fields"]

  lemma FormKeysDistinct()
    ensures forall i, j :: 0 <= i < j < |FormKeys| ==> FormKeys[i] != FormKeys[j]
    ensures forall i, s :: 0 <= i < |FormKeys| ==> FormKeys[i] != SlotKey(s)
  {
  }

  /** `Object.entries(data)`: one entry per key, in `FormKeys` order. */
  function Entries(v: FormValues): (e: seq<(string, Value)>)
    ensures |e| == |FormKeys|
    ensures forall i :: 0 <= i < |e| ==> e[i].0 == FormKeys[i]
  {
    [("farmerName", Text(v.farmerName)), ("relationship", Text(v.relationship)),
     ("gender", Text(v.gender)), ("community", Text(v.community)),
     ("aadharNumber", Text(v.aadharNumber)), ("state", Text(v.state)),
     ("district", Text(v.district)), ("mandal", Text(v.mandal)),
     ("village", Text(v.village)), ("panchayath", Text(v.panchayath)),
     ("dateOfBirth", Text(v.dateOfBirth)), ("age", Num(v.age)),
     ("contactNumber", Text(v.contactNumber)), ("accountNumber", Text(v.accountNumber)),
     ("ifscCode", Text(v.ifscCode)), ("branchName", Text(v.branchName)),
     ("address", Text(v.address)), ("bankName", Text(v.bankName)),
     ("bankCode", Text(v.bankCode)), ("fields", FieldList(v.fields))]
  }

  /** The text part for one entry: `fields` through `JSON.stringify` (given
      as `json`), every other key through `String`. */
  function EntryPart(key: string, value: Value, json: Value -> string): Part
  {
    if key == "fields" then TextPart(json(value)) else TextPart(JsString(value))
  }

  function TextParts(entries: seq<(string, Value)>, json: Value -> string): FormData
  {
    seq(|entries|, i requires 0 <= i < |entries| => (entries[i].0, EntryPart(entries[i].0, entries[i].1, json)))
  }

  /** One file part for each filled slot, in slot order. */
  function FileParts(files: Files, slots: seq<Slot>): FormData
  {
    if slots == [] then []
    else
      (if files.At(slots[0]).Some? then [(SlotKey(slots[0]), FilePart(files.At(slots[0]).value))] else [])
      + FileParts(files, slots[1..])
  }

  lemma {:induction false} FilePartsSnoc(files: Files, slots: seq<Slot>, s: Slot)
    ensures FileParts(files, slots + [s]) == FileParts(files, slots) + FileParts(files, [s])
  {
    if slots == [] {
      assert slots + [s] == [s];
    } else {
      assert (slots + [s])[1..] == slots[1..] + [s];
      FilePartsSnoc(files, slots[1..], s);
    }
  }

  /** The request body: the entries' text parts, then the file parts. */
  function Serialised(entries: seq<(string, Value)>, files: Files, json: Value -> string): FormData
  {
    TextParts(entries, json) + FileParts(files, AllSlots)
  }

  /** The two `forEach` loops of `onSubmit` appending to a fresh FormData. */
  method BuildFormData(entries: seq<(string, Value)>, files: Files, json: Value -> string) returns (fd: FormData)
    ensures fd == Serialised(entries, files, json)
  {
    fd := [];
    for i := 0 to |entries|
      invariant fd == TextParts(entries, json)[..i]
    {
      var key := entries[i].0;
      var value := entries[i].1;
      if key == "fields" {
        fd := fd + [(key, TextPart(json(value)))];
      } else {
        fd := fd + [(key, TextPart(JsString(value)))];
      }
      assert TextParts(entries, json)[..i + 1] == TextParts(entries, json)[..i] + [TextParts(entries, json)[i]];
    }
    assert TextParts(entries, json)[..|entries|] == TextParts(entries, json);
    for j := 0 to |AllSlots|
      invariant fd == TextParts(entries, json) + FileParts(files, AllSlots[..j])
    {
      var s := AllSlots[j];
      FilePartsSnoc(files, AllSlots[..j], s);
      assert AllSlots[..j + 1] == AllSlots[..j] + [s];
      if files.At(s).Some? {
        fd := fd + [(SlotKey(s), FilePart(files.At(s).value))];
      }
    }
    assert AllSlots[..|AllSlots|] == AllSlots;
  }

  /** Every form key reads back, through `formData.get`, as its value's text. */
  lemma GetEntry(v: FormValues, files: Files, json: Value -> string, i: nat)
    requires i < |FormKeys|
    ensures Get(Serialised(Entries(v), files, json), FormKeys[i]) ==
      Some(EntryPart(FormKeys[i], Entries(v)[i].1, json))
  {
    FormKeysDistinct();
    var fd := Serialised(Entries(v), files, json);
    assert fd[i] == TextParts(Entries(v), json)[i];
    GetFirst(fd, FormKeys[i], i);
  }

  /** A slot's key reads back as its file when the slot is filled and as
      null (no part at all) when it is not. */
  lemma GetFile(v: FormValues, files: Files, json: Value -> string, s: Slot)
    ensures Get(Serialised(Entries(v), files, json), SlotKey(s)) ==
      if files.At(s).Some? then Some(FilePart(files.At(s).value)) else None
  {
    FormKeysDistinct();
    var text := TextParts(Entries(v), json);
    GetSkip(text, FileParts(files, AllSlots), SlotKey(s));
    GetFileParts(files, AllSlots, s);
    AllSlotsComplete(s);
  }

  lemma {:induction false} GetFileParts(files: Files, slots: seq<Slot>, s: Slot)
    requires forall i, j :: 0 <= i < j < |slots| ==> slots[i] != slots[j]
    ensures Get(FileParts(files, slots), SlotKey(s)) ==
      if s in slots && files.At(s).Some? then Some(FilePart(files.At(s).value)) else None
  {
    if slots != [] {
      var head := if files.At(slots[0]).Some? then [(SlotKey(slots[0]), FilePart(files.At(slots[0]).value))] else [];
      GetFileParts(files, slots[1..], s);
      if slots[0] == s {
        assert s !in slots[1..];
        if files.At(s).Some? {
          assert FileParts(files, slots)[0] == (SlotKey(s), FilePart(files.At(s).value));
        } else {
          assert FileParts(files, slots) == FileParts(files, slots[1..]);
        }
      } else {
        assert SlotKey(slots[0]) != SlotKey(s);
        GetSkip(head, FileParts(files, slots[1..]), SlotKey(s));
        assert s in slots <==> s in slots[1..];
      }
    }
  }

  // ---------------------------------------------------------------------------
  // The page

  /** FarmerForm: the form store, the file slots, and the submit handler. */
  class FarmerFormPage {
    const form: FormStore
    var files: Files

    ghost predicate Valid()
      reads this, form
    {
      form.Valid()
    }

    /** One zeroed field entry and four null file slots. */
    constructor ()
      ensures Valid() && fresh(form)
      ensures form.values == DefaultValues && files == NoFiles
    {
      form := new FormStore();
      files := NoFiles;
    }

    method HandleFileChange(name: Slot, chosen: seq<File>)
      modifies this
      ensures files == ChooseFile(old(files), name, chosen)
    {
      if |chosen| > 0 {
        files := files.With(name, Some(chosen[0]));
      }
    }

    /** The date-of-birth input's change handler: the date is stored and
        `setValue('age', calculateAge(dob))` follows. */
    method DateOfBirthChanged(text: string, birth: Date, today: Date)
      requires Valid()
      modifies form
      ensures Valid()
      ensures CompletedYears(birth, today, form.values.age)
      ensures form.values == old(form.values).(dateOfBirth := text, age := form.values.age)
    {
      form.SetDateOfBirth(text);
      var age := CalculateAge(birth, today);
      form.SetAge(age);
    }

    /** `handleSubmit(onSubmit)`: when the schema accepts the values, the
        request body sent; otherwise nothing is sent. */
    method Submit(json: Value -> string) returns (sent: Option<FormData>)
      ensures sent.Some? <==> FormValid(form.values)
      ensures sent.Some? ==> sent.value == Serialised(Entries(form.values), files, json)
    {
      if !FormValid(form.values) {
        return None;
      }
      var fd := BuildFormData(Entries(form.values), files, json);
      return Some(fd);
    }
  }
}
