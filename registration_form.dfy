/** The confirm-before-send form of app/components/RegistrationForm.tsx:
    submitting validated values only stores them and opens a confirmation
    dialog; Confirm serialises the stored values with the current files and
    closes the dialog, Cancel closes it and sends nothing.  The form is
    validated with the client schema of FarmerForm.tsx (the schema the file
    imports from lib/schema.ts is not exported there). */
module RegistrationForm {
  import opened Platform
  import opened FarmerForm

  class RegistrationFormPage {
    const form: FormStore
    var files: Files
    /** Whether the confirmation dialog is shown. */
    var open: bool
    /** The `formData` state: the values last accepted by the schema. */
    var pending: Option<FormValues>

    /** Stored values were accepted by the schema, and the dialog is only
        open over stored values. */
    ghost predicate Valid()
      reads this, form
    {
      && form.Valid()
      && (pending.Some? ==> FormValid(pending.value))
      && (open ==> pending.Some?)
    }

    /** One zeroed field entry, four null file slots, no stored values and
        the dialog closed. */
    constructor ()
      ensures Valid() && fresh(form)
      ensures form.values == DefaultValues && files == NoFiles
      ensures !open && pending == None
    {
      form := new FormStore();
      files := NoFiles;
      open := false;
      pending := None;
    }

    method HandleFileChange(name: Slot, chosen: seq<File>)
      requires Valid()
      modifies this
      ensures Valid()
      ensures files == ChooseFile(old(files), name, chosen)
      ensures open == old(open) && pending == old(pending)
    {
      if |chosen| > 0 {
        files := files.With(name, Some(chosen[0]));
      }
    }

    /** `handleSubmit(onSubmit)`: accepted values are stored and the dialog
        opens; nothing is sent.  Refused values change nothing. */
    method Submit()
      requires Valid()
      modifies this
      ensures Valid()
      ensures files == old(files)
      ensures FormValid(form.values) ==> pending == Some(form.values) && open
      ensures !FormValid(form.values) ==> pending == old(pending) && open == old(open)
    {
      if FormValid(form.values) {
        pending := Some(form.values);
        open := true;
      }
    }

    /** `handleConfirm`: without stored values it returns at once and the
        dialog keeps its state; otherwise the stored values and the current
        files are sent and the dialog closes, whatever the answer. */
    method Confirm(json: Value -> string) returns (sent: Option<FormData>)
      requires Valid()
      modifies this
      ensures Valid()
      ensures files == old(files) && pending == old(pending)
      ensures old(pending).None? ==> sent.None? && open == old(open)
      ensures old(pending).Some? ==>
        && sent == Some(Serialised(Entries(old(pending).value), files, json))
        && !open
    {
      if pending.None? {
        return None;
      }
      var fd := BuildFormData(Entries(pending.value), files, json);
      sent := Some(fd);
      open := false;
    }

    /** The Cancel button (and dismissing the dialog): it closes, nothing is sent. */
    method Cancel()
      requires Valid()
      modifies this
      ensures Valid()
      ensures !open && files == old(files) && pending == old(pending)
    {
      open := false;
    }
  }

  /** What Confirm sends was accepted by the schema: the values behind it
      are valid, with one text part per form key and one file part per
      filled slot. */
  lemma ConfirmedValuesValid(page: RegistrationFormPage, json: Value -> string, s: Slot)
    requires page.Valid() && page.pending.Some?
    ensures FormValid(page.pending.value)
    ensures Get(Serialised(Entries(page.pending.value), page.files, json), SlotKey(s)) ==
      if page.files.At(s).Some? then Some(FilePart(page.files.At(s).value)) else None
  {
    GetFile(page.pending.value, page.files, json, s);
  }
}
