/** The logic of src/pages/SubmitComplaintPage.tsx: the complaint form schema, the
    attachment list (at most five files, removal by index) and the submit handler
    that builds the payload for the complaint store. */
module SubmitComplaintPage {
  import opened Wrappers
  import opened Strings
  import opened Types
  import opened ComplaintContext

  // ---------------------------------------------------------------------------
  // The form schema
  // ---------------------------------------------------------------------------

  /** The form's values as entered (an unset field is the empty string). */
  datatype ComplaintForm = ComplaintForm(category: string, subject: string, description: string,
                                         location: string, priority: string)

  /** The values the schema hands to `onSubmit`. */
  datatype ComplaintFormData = ComplaintFormData(category: Category, subject: string, description: string,
                                                 location: string, priority: Priority)

  /** One failed check of the schema, in the schema's key order. */
  datatype ComplaintIssue = InvalidCategory | SubjectTooShort | DescriptionTooShort | LocationTooShort | InvalidPriority
  {
    /** The schema's own message; the enum checks use the library's default text. */
    function Message(): Option<string>
    {
      match this
      case SubjectTooShort => Some("Subject must be at least 10 characters")
      case DescriptionTooShort => Some("Description must be at least 50 characters")
      case LocationTooShort => Some("Location must be at least 5 characters")
      case _ => None
    }
  }

  const MinSubjectLength := 10
  const MinDescriptionLength := 50
  const MinLocationLength := 5

  /** The form's `defaultValues`: priority `'medium'`, nothing else. */
  const DefaultForm := ComplaintForm("", "", "", "", "medium")

  /** Whether one check of the schema fails on the form. */
  predicate Fails(f: ComplaintForm, issue: ComplaintIssue)
  {
    match issue
    case InvalidCategory => ParseCategory(f.category).None?
    case SubjectTooShort => JsLength(f.subject) < MinSubjectLength
    case DescriptionTooShort => JsLength(f.description) < MinDescriptionLength
    case LocationTooShort => JsLength(f.location) < MinLocationLength
    case InvalidPriority => ParsePriority(f.priority).None?
  }

  /** Every check of the schema, in its key order. */
  function AllComplaintChecks(): (r: seq<ComplaintIssue>)
    ensures forall i: ComplaintIssue :: i in r
  {
    var r := [InvalidCategory, SubjectTooShort, DescriptionTooShort, LocationTooShort, InvalidPriority];
    assert forall i: ComplaintIssue :: i in r by {
      forall i: ComplaintIssue ensures i in r {
        if i.InvalidCategory? { assert i == r[0]; } else if i.SubjectTooShort? { assert i == r[1]; }
        else if i.DescriptionTooShort? { assert i == r[2]; } else if i.LocationTooShort? { assert i == r[3]; }
        else { assert i == r[4]; }
      }
    }
    r
  }

  /** The checks among `checks` that fail on the form, in order. */
  function Failing(f: ComplaintForm, checks: seq<ComplaintIssue>): (r: seq<ComplaintIssue>)
    ensures forall i :: i in r <==> i in checks && Fails(f, i)
  {
    if checks == [] then []
    else
      var rest := Failing(f, checks[1..]);
      assert forall i :: i in checks <==> i == checks[0] || i in checks[1..];
      if Fails(f, checks[0]) then [checks[0]] + rest else rest
  }

  /** The form passes every check. */
  predicate PassesAll(f: ComplaintForm)
  {
    && ParseCategory(f.category).Some?
    && JsLength(f.subject) >= MinSubjectLength
    && JsLength(f.description) >= MinDescriptionLength
    && JsLength(f.location) >= MinLocationLength
    && ParsePriority(f.priority).Some?
  }

  /** No check fails exactly when the form passes every check. */
  lemma NoFailingIffPasses(f: ComplaintForm)
    ensures Failing(f, AllComplaintChecks()) == [] <==> PassesAll(f)
  {
    var issues := Failing(f, AllComplaintChecks());
    if issues == [] {
      assert !Fails(f, InvalidCategory) && !Fails(f, SubjectTooShort) && !Fails(f, DescriptionTooShort);
      assert !Fails(f, LocationTooShort) && !Fails(f, InvalidPriority);
    } else {
      assert Fails(f, issues[0]);
    }
  }

  /** `complaintSchema`: accepts the form iff the category is one of the six, the
      subject has at least 10 characters, the description 50, the location 5 and
      the priority is one of the four; otherwise reports exactly the failed checks. */
  function ValidateComplaint(f: ComplaintForm): (r: Validation<ComplaintFormData, ComplaintIssue>)
    ensures r.Valid? <==> PassesAll(f)
    ensures r.Valid? ==>
              && CategoryName(r.value.category) == f.category
              && PriorityName(r.value.priority) == f.priority
              && r.value.subject == f.subject && r.value.description == f.description
              && r.value.location == f.location
    ensures r.Invalid? ==> |r.issues| > 0 && forall i :: i in r.issues <==> Fails(f, i)
  {
    var issues := Failing(f, AllComplaintChecks());
    NoFailingIffPasses(f);
    if issues == [] then
      Valid(ComplaintFormData(ParseCategory(f.category).value, f.subject, f.description,
                              f.location, ParsePriority(f.priority).value))
    else
      Invalid(issues)
  }

  /** A short subject is always reported, with the schema's own message. */
  lemma ShortSubjectReported(f: ComplaintForm)
    requires JsLength(f.subject) < MinSubjectLength
    ensures var r := ValidateComplaint(f);
            r.Invalid? && exists i :: i in r.issues && i.Message() == Some("Subject must be at least 10 characters")
  {
    assert SubjectTooShort in ValidateComplaint(f).issues;
  }

  /** The default priority is a valid one, `medium`. */
  lemma DefaultPriorityIsMedium()
    ensures ParsePriority(DefaultForm.priority) == Some(Medium)
  {
  }

  // ---------------------------------------------------------------------------
  // Attachments
  // ---------------------------------------------------------------------------

  const MaxAttachments := 5

  /** A selected file; only its name reaches the store. */
  datatype File = File(name: string)

  /** `[...prev, ...files].slice(0, 5)`: at most five files, the earlier ones first. */
  function WithUploaded(prev: seq<File>, files: seq<File>): (r: seq<File>)
    ensures |r| == if |prev| + |files| <= MaxAttachments then |prev| + |files| else MaxAttachments
    ensures forall i :: 0 <= i < |r| ==> r[i] == if i < |prev| then prev[i] else files[i - |prev|]
    ensures |prev| >= MaxAttachments ==> r == prev[..MaxAttachments]
  {
    var all := prev + files;
    if |all| <= MaxAttachments then all else all[..MaxAttachments]
  }

  /** `prev.filter((_, i) => i !== index)`, with `pos` the index of `s[0]`. */
  function DropAtFrom<T>(s: seq<T>, index: int, pos: int): seq<T>
  {
    if s == [] then []
    else (if pos == index then [] else [s[0]]) + DropAtFrom(s[1..], index, pos + 1)
  }

  function DropAt<T>(s: seq<T>, index: int): seq<T>
  {
    DropAtFrom(s, index, 0)
  }

  lemma {:induction false} DropAtFromSpec<T>(s: seq<T>, index: int, pos: int)
    ensures DropAtFrom(s, index, pos)
         == if pos <= index < pos + |s| then s[..index - pos] + s[index - pos + 1..] else s
  {
    if s != [] {
      DropAtFromSpec(s[1..], index, pos + 1);
      if pos == index {
        assert s[..0] + s[1..] == s[1..];
      } else if pos < index < pos + |s| {
        assert [s[0]] + (s[1..][..index - pos - 1] + s[1..][index - pos..]) == s[..index - pos] + s[index - pos + 1..];
      } else {
        assert [s[0]] + s[1..] == s;
      }
    }
  }

  /** Removing by index takes out exactly that element and keeps the rest in
      order; an index out of range changes nothing. */
  lemma DropAtSpec<T>(s: seq<T>, index: int)
    ensures DropAt(s, index) == if 0 <= index < |s| then s[..index] + s[index + 1..] else s
  {
    DropAtFromSpec(s, index, 0);
  }

  // ---------------------------------------------------------------------------
  // Submitting
  // ---------------------------------------------------------------------------

  /** `attachments.map(file => file.name)`. */
  function FileNames(files: seq<File>): (r: seq<string>)
    ensures |r| == |files|
    ensures forall i :: 0 <= i < |files| ==> r[i] == files[i].name
  {
    if files == [] then [] else [files[0].name] + FileNames(files[1..])
  }

  /** `{ ...data, status: 'pending', attachments: names }`: what the page submits. */
  function Payload(data: ComplaintFormData, files: seq<File>): (r: ComplaintInput)
    ensures r.status == Pending && r.attachments == Some(FileNames(files))
    ensures r.category == data.category && r.priority == data.priority
    ensures r.subject == data.subject && r.description == data.description && r.location == data.location
    ensures r.assignedTo.None? && r.assignedDepartment.None? && r.resolvedAt.None? && r.feedback.None?
  {
    ComplaintInput(data.category, data.subject, data.description, data.location, data.priority,
                   Pending, Some(FileNames(files)), None, None, None, None)
  }

  const SuccessPrefix := "Complaint submitted successfully! Your complaint ID is: "
  const SubmitErrorMessage := "Failed to submit complaint. Please try again."

  /** The page's state: the form values, the schema's issues, the selected files,
      and the `error` and `success` banners. */
  class SubmitPageState {
    var form: ComplaintForm
    var issues: seq<ComplaintIssue>
    var attachments: seq<File>
    var error: string
    var success: string

    constructor ()
      ensures form == DefaultForm && issues == [] && attachments == [] && error == "" && success == ""
    {
      form := DefaultForm;
      issues := [];
      attachments := [];
      error := "";
      success := "";
    }

    /** `handleFileUpload`. */
    method HandleFileUpload(files: seq<File>)
      modifies this`attachments
      ensures attachments == WithUploaded(old(attachments), files)
      ensures |attachments| <= MaxAttachments
    {
      attachments := WithUploaded(attachments, files);
    }

    /** `removeAttachment`. */
    method RemoveAttachment(index: int)
      modifies this`attachments
      ensures attachments == if 0 <= index < |old(attachments)| then old(attachments)[..index] + old(attachments)[index + 1..]
                             else old(attachments)
    {
      DropAtSpec(attachments, index);
      attachments := DropAt(attachments, index);
    }

    /** `onSubmit`: submits the payload; on success the banner shows the new id,
      the form is reset, the files are cleared and the page heads for the new
      complaint; on failure the error banner shows and the rest stays. */
    method OnSubmit(data: ComplaintFormData, store: ComplaintStore, currentUser: Option<User>,
                    now: Time, backendFails: bool)
      returns (navigateTo: Option<string>)
      modifies this, store
      ensures !store.loading && issues == old(issues)
      ensures backendFails ==>
                && store.complaints == old(store.complaints) && navigateTo.None?
                && error == SubmitErrorMessage && success == ""
                && form == old(form) && attachments == old(attachments)
      ensures !backendFails ==>
                var id := ComplaintId(|old(store.complaints)| + 1);
                && store.complaints == old(store.complaints)
                     + [NewComplaint(Payload(data, old(attachments)), |old(store.complaints)|, OwnerId(currentUser), now)]
                && success == SuccessPrefix + id && success[|SuccessPrefix|..] == id && error == ""
                && form == DefaultForm && attachments == []
                && navigateTo == Some("/complaint/" + id)
    {
      error := "";
      success := "";
      var r := store.SubmitComplaint(Payload(data, attachments), currentUser, now, backendFails);
      match r {
        case Ok(id) =>
          success := SuccessPrefix + id;
          assert success[|SuccessPrefix|..] == id;
          form := DefaultForm;
          attachments := [];
          navigateTo := Some("/complaint/" + id);
        case Err(_) =>
          error := SubmitErrorMessage;
          navigateTo := None;
      }
    }

    /** `handleSubmit(onSubmit)`: the schema runs on the form first; a form it
      rejects shows its issues and reaches neither `onSubmit` nor the store. */
    method HandleSubmit(store: ComplaintStore, currentUser: Option<User>, now: Time, backendFails: bool)
      returns (navigateTo: Option<string>)
      modifies this, store
      ensures ValidateComplaint(old(form)).Invalid? ==>
                && issues == ValidateComplaint(old(form)).issues && navigateTo.None?
                && store.complaints == old(store.complaints) && store.loading == old(store.loading)
                && form == old(form) && attachments == old(attachments)
                && error == old(error) && success == old(success)
      ensures ValidateComplaint(old(form)).Valid? ==> issues == [] && !store.loading
      ensures ValidateComplaint(old(form)).Valid? && !backendFails ==>
                && store.complaints == old(store.complaints)
                     + [NewComplaint(Payload(ValidateComplaint(old(form)).value, old(attachments)),
                                     |old(store.complaints)|, OwnerId(currentUser), now)]
                && success == SuccessPrefix + ComplaintId(|old(store.complaints)| + 1) && error == ""
                && form == DefaultForm && attachments == []
                && navigateTo == Some("/complaint/" + ComplaintId(|old(store.complaints)| + 1))
      ensures ValidateComplaint(old(form)).Valid? && backendFails ==>
                && store.complaints == old(store.complaints) && navigateTo.None?
                && error == SubmitErrorMessage && success == ""
                && form == old(form) && attachments == old(attachments)
    {
      var checked := ValidateComplaint(form);
      assert checked == ValidateComplaint(old(form));
      if checked.Invalid? {
        issues := checked.issues;
        navigateTo := None;
      } else {
        issues := [];
        navigateTo := OnSubmit(checked.value, store, currentUser, now, backendFails);
      }
    }
  }
}
