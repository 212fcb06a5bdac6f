/**
 * The case form's client logic: the `caseDetails` length rule, the accordion
 * toggle, the upload filter and list editing, and the consent gate of the
 * submit handler. The component's state is a class; the two `setTimeout`
 * callbacks are queued and run by `FinishUpload` and `FinishAnalysis`.
 */
module AnalyzeCase {
  import opened Wrappers
  import opened NumberText

  // ---------------------------------------------------------------------
  // The caseDetails rule of the form schema
  // ---------------------------------------------------------------------

  const CaseDetailsMin := 50
  const CaseDetailsMax := 1000
  const TooShortMessage := "Case details must be at least 50 characters"
  const TooLongMessage := "Case details must not exceed 1000 characters"

  predicate CaseDetailsValid(details: string) {
    CaseDetailsMin <= |details| <= CaseDetailsMax
  }

  /** The messages the two length checks report, in schema order. */
  function CaseDetailsIssues(details: string): (issues: seq<string>)
    ensures issues == [] <==> CaseDetailsValid(details)
    ensures TooShortMessage in issues <==> |details| < CaseDetailsMin
    ensures TooLongMessage in issues <==> |details| > CaseDetailsMax
    ensures |issues| <= 1
  {
    (if |details| < CaseDetailsMin then [TooShortMessage] else [])
    + (if |details| > CaseDetailsMax then [TooLongMessage] else [])
  }

  // ---------------------------------------------------------------------
  // The accordion
  // ---------------------------------------------------------------------

  const Sections: seq<string> := ["userDetails", "caseInformation", "supportingEvidence"]
  const InitialSection := "caseInformation"

  /** The section open after a click on `section`'s header; "" when all are closed. */
  function NextExpanded(expanded: string, section: string): (next: string)
    ensures next == "" || next == section
    ensures section != "" ==> (next == section <==> expanded != section)
  {
    if expanded == section then "" else section
  }

  /** The section open after a sequence of header clicks, oldest first. */
  function AfterClicks(expanded: string, clicks: seq<string>): string
    decreases |clicks|
  {
    if clicks == [] then expanded else AfterClicks(NextExpanded(expanded, clicks[0]), clicks[1..])
  }

  /** Clicking only the real headers never opens anything but one of them. */
  lemma {:induction false} AfterClicksInSections(expanded: string, clicks: seq<string>)
    requires expanded == "" || expanded in Sections
    requires forall i :: 0 <= i < |clicks| ==> clicks[i] in Sections
    ensures var e := AfterClicks(expanded, clicks); e == "" || e in Sections
    decreases |clicks|
  {
    if clicks != [] {
      AfterClicksInSections(NextExpanded(expanded, clicks[0]), clicks[1..]);
    }
  }

  /** A second click on the same header restores "" or the section, whichever was before. */
  lemma ClickTwice(expanded: string, section: string)
    requires section != ""
    ensures NextExpanded(NextExpanded(expanded, section), section)
            == (if expanded == section then section else "")
  {
  }

  // ---------------------------------------------------------------------
  // The upload filter
  // ---------------------------------------------------------------------

  /** A selected file, as far as the handler looks at it; `size` is in bytes. */
  datatype UploadedFile = UploadedFile(name: string, mimeType: string, size: nat)

  const ValidTypes: seq<string> := [
    "application/pdf",
    "application/msword",
    "application/vnd.openxmlformats-officedocument.wordprocessingml.document",
    "image/jpeg",
    "image/png"
  ]

  const MaxSize := 5 * 1024 * 1024

  /** The filter's test: one of the PDF, Word, JPEG and PNG types, and at most 5 MB. */
  predicate IsAcceptable(f: UploadedFile)
    ensures IsAcceptable(f) <==> (
      && f.size <= 5242880
      && (|| f.mimeType == "application/pdf"
          || f.mimeType == "application/msword"
          || f.mimeType == "application/vnd.openxmlformats-officedocument.wordprocessingml.document"
          || f.mimeType == "image/jpeg"
          || f.mimeType == "image/png"))
  {
    f.mimeType in ValidTypes && f.size <= MaxSize
  }

  datatype Rejection = InvalidType(file: UploadedFile) | TooLarge(file: UploadedFile)

  /** The filter callback: the type is checked first, so a file gets at most one rejection. */
  function CheckFile(f: UploadedFile): (verdict: Option<Rejection>)
    ensures verdict == None <==> IsAcceptable(f)
    ensures verdict.Some? ==> verdict.value.file == f
    ensures verdict.Some? ==> (verdict.value.InvalidType? <==> f.mimeType !in ValidTypes)
    ensures verdict.Some? && verdict.value.TooLarge? ==> f.mimeType in ValidTypes && f.size > MaxSize
  {
    if f.mimeType !in ValidTypes then Some(InvalidType(f))
    else if f.size > MaxSize then Some(TooLarge(f))
    else None
  }

  const InvalidTypePrefix := "Invalid file type: "
  const TooLargePrefix := "File too large: "

  /** The error text for a rejection: it names the kind first, then the file. */
  function RejectionMessage(r: Rejection): (message: string)
    ensures var p := if r.InvalidType? then InvalidTypePrefix else TooLargePrefix;
      |message| > |p| + |r.file.name| && message[..|p|] == p && message[|p|..|p| + |r.file.name|] == r.file.name
  {
    match r
    case InvalidType(f) => InvalidTypePrefix + f.name + ". Only PDF, DOC, DOCX, JPG, and PNG are allowed."
    case TooLarge(f) => TooLargePrefix + f.name + ". Maximum file size is 5MB."
  }

  /** The two kinds of rejection never share a message. */
  lemma RejectionKindsDistinct(f: UploadedFile, g: UploadedFile)
    ensures RejectionMessage(InvalidType(f)) != RejectionMessage(TooLarge(g))
  {
    assert RejectionMessage(InvalidType(f))[0] == 'I';
    assert RejectionMessage(TooLarge(g))[0] == 'F';
  }

  /** A toast; the upload success toast keeps its count, its text is `ToastText`. */
  datatype Toast = ErrorToast(message: string) | UploadedToast(count: nat) | InfoToast(message: string)

  /** `a` is `b` with some elements left out, order kept. */
  predicate IsSubsequence<T(==)>(a: seq<T>, b: seq<T>)
    decreases |b|
  {
    if a == [] then true
    else if b == [] then false
    else (a[|a| - 1] == b[|b| - 1] && IsSubsequence(a[..|a| - 1], b[..|b| - 1]))
         || IsSubsequence(a, b[..|b| - 1])
  }

  /** The files `fileList.filter(...)` keeps. */
  function ValidFiles(files: seq<UploadedFile>): (valid: seq<UploadedFile>)
    ensures forall i :: 0 <= i < |valid| ==> IsAcceptable(valid[i])
    ensures |valid| <= |files|
    decreases |files|
  {
    if files == [] then []
    else
      var last := files[|files| - 1];
      var prefix := ValidFiles(files[..|files| - 1]);
      if IsAcceptable(last) then prefix + [last] else prefix
  }

  /** The filter keeps every acceptable file as often as it was selected, and nothing else. */
  lemma {:induction false} ValidFilesCounts(files: seq<UploadedFile>, f: UploadedFile)
    ensures multiset(ValidFiles(files))[f] == if IsAcceptable(f) then multiset(files)[f] else 0
    decreases |files|
  {
    if files != [] {
      var init := files[..|files| - 1];
      var last := files[|files| - 1];
      assert files == init + [last];
      ValidFilesCounts(init, f);
    }
  }

  /** The kept files appear in the order they were selected. */
  lemma {:induction false} ValidFilesInOrder(files: seq<UploadedFile>)
    ensures IsSubsequence(ValidFiles(files), files)
    decreases |files|
  {
    if files != [] {
      var init := files[..|files| - 1];
      var last := files[|files| - 1];
      var valid := ValidFiles(files);
      ValidFilesInOrder(init);
      if IsAcceptable(last) {
        assert valid[..|valid| - 1] == ValidFiles(init);
      } else if valid != [] {
        assert valid == ValidFiles(init);
      }
    }
  }

  /** The rejections the filter reports, in the order of the selected files. */
  function Rejections(files: seq<UploadedFile>): (rejected: seq<Rejection>)
    ensures forall i :: 0 <= i < |rejected| ==> CheckFile(rejected[i].file) == Some(rejected[i])
    ensures |ValidFiles(files)| + |rejected| == |files|
    decreases |files|
  {
    if files == [] then []
    else
      var init := files[..|files| - 1];
      var last := files[|files| - 1];
      Rejections(init) + match CheckFile(last) case None => [] case Some(r) => [r]
  }

  /** The selected files the filter turns down, in selection order. */
  function Unacceptable(files: seq<UploadedFile>): (bad: seq<UploadedFile>)
    ensures forall i :: 0 <= i < |bad| ==> !IsAcceptable(bad[i])
    ensures |ValidFiles(files)| + |bad| == |files|
    decreases |files|
  {
    if files == [] then []
    else
      var last := files[|files| - 1];
      var prefix := Unacceptable(files[..|files| - 1]);
      if IsAcceptable(last) then prefix else prefix + [last]
  }

  /** The turned-down files keep their multiplicities, and no acceptable file is among them. */
  lemma {:induction false} UnacceptableCounts(files: seq<UploadedFile>, f: UploadedFile)
    ensures multiset(Unacceptable(files))[f] == if IsAcceptable(f) then 0 else multiset(files)[f]
    decreases |files|
  {
    if files != [] {
      var init := files[..|files| - 1];
      var last := files[|files| - 1];
      assert files == init + [last];
      UnacceptableCounts(init, f);
    }
  }

  /** The turned-down files appear in the order they were selected. */
  lemma {:induction false} UnacceptableInOrder(files: seq<UploadedFile>)
    ensures IsSubsequence(Unacceptable(files), files)
    decreases |files|
  {
    if files != [] {
      var init := files[..|files| - 1];
      var last := files[|files| - 1];
      var bad := Unacceptable(files);
      UnacceptableInOrder(init);
      if !IsAcceptable(last) {
        assert bad[..|bad| - 1] == Unacceptable(init);
      } else if bad != [] {
        assert bad == Unacceptable(init);
      }
    }
  }

  /** The files the rejections are about, in order. */
  function RejectedFiles(rejected: seq<Rejection>): (fs: seq<UploadedFile>)
    ensures |fs| == |rejected|
    ensures forall i :: 0 <= i < |fs| ==> fs[i] == rejected[i].file
  {
    seq(|rejected|, i requires 0 <= i < |rejected| => rejected[i].file)
  }

  /** The filter raises exactly one rejection per unacceptable file, in selection order. */
  lemma {:induction false} RejectionsOfUnacceptable(files: seq<UploadedFile>)
    ensures RejectedFiles(Rejections(files)) == Unacceptable(files)
    decreases |files|
  {
    if files != [] {
      var init := files[..|files| - 1];
      var last := files[|files| - 1];
      RejectionsOfUnacceptable(init);
      var r := Rejections(files);
      if IsAcceptable(last) {
        assert r == Rejections(init);
      } else {
        assert r == Rejections(init) + [CheckFile(last).value];
        assert RejectedFiles(r) == RejectedFiles(Rejections(init)) + [last];
      }
    }
  }

  /** A file is among the unacceptable ones iff it was selected and is not acceptable. */
  lemma {:induction false} UnacceptableMembers(files: seq<UploadedFile>, f: UploadedFile)
    ensures f in Unacceptable(files) <==> f in files && !IsAcceptable(f)
    decreases |files|
  {
    if files != [] {
      var init := files[..|files| - 1];
      var last := files[|files| - 1];
      assert files == init + [last];
      UnacceptableMembers(init, f);
    }
  }

  function RejectionToasts(rejected: seq<Rejection>): (toasts: seq<Toast>)
    ensures |toasts| == |rejected|
    ensures forall i :: 0 <= i < |toasts| ==> toasts[i] == ErrorToast(RejectionMessage(rejected[i]))
  {
    seq(|rejected|, i requires 0 <= i < |rejected| => ErrorToast(RejectionMessage(rejected[i])))
  }

  /** Each selected file is either kept or rejected, never both. */
  lemma KeptOrRejected(files: seq<UploadedFile>, f: UploadedFile)
    requires f in files
    ensures f in ValidFiles(files) <==> IsAcceptable(f)
    ensures !IsAcceptable(f) ==> CheckFile(f).value in Rejections(files)
  {
    assert multiset(files)[f] > 0;
    ValidFilesCounts(files, f);
    if !IsAcceptable(f) {
      UnacceptableMembers(files, f);
      RejectionsOfUnacceptable(files);
      var bad := Unacceptable(files);
      var k :| 0 <= k < |bad| && bad[k] == f;
      var r := Rejections(files);
      assert RejectedFiles(r)[k] == f;
      assert r[k].file == f;
      assert CheckFile(f) == Some(r[k]);
    }
  }

  /** One more selected file: it is either appended to the kept ones or its rejection is. */
  lemma FilterSnoc(files: seq<UploadedFile>, f: UploadedFile)
    ensures ValidFiles(files + [f]) == ValidFiles(files) + (if IsAcceptable(f) then [f] else [])
    ensures Rejections(files + [f]) == Rejections(files) + (if IsAcceptable(f) then [] else [CheckFile(f).value])
  {
    assert (files + [f])[..|files|] == files;
  }

  lemma RejectionToastsSnoc(rejected: seq<Rejection>, r: Rejection)
    ensures RejectionToasts(rejected + [r]) == RejectionToasts(rejected) + [ErrorToast(RejectionMessage(r))]
  {
  }

  /**
   * The filter over the selected files, with the error toasts its callback
   * raises along the way.
   */
  method FilterFiles(files: seq<UploadedFile>) returns (valid: seq<UploadedFile>, errors: seq<Toast>)
    ensures valid == ValidFiles(files)
    ensures errors == RejectionToasts(Rejections(files))
  {
    valid, errors := [], [];
    var i := 0;
    while i < |files|
      invariant 0 <= i <= |files|
      invariant valid == ValidFiles(files[..i])
      invariant errors == RejectionToasts(Rejections(files[..i]))
    {
      var f := files[i];
      assert files[..i + 1] == files[..i] + [f];
      FilterSnoc(files[..i], f);
      var verdict := CheckFile(f);
      match verdict {
        case None =>
          valid := valid + [f];
        case Some(r) =>
          errors := errors + [ErrorToast(RejectionMessage(r))];
          RejectionToastsSnoc(Rejections(files[..i]), r);
      }
      i := i + 1;
    }
    assert files[..i] == files;
  }

  // ---------------------------------------------------------------------
  // Removing one file
  // ---------------------------------------------------------------------

  /** Where `splice(index, 1)` starts: a negative index counts from the end. */
  function SpliceStart(len: nat, index: int): (start: nat)
    ensures start <= len
    ensures 0 <= index <= len ==> start == index
  {
    if index < 0 then (if len + index < 0 then 0 else len + index)
    else if index > len then len
    else index
  }

  /** The list after `copy.splice(index, 1)`. */
  function RemoveAt<T>(s: seq<T>, index: int): (r: seq<T>)
    ensures |r| == if s != [] && index < |s| then |s| - 1 else |s|
    ensures forall k :: 0 <= k < SpliceStart(|s|, index) && k < |r| ==> r[k] == s[k]
    ensures forall k :: SpliceStart(|s|, index) <= k < |r| ==> r[k] == s[k + 1]
  {
    var start := SpliceStart(|s|, index);
    if start < |s| then s[..start] + s[start + 1..] else s
  }

  /** Putting the removed file back where it was restores the list. */
  lemma RemoveAtInverse<T>(s: seq<T>, index: nat)
    requires index < |s|
    ensures RemoveAt(s, index)[..index] + [s[index]] + RemoveAt(s, index)[index..] == s
  {
    var r := RemoveAt(s, index);
    assert r == s[..index] + s[index + 1..];
    assert r[..index] == s[..index] && r[index..] == s[index + 1..];
  }

  // ---------------------------------------------------------------------
  // Submission
  // ---------------------------------------------------------------------

  datatype FormData = FormData(
    fullName: Option<string>,
    email: Option<string>,
    phone: Option<string>,
    caseType: string,
    courtJurisdiction: string,
    caseDetails: string,
    hasPreviousHearings: bool,
    numberOfHearings: Option<int>,
    hearingOutcome: Option<string>,
    judgeName: Option<string>,
    legalArguments: Option<seq<string>>,
    otherLegalArgument: Option<string>,
    consentToAnalyze: bool)

  /** The record written under the session key `caseData`. */
  datatype StoredCase = StoredCase(formData: FormData, fileCount: nat)

  /** The record a submission will store, if consent was given. */
  function SubmissionRecord(data: FormData, fileCount: nat): (record: Option<StoredCase>)
    ensures record.None? <==> !data.consentToAnalyze
    ensures record.Some? ==> record.value.formData == data && record.value.fileCount == fileCount
  {
    if data.consentToAnalyze then Some(StoredCase(data, fileCount)) else None
  }

  const ConsentMessage := "Please consent to AI analysis of your case"
  const RemovedMessage := "File removed"
  const FormRoute := "/analyze-case"
  const ResultsRoute := "/case-results"

  /** The success text leads with the number of files, which `parseInt` reads back. */
  function UploadedMessage(count: nat): (message: string)
    ensures ParseInt(message) == Some(count)
  {
    ParseNatToString(count, " file(s) uploaded successfully.");
    NatToString(count) + " file(s) uploaded successfully."
  }

  /** The text a toast shows. */
  function ToastText(t: Toast): (text: string)
    ensures t.UploadedToast? ==> ParseInt(text) == Some(t.count)
  {
    match t
    case ErrorToast(m) => m
    case UploadedToast(n) => UploadedMessage(n)
    case InfoToast(m) => m
  }

  /** A scheduled upload callback: the list it will set, and how many files it adds. */
  datatype PendingUpload = PendingUpload(files: seq<UploadedFile>, count: nat)

  // ---------------------------------------------------------------------
  // The component's state and handlers
  // ---------------------------------------------------------------------

  class CaseForm {
    var expandedSection: string
    var isUploading: bool
    var uploadedFiles: seq<UploadedFile>
    var isAnalyzing: bool
    /** Upload callbacks not yet run, oldest first (they share one delay). */
    var pendingUploads: seq<PendingUpload>
    /** Records the analysis callbacks will store, oldest first. */
    var pendingAnalyses: seq<StoredCase>
    /** The session storage slot `caseData`. */
    var caseData: Option<StoredCase>
    var route: string
    /** Notifications shown, oldest first. */
    var toasts: seq<Toast>

    constructor (storedCaseData: Option<StoredCase>)
      ensures expandedSection == InitialSection && !isUploading && uploadedFiles == [] && !isAnalyzing
      ensures pendingUploads == [] && pendingAnalyses == []
      ensures caseData == storedCaseData && route == FormRoute && toasts == []
    {
      expandedSection := InitialSection;
      isUploading := false;
      uploadedFiles := [];
      isAnalyzing := false;
      pendingUploads := [];
      pendingAnalyses := [];
      caseData := storedCaseData;
      route := FormRoute;
      toasts := [];
    }

    /** `toggleSection(section)`. */
    method ToggleSection(section: string)
      modifies this`expandedSection
      ensures expandedSection == NextExpanded(old(expandedSection), section)
    {
      if expandedSection == section {
        expandedSection := "";
      } else {
        expandedSection := section;
      }
    }

    /**
     * `handleFileUpload`: reports each rejected file, and when some file is
     * valid schedules the callback that sets the list to the list as it is now
     * followed by the valid files.
     */
    method HandleFileUpload(selected: Option<seq<UploadedFile>>)
      modifies this`isUploading, this`pendingUploads, this`toasts
      ensures selected.None? ==>
        toasts == old(toasts) && isUploading == old(isUploading) && pendingUploads == old(pendingUploads)
      ensures selected.Some? ==>
        var valid := ValidFiles(selected.value);
        && toasts == old(toasts) + RejectionToasts(Rejections(selected.value))
        && (valid != [] ==>
              isUploading && pendingUploads == old(pendingUploads) + [PendingUpload(old(uploadedFiles) + valid, |valid|)])
        && (valid == [] ==> isUploading == old(isUploading) && pendingUploads == old(pendingUploads))
    {
      if selected.Some? {
        var valid, errors := FilterFiles(selected.value);
        toasts := toasts + errors;
        if |valid| > 0 {
          isUploading := true;
          pendingUploads := pendingUploads + [PendingUpload(uploadedFiles + valid, |valid|)];
        }
      }
    }

    /** The upload delay elapses: the oldest scheduled callback runs. */
    method FinishUpload()
      requires pendingUploads != []
      modifies this`uploadedFiles, this`isUploading, this`pendingUploads, this`toasts
      ensures uploadedFiles == old(pendingUploads[0].files)
      ensures !isUploading
      ensures pendingUploads == old(pendingUploads[1..])
      ensures toasts == old(toasts) + [UploadedToast(old(pendingUploads[0].count))]
    {
      var done := pendingUploads[0];
      pendingUploads := pendingUploads[1..];
      uploadedFiles := done.files;
      isUploading := false;
      toasts := toasts + [UploadedToast(done.count)];
    }

    /** `removeFile(index)`. */
    method RemoveFile(index: int)
      modifies this`uploadedFiles, this`toasts
      ensures uploadedFiles == RemoveAt(old(uploadedFiles), index)
      ensures toasts == old(toasts) + [InfoToast(RemovedMessage)]
    {
      var newFiles := uploadedFiles;
      newFiles := RemoveAt(newFiles, index);
      uploadedFiles := newFiles;
      toasts := toasts + [InfoToast(RemovedMessage)];
    }

    /**
     * `onSubmit(data)`: without consent only an error is shown; with consent
     * the analysis callback is scheduled with the record to store.
     */
    method OnSubmit(data: FormData)
      modifies this`isAnalyzing, this`pendingAnalyses, this`toasts
      ensures caseData == old(caseData) && route == old(route)
      ensures !data.consentToAnalyze ==>
        && toasts == old(toasts) + [ErrorToast(ConsentMessage)]
        && isAnalyzing == old(isAnalyzing) && pendingAnalyses == old(pendingAnalyses)
      ensures data.consentToAnalyze ==>
        && toasts == old(toasts) && isAnalyzing
        && pendingAnalyses == old(pendingAnalyses) + [SubmissionRecord(data, |uploadedFiles|).value]
    {
      if !data.consentToAnalyze {
        toasts := toasts + [ErrorToast(ConsentMessage)];
        return;
      }
      isAnalyzing := true;
      pendingAnalyses := pendingAnalyses + [StoredCase(data, |uploadedFiles|)];
    }

    /** The analysis delay elapses: the record is stored and the results page opens. */
    method FinishAnalysis()
      requires pendingAnalyses != []
      modifies this`isAnalyzing, this`pendingAnalyses, this`caseData, this`route
      ensures !isAnalyzing
      ensures caseData == Some(old(pendingAnalyses[0]))
      ensures route == ResultsRoute
      ensures pendingAnalyses == old(pendingAnalyses[1..])
    {
      var record := pendingAnalyses[0];
      pendingAnalyses := pendingAnalyses[1..];
      isAnalyzing := false;
      caseData := Some(record);
      route := ResultsRoute;
    }
  }

  // ---------------------------------------------------------------------
  // Whole interactions, from a freshly mounted form
  // ---------------------------------------------------------------------

  /** One upload that runs to completion leaves exactly the valid files. */
  method UploadOnce(selected: seq<UploadedFile>) returns (files: seq<UploadedFile>)
    ensures files == ValidFiles(selected)
  {
    var form := new CaseForm(None);
    form.HandleFileUpload(Some(selected));
    if form.pendingUploads != [] {
      form.FinishUpload();
    }
    files := form.uploadedFiles;
  }

  /**
   * A removal made while an upload is pending is overwritten when the upload
   * callback runs, since that callback sets the list captured at upload time.
   */
  method RemoveDuringUpload(a: UploadedFile, b: UploadedFile) returns (files: seq<UploadedFile>)
    requires IsAcceptable(a) && IsAcceptable(b)
    ensures files == [a, b]
  {
    var form := new CaseForm(None);
    form.HandleFileUpload(Some([a]));
    form.FinishUpload();
    assert form.uploadedFiles == [a];
    form.HandleFileUpload(Some([b]));
    form.RemoveFile(0);
    assert form.uploadedFiles == [];
    form.FinishUpload();
    files := form.uploadedFiles;
  }

  /** Upload, then submit: consent alone decides whether a record is stored and the results page opens. */
  method UploadAndSubmit(selected: seq<UploadedFile>, data: FormData) returns (stored: Option<StoredCase>, route: string)
    ensures stored == SubmissionRecord(data, |ValidFiles(selected)|)
    ensures route == if data.consentToAnalyze then ResultsRoute else FormRoute
  {
    var form := new CaseForm(None);
    form.HandleFileUpload(Some(selected));
    if form.pendingUploads != [] {
      form.FinishUpload();
    }
    form.OnSubmit(data);
    if form.pendingAnalyses != [] {
      form.FinishAnalysis();
    }
    stored, route := form.caseData, form.route;
  }
}
