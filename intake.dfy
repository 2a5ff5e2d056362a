/**
  The complaint intake form (src/components/ComplaintForm.tsx).

  The component keeps a seven-field draft, an in-flight flag, an optional
  analysis result and an append-only list of uploaded images. Its handlers
  overwrite one draft field, append images, fire a simulated analysis and
  submit the complaint. Each `setTimeout` is split into a "begin" step, which
  counts one more pending timer, and a later "complete" step, which runs the
  callback and counts one fewer. The two counters are separate, so a callback
  can still run after the state it was scheduled for has been reset.

  The pure part below (the `FormState` value and one transition function per
  handler) is what the lemmas talk about; the class `ComplaintForm` holds the
  same state in mutable fields and each of its methods is proved to perform
  exactly the matching transition.
*/
module Intake {
  import opened Wrappers

  // ---------------------------------------------------------------------
  // The draft record
  // ---------------------------------------------------------------------

  /** The seven keys that `handleInputChange` is called with. */
  datatype Field = Title | Description | Category | Location | Priority | ContactEmail | ContactPhone

  /** The fields the submit button insists on (line 342). */
  predicate IsRequired(f: Field) {
    f.Title? || f.Description? || f.Category? || f.Location?
  }

  datatype Draft = Draft(
    title: string,
    description: string,
    category: string,
    location: string,
    priority: string,
    contactEmail: string,
    contactPhone: string)
  {
    /** The value stored under key `f`. */
    function Get(f: Field): string {
      match f
      case Title => title
      case Description => description
      case Category => category
      case Location => location
      case Priority => priority
      case ContactEmail => contactEmail
      case ContactPhone => contactPhone
    }

    /** `{ ...prev, [f]: v }`: the draft with key `f` overwritten by `v`. */
    function With(f: Field, v: string): (d: Draft)
      ensures d.Get(f) == v
      ensures forall g :: g != f ==> d.Get(g) == Get(g)
    {
      match f
      case Title => this.(title := v)
      case Description => this.(description := v)
      case Category => this.(category := v)
      case Location => this.(location := v)
      case Priority => this.(priority := v)
      case ContactEmail => this.(contactEmail := v)
      case ContactPhone => this.(contactPhone := v)
    }
  }

  /** Two drafts that agree on every key are the same draft. */
  lemma DraftExtensional(a: Draft, b: Draft)
    requires forall f :: a.Get(f) == b.Get(f)
    ensures a == b
  {
    assert a.Get(Title) == b.Get(Title);
    assert a.Get(Description) == b.Get(Description);
    assert a.Get(Category) == b.Get(Category);
    assert a.Get(Location) == b.Get(Location);
    assert a.Get(Priority) == b.Get(Priority);
    assert a.Get(ContactEmail) == b.Get(ContactEmail);
    assert a.Get(ContactPhone) == b.Get(ContactPhone);
  }

  /** The draft the component starts with (`useState` initialiser). */
  const InitialDraft := Draft("", "", "", "", "medium", "", "")

  /** The draft written back when a submission completes. */
  const ResetDraft := Draft("", "", "", "", "medium", "", "")

  // ---------------------------------------------------------------------
  // Attachments, analysis, side effects
  // ---------------------------------------------------------------------

  /** What the component reads from a selected `File`. */
  datatype SelectedFile = SelectedFile(name: string, size: nat)

  /** The random id and the object URL the browser supplies for one file. */
  datatype ObjectRef = ObjectRef(id: string, url: string)

  datatype UploadedImage = UploadedImage(id: string, name: string, size: nat, url: string)

  datatype AIAnalysis = AIAnalysis(
    category: string,
    priority: string,
    department: string,
    similarIssues: nat,
    estimatedResolution: string,
    confidence: nat)

  /** The one result the simulated analysis ever produces. */
  const GeminiResult := AIAnalysis("Road Maintenance", "High", "BBMP Roads Division", 12, "3-5 business days", 94)

  /** A toast shown to the user, or a navigation request. */
  datatype Effect = Notice(title: string, description: string, destructive: bool) | Redirect(path: string)

  const AuthPath := "/auth"

  const AuthRequiredNotice := Notice(
    "Authentication Required",
    "Please sign in to submit a complaint. You'll be redirected to the login page.",
    true)

  const SubmittedNotice := Notice(
    "Complaint Submitted Successfully!",
    "Your issue has been logged and assigned ID: #TRS-2025-0342",
    false)

  const LocationCapturedNotice := Notice(
    "Location captured",
    "GPS coordinates have been added to your complaint",
    false)

  const LocationDeniedNotice := Notice(
    "Location access denied",
    "Please enter your location manually",
    true)

  /** What the browser's geolocation service reports. */
  datatype GeoOutcome =
    | NoGeolocation                  // `navigator.geolocation` is absent
    | Located(coordinates: string)   // the formatted "lat, lon" string
    | Denied                         // the error callback ran

  /** The number of redirects in an effect log. */
  function CountRedirects(effects: seq<Effect>): nat {
    if effects == [] then 0
    else (if effects[0].Redirect? then 1 else 0) + CountRedirects(effects[1..])
  }

  lemma {:induction false} CountRedirectsAppend(a: seq<Effect>, b: seq<Effect>)
    ensures CountRedirects(a + b) == CountRedirects(a) + CountRedirects(b)
  {
    if a == [] {
      assert a + b == b;
    } else {
      assert (a + b)[1..] == a[1..] + b;
      CountRedirectsAppend(a[1..], b);
    }
  }

  // ---------------------------------------------------------------------
  // The component state and its transitions
  // ---------------------------------------------------------------------

  datatype FormState = FormState(
    draft: Draft,
    isSubmitting: bool,
    analysis: Option<AIAnalysis>,
    images: seq<UploadedImage>,
    pendingAnalyses: nat,     // analysis timers started and not yet fired
    pendingSubmits: nat,      // submission timers started and not yet fired
    effects: seq<Effect>)     // every toast and redirect emitted so far

  const InitialState := FormState(InitialDraft, false, None, [], 0, 0, [])

  /** What every reachable state satisfies. */
  predicate ValidState(s: FormState) {
    && (s.analysis == None || s.analysis == Some(GeminiResult))
    && (s.isSubmitting ==> s.pendingSubmits > 0)
  }

  /** `handleInputChange(f, v)`. */
  function InputChanged(s: FormState, f: Field, v: string): (r: FormState)
    ensures r.draft.Get(f) == v
    ensures forall g :: g != f ==> r.draft.Get(g) == s.draft.Get(g)
    ensures r.(draft := s.draft) == s
  {
    s.(draft := s.draft.With(f, v))
  }

  /** The `newImages` list: one entry per selected file, in selection order. */
  function ToImages(files: seq<SelectedFile>, refs: seq<ObjectRef>): (r: seq<UploadedImage>)
    requires |refs| == |files|
    ensures |r| == |files|
    ensures forall i {:trigger r[i]} :: 0 <= i < |r| ==>
      r[i] == UploadedImage(refs[i].id, files[i].name, files[i].size, refs[i].url)
  {
    if files == [] then []
    else [UploadedImage(refs[0].id, files[0].name, files[0].size, refs[0].url)] + ToImages(files[1..], refs[1..])
  }

  /** The "begin" half of `simulateGeminiAnalysis`: one more timer is pending. */
  function AnalysisScheduled(s: FormState): (r: FormState)
    ensures r.pendingAnalyses == s.pendingAnalyses + 1
    ensures r.(pendingAnalyses := s.pendingAnalyses) == s
  {
    s.(pendingAnalyses := s.pendingAnalyses + 1)
  }

  /** The "complete" half of `simulateGeminiAnalysis`: the timer callback. */
  function AnalysisCompleted(s: FormState): (r: FormState)
    requires s.pendingAnalyses > 0
    ensures r.analysis == Some(GeminiResult) && r.pendingAnalyses == s.pendingAnalyses - 1
    ensures r.draft == s.draft && r.images == s.images && r.isSubmitting == s.isSubmitting
  {
    s.(analysis := Some(GeminiResult), pendingAnalyses := s.pendingAnalyses - 1)
  }

  /** `handleImageUpload`, where `None` is a null `FileList`. */
  function ImagesUploaded(s: FormState, files: Option<seq<SelectedFile>>, refs: seq<ObjectRef>): (r: FormState)
    requires files.Some? ==> |refs| == |files.value|
    ensures files.None? ==> r == s
    ensures files.Some? ==>
      && |r.images| == |s.images| + |files.value|
      && r.images[..|s.images|] == s.images
      && r.pendingAnalyses == s.pendingAnalyses + (if |files.value| > 0 then 1 else 0)
    ensures r.(images := s.images, pendingAnalyses := s.pendingAnalyses) == s
  {
    match files
    case None => s
    case Some(fs) =>
      var newImages := ToImages(fs, refs);
      var t := s.(images := s.images + newImages);
      if |newImages| > 0 then AnalysisScheduled(t) else t
  }

  /** `handleSubmit`, with the auth context's user present or not, up to the timer. */
  function SubmitRequested(s: FormState, signedIn: bool): (r: FormState)
    ensures signedIn ==> r.isSubmitting && r.pendingSubmits == s.pendingSubmits + 1 && r.draft == s.draft
    ensures !signedIn ==>
      && r.(effects := s.effects) == s
      && |r.effects| == |s.effects| + 2 && r.effects[..|s.effects|] == s.effects
      && r.effects[|s.effects| + 1] == Redirect(AuthPath)
  {
    if !signedIn then
      s.(effects := s.effects + [AuthRequiredNotice, Redirect(AuthPath)])
    else
      s.(isSubmitting := true, pendingSubmits := s.pendingSubmits + 1)
  }

  /** The callback of the submission timer. */
  function SubmitCompleted(s: FormState): (r: FormState)
    requires s.pendingSubmits > 0
    ensures !r.isSubmitting && r.draft == InitialDraft && r.images == [] && r.analysis == None
    ensures r.pendingSubmits == s.pendingSubmits - 1 && r.pendingAnalyses == s.pendingAnalyses
  {
    s.(isSubmitting := false,
       effects := s.effects + [SubmittedNotice],
       draft := ResetDraft,
       images := [],
       analysis := None,
       pendingSubmits := s.pendingSubmits - 1)
  }

  /** `getCurrentLocation` once the geolocation service has answered. */
  function LocationReported(s: FormState, outcome: GeoOutcome): (r: FormState)
    ensures forall g :: g != Location ==> r.draft.Get(g) == s.draft.Get(g)
    ensures outcome.Located? ==> r.draft.location == outcome.coordinates
    ensures !outcome.Located? ==> r.draft == s.draft
    ensures r.(draft := s.draft, effects := s.effects) == s
    ensures outcome.Located? ==> r.effects == s.effects + [LocationCapturedNotice]
    ensures outcome.Denied? ==> r.effects == s.effects + [LocationDeniedNotice]
    ensures outcome.NoGeolocation? ==> r == s
  {
    match outcome
    case NoGeolocation => s
    case Located(coordinates) =>
      var t := InputChanged(s, Location, coordinates);
      t.(effects := t.effects + [LocationCapturedNotice])
    case Denied => s.(effects := s.effects + [LocationDeniedNotice])
  }

  /** The four required keys are non-empty exactly when the four named fields are. */
  lemma RequiredFieldsByName(d: Draft)
    ensures (forall f :: IsRequired(f) ==> d.Get(f) != "")
      <==> d.title != "" && d.description != "" && d.category != "" && d.location != ""
  {
    if d.title != "" && d.description != "" && d.category != "" && d.location != "" {
      forall f | IsRequired(f) ensures d.Get(f) != "" {
        match f
        case Title =>
        case Description =>
        case Category =>
        case Location =>
      }
    } else {
      assert d.Get(Title) == "" || d.Get(Description) == "" || d.Get(Category) == "" || d.Get(Location) == "";
    }
  }

  /** The submit button is enabled (the negation of its `disabled` expression). */
  function SubmitEnabled(s: FormState): (r: bool)
    ensures r <==> !s.isSubmitting && forall f :: IsRequired(f) ==> s.draft.Get(f) != ""
  {
    RequiredFieldsByName(s.draft);
    !(s.isSubmitting || s.draft.title == "" || s.draft.description == ""
      || s.draft.category == "" || s.draft.location == "")
  }

  /**
    A click on the submit button. A disabled button dispatches nothing, and
    the browser's check of the `type="email"` contact field can still block
    the submit event. Its verdict is `emailAccepted`; an empty contact e-mail
    always passes, as the field is optional.
  */
  function SubmitClicked(s: FormState, signedIn: bool, emailAccepted: bool): (r: FormState)
    requires s.draft.contactEmail == "" ==> emailAccepted
    ensures !(SubmitEnabled(s) && emailAccepted) ==> r == s
    ensures SubmitEnabled(s) && emailAccepted ==> r == SubmitRequested(s, signedIn)
  {
    if SubmitEnabled(s) && emailAccepted then SubmitRequested(s, signedIn) else s
  }

  // ---------------------------------------------------------------------
  // Properties of the transitions
  // ---------------------------------------------------------------------

  /** An edit changes exactly the named key of the draft and nothing else. */
  lemma InputChangeIsolated(s: FormState, f: Field, v: string)
    ensures var t := InputChanged(s, f, v);
      && t.draft.Get(f) == v
      && (forall g :: g != f ==> t.draft.Get(g) == s.draft.Get(g))
      && t.(draft := s.draft) == s
  {
  }

  /** A later edit of the same key wins: the earlier value leaves no trace. */
  lemma InputChangeLastWriteWins(s: FormState, f: Field, v: string, w: string)
    ensures InputChanged(InputChanged(s, f, v), f, w) == InputChanged(s, f, w)
  {
    DraftExtensional(s.draft.With(f, v).With(f, w), s.draft.With(f, w));
  }

  /** Edits of different keys do not interfere: their order does not matter. */
  lemma InputChangesCommute(s: FormState, f: Field, v: string, g: Field, w: string)
    requires f != g
    ensures InputChanged(InputChanged(s, f, v), g, w) == InputChanged(InputChanged(s, g, w), f, v)
  {
    DraftExtensional(s.draft.With(f, v).With(g, w), s.draft.With(g, w).With(f, v));
  }

  /** Writing back the value a key already holds changes nothing. */
  lemma InputChangeSameValue(s: FormState, f: Field)
    ensures InputChanged(s, f, s.draft.Get(f)) == s
  {
    DraftExtensional(s.draft.With(f, s.draft.Get(f)), s.draft);
  }

  /** The reset draft is the initial draft: every key empty except priority "medium". */
  lemma ResetDraftIsInitialDraft()
    ensures ResetDraft == InitialDraft
    ensures forall f :: InitialDraft.Get(f) == (if f == Priority then "medium" else "")
  {
  }

  /** A null `FileList` changes nothing and schedules no analysis. */
  lemma UploadWithoutFilesChangesNothing(s: FormState, refs: seq<ObjectRef>)
    ensures ImagesUploaded(s, None, refs) == s
  {
  }

  /** An upload of N files appends exactly N images, in selection order, and keeps the old list as a prefix. */
  lemma UploadAppends(s: FormState, files: seq<SelectedFile>, refs: seq<ObjectRef>)
    requires |refs| == |files|
    ensures var t := ImagesUploaded(s, Some(files), refs);
      && |t.images| == |s.images| + |files|
      && t.images[..|s.images|] == s.images
      && (forall i :: 0 <= i < |files| ==>
            t.images[|s.images| + i].name == files[i].name
            && t.images[|s.images| + i].size == files[i].size)
      && t.draft == s.draft && t.analysis == s.analysis
      && t.isSubmitting == s.isSubmitting && t.effects == s.effects
      && t.(images := s.images, pendingAnalyses := s.pendingAnalyses) == s
  {
    var t := ImagesUploaded(s, Some(files), refs);
    assert t.images == s.images + ToImages(files, refs);
  }

  /** An upload schedules one analysis if it added any image and none otherwise, whatever N is. */
  lemma UploadSchedulesOneAnalysis(s: FormState, files: seq<SelectedFile>, refs: seq<ObjectRef>)
    requires |refs| == |files|
    ensures ImagesUploaded(s, Some(files), refs).pendingAnalyses
      == s.pendingAnalyses + (if |files| > 0 then 1 else 0)
  {
  }

  lemma UploadedImagesAppended(s: FormState, files: seq<SelectedFile>, refs: seq<ObjectRef>)
    requires |refs| == |files|
    ensures ImagesUploaded(s, Some(files), refs).images == s.images + ToImages(files, refs)
  {
  }

  /** Two uploads in a row leave the same list as one upload of both batches. */
  lemma {:induction false} ToImagesConcat(f1: seq<SelectedFile>, r1: seq<ObjectRef>, f2: seq<SelectedFile>, r2: seq<ObjectRef>)
    requires |r1| == |f1| && |r2| == |f2|
    ensures ToImages(f1 + f2, r1 + r2) == ToImages(f1, r1) + ToImages(f2, r2)
  {
    if f1 == [] {
      assert f1 + f2 == f2 && r1 + r2 == r2;
    } else {
      assert (f1 + f2)[1..] == f1[1..] + f2;
      assert (r1 + r2)[1..] == r1[1..] + r2;
      ToImagesConcat(f1[1..], r1[1..], f2, r2);
    }
  }

  lemma UploadsAccumulate(s: FormState, f1: seq<SelectedFile>, r1: seq<ObjectRef>, f2: seq<SelectedFile>, r2: seq<ObjectRef>)
    requires |r1| == |f1| && |r2| == |f2|
    ensures ImagesUploaded(ImagesUploaded(s, Some(f1), r1), Some(f2), r2).images
      == ImagesUploaded(s, Some(f1 + f2), r1 + r2).images
  {
    var a := ImagesUploaded(s, Some(f1), r1);
    var n1, n2 := ToImages(f1, r1), ToImages(f2, r2);
    calc {
      ImagesUploaded(a, Some(f2), r2).images;
      { UploadedImagesAppended(a, f2, r2); }
      a.images + n2;
      { UploadedImagesAppended(s, f1, r1); }
      (s.images + n1) + n2;
      s.images + (n1 + n2);
      { ToImagesConcat(f1, r1, f2, r2); }
      s.images + ToImages(f1 + f2, r1 + r2);
      { UploadedImagesAppended(s, f1 + f2, r1 + r2); }
      ImagesUploaded(s, Some(f1 + f2), r1 + r2).images;
    }
  }

  /** Every analysis completion writes the same constant, whatever the state; a second one changes no field but the counter. */
  lemma AnalysisCompletionIsConstant(s: FormState)
    requires s.pendingAnalyses > 0
    ensures AnalysisCompleted(s).analysis == Some(GeminiResult)
    ensures AnalysisCompleted(s).(pendingAnalyses := s.pendingAnalyses, analysis := s.analysis) == s
    ensures s.pendingAnalyses > 1 ==>
      AnalysisCompleted(AnalysisCompleted(s)) == AnalysisCompleted(s).(pendingAnalyses := s.pendingAnalyses - 2)
  {
  }

  /** Without a user, submit keeps the draft, images, analysis and flag, and emits exactly one redirect, to the auth page. */
  lemma UnauthenticatedSubmitKeepsDraft(s: FormState)
    ensures var t := SubmitRequested(s, false);
      && t.(effects := s.effects) == s
      && t.effects == s.effects + [AuthRequiredNotice, Redirect(AuthPath)]
      && CountRedirects(t.effects) == CountRedirects(s.effects) + 1
  {
    var tail := [AuthRequiredNotice, Redirect(AuthPath)];
    CountRedirectsAppend(s.effects, tail);
    assert tail[1..] == [Redirect(AuthPath)] && tail[1..][1..] == [];
    assert CountRedirects(tail[1..][1..]) == 0;
    assert CountRedirects(tail[1..]) == 1;
  }

  /** With a user, submit only raises the flag and starts one timer; it does not look at the draft. */
  lemma AuthenticatedSubmitStartsTimer(s: FormState)
    ensures var t := SubmitRequested(s, true);
      && t.isSubmitting
      && t.pendingSubmits == s.pendingSubmits + 1
      && t.(isSubmitting := s.isSubmitting, pendingSubmits := s.pendingSubmits) == s
  {
  }

  /** A submission completion resets draft, images and analysis and lowers the flag, all at once. */
  lemma SubmitCompletionResetsAll(s: FormState)
    requires s.pendingSubmits > 0
    ensures var t := SubmitCompleted(s);
      && !t.isSubmitting && t.draft == InitialDraft && t.images == [] && t.analysis == None
      && t.effects == s.effects + [SubmittedNotice]
      && !SubmitEnabled(t)
  {
    assert IsRequired(Title) && SubmitCompleted(s).draft.Get(Title) == "";
  }

  /** Submit is enabled only when idle and all four required keys are non-empty. */
  lemma SubmitEnabledNeedsRequiredFields(s: FormState, f: Field, v: string)
    ensures IsRequired(f) ==> !SubmitEnabled(InputChanged(s, f, ""))
    ensures !IsRequired(f) ==> SubmitEnabled(InputChanged(s, f, v)) == SubmitEnabled(s)
  {
    var t := InputChanged(s, f, v);
    if !IsRequired(f) {
      forall g | IsRequired(g) ensures t.draft.Get(g) == s.draft.Get(g) {
        assert g != f;
      }
    }
  }

  /**
    Through the button, a submission starts only with a user, from a form that
    is not already submitting, whose required fields are filled and whose
    contact e-mail the browser accepts; a click while a submission is in
    flight, or one the browser blocks, does nothing.
  */
  lemma ClickedSubmitNeedsRequiredFields(s: FormState, signedIn: bool, emailAccepted: bool)
    requires s.draft.contactEmail == "" ==> emailAccepted
    ensures SubmitClicked(s, signedIn, emailAccepted).pendingSubmits > s.pendingSubmits ==>
      && !s.isSubmitting && signedIn && emailAccepted
      && forall f :: IsRequired(f) ==> s.draft.Get(f) != ""
    ensures s.isSubmitting ==> SubmitClicked(s, signedIn, emailAccepted) == s
    ensures !emailAccepted ==> SubmitClicked(s, signedIn, emailAccepted) == s
  {
  }

  /** The geolocation callback writes only the location key on success and only a notice otherwise. */
  lemma LocationReportedTouchesOnlyLocation(s: FormState, outcome: GeoOutcome)
    ensures var t := LocationReported(s, outcome);
      && (forall g :: g != Location ==> t.draft.Get(g) == s.draft.Get(g))
      && (outcome.Located? ==> t.draft.location == outcome.coordinates)
      && (!outcome.Located? ==> t.draft == s.draft)
      && t.images == s.images && t.analysis == s.analysis && t.isSubmitting == s.isSubmitting
      && t.(draft := s.draft, effects := s.effects) == s
      && (outcome.Located? ==> t.effects == s.effects + [LocationCapturedNotice])
      && (outcome.Denied? ==> t.effects == s.effects + [LocationDeniedNotice])
      && (outcome.NoGeolocation? ==> t == s)
  {
  }

  /** Every transition keeps `ValidState`. */
  lemma TransitionsPreserveValid(s: FormState, f: Field, v: string, files: Option<seq<SelectedFile>>,
                                 refs: seq<ObjectRef>, signedIn: bool, outcome: GeoOutcome)
    requires ValidState(s)
    requires files.Some? ==> |refs| == |files.value|
    ensures ValidState(InputChanged(s, f, v))
    ensures ValidState(ImagesUploaded(s, files, refs))
    ensures ValidState(AnalysisScheduled(s))
    ensures s.pendingAnalyses > 0 ==> ValidState(AnalysisCompleted(s))
    ensures ValidState(SubmitRequested(s, signedIn))
    ensures s.pendingSubmits > 0 ==> ValidState(SubmitCompleted(s))
    ensures ValidState(LocationReported(s, outcome))
  {
  }

  /**
    Timers are never cancelled, and the file input stays enabled while a
    submission is in flight: images added during a submission start an
    analysis whose 1500 ms timer can fire after the 2000 ms submission timer
    has reset the form, putting an analysis back beside an empty image list.
  */
  lemma StaleAnalysisAfterReset(file: SelectedFile, ref: ObjectRef)
    ensures var s1 := SubmitRequested(InitialState, true);
      var s2 := ImagesUploaded(s1, Some([file]), [ref]);
      var s3 := SubmitCompleted(s2);
      && s3.analysis == None && s3.pendingAnalyses == 1
      && AnalysisCompleted(s3).analysis == Some(GeminiResult)
      && AnalysisCompleted(s3).images == []
  {
    assert |ToImages([file], [ref])| == 1;
  }

  // ---------------------------------------------------------------------
  // The component
  // ---------------------------------------------------------------------

  class ComplaintForm {
    var draft: Draft
    var isSubmitting: bool
    var analysis: Option<AIAnalysis>
    var images: seq<UploadedImage>
    var pendingAnalyses: nat
    var pendingSubmits: nat
    var effects: seq<Effect>

    /** The whole component state as a value. */
    function State(): FormState
      reads this
    {
      FormState(draft, isSubmitting, analysis, images, pendingAnalyses, pendingSubmits, effects)
    }

    constructor ()
      ensures State() == InitialState && ValidState(State())
    {
      draft := InitialDraft;
      isSubmitting := false;
      analysis := None;
      images := [];
      pendingAnalyses := 0;
      pendingSubmits := 0;
      effects := [];
    }

    method HandleInputChange(f: Field, v: string)
      requires ValidState(State())
      modifies this
      ensures ValidState(State())
      ensures State() == InputChanged(old(State()), f, v)
    {
      draft := draft.With(f, v);
    }

    method SimulateGeminiAnalysis()
      requires ValidState(State())
      modifies this
      ensures ValidState(State())
      ensures State() == AnalysisScheduled(old(State()))
    {
      pendingAnalyses := pendingAnalyses + 1;
    }

    /** The analysis timer fires. */
    method CompleteGeminiAnalysis()
      requires pendingAnalyses > 0
      requires ValidState(State())
      modifies this
      ensures ValidState(State())
      ensures State() == AnalysisCompleted(old(State()))
    {
      analysis := Some(GeminiResult);
      pendingAnalyses := pendingAnalyses - 1;
    }

    method HandleImageUpload(files: Option<seq<SelectedFile>>, refs: seq<ObjectRef>)
      requires files.Some? ==> |refs| == |files.value|
      requires ValidState(State())
      modifies this
      ensures ValidState(State())
      ensures State() == ImagesUploaded(old(State()), files, refs)
    {
      if files.None? {
        return;
      }
      var newImages := ToImages(files.value, refs);
      images := images + newImages;
      if |newImages| > 0 {
        SimulateGeminiAnalysis();
      }
    }

    method HandleSubmit(signedIn: bool)
      requires ValidState(State())
      modifies this
      ensures ValidState(State())
      ensures State() == SubmitRequested(old(State()), signedIn)
    {
      if !signedIn {
        effects := effects + [AuthRequiredNotice];
        effects := effects + [Redirect(AuthPath)];
        return;
      }
      isSubmitting := true;
      pendingSubmits := pendingSubmits + 1;
    }

    /** The submission timer fires. */
    method CompleteSubmit()
      requires pendingSubmits > 0
      requires ValidState(State())
      modifies this
      ensures ValidState(State())
      ensures State() == SubmitCompleted(old(State()))
    {
      isSubmitting := false;
      effects := effects + [SubmittedNotice];
      draft := ResetDraft;
      images := [];
      analysis := None;
      pendingSubmits := pendingSubmits - 1;
    }

    /** `getCurrentLocation`, given what the geolocation service reported. */
    method GetCurrentLocation(outcome: GeoOutcome)
      requires ValidState(State())
      modifies this
      ensures ValidState(State())
      ensures State() == LocationReported(old(State()), outcome)
    {
      match outcome {
        case NoGeolocation =>
        case Located(coordinates) =>
          HandleInputChange(Location, coordinates);
          effects := effects + [LocationCapturedNotice];
        case Denied =>
          effects := effects + [LocationDeniedNotice];
      }
    }
  }
}
