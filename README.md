# Complaint intake and leaderboard scoring — a verified model

This project models the two pieces of real logic in a civic-complaint dashboard
written in React/TypeScript. Everything else in that application only renders
hard-coded data.

- **The complaint intake form** (`src/components/ComplaintForm.tsx`), module
  `Intake` in `intake.dfy`. The form holds a seven-field draft, an
  `isSubmitting` flag, an optional AI analysis and an append-only list of
  uploaded images. Its handlers edit one field, ingest attachments, run a
  simulated analysis and submit the complaint behind an authentication gate.
  The state is written twice. `FormState` is the state as a value, with one
  transition function per handler, and the lemmas are stated over it. The
  class `ComplaintForm` keeps the same state in mutable fields. Each of its
  methods is proved to perform exactly the matching transition.
  Every `setTimeout` becomes two steps. A "begin" step adds one to a pending
  counter (`pendingAnalyses` or `pendingSubmits`). A later "complete" method
  runs the callback and takes one off. Each kind of timer has its own counter.
  So the model can express a completion that fires after the form was reset.
  The file input stays enabled during a submission, so images added more than
  500 ms into it start an analysis that fires after the reset and puts an
  analysis back beside an empty image list (`StaleAnalysisAfterReset`).
  Toasts and the redirect to `/auth` are appended to an `effects` log.
  The auth context's `user` is passed to `HandleSubmit` as the boolean
  `signedIn`, read at call time.
- **The leaderboard helpers** (`src/components/Leaderboard.tsx`), module
  `Scoreboard` in `scoreboard.dfy`. These are the rank-movement indicator,
  the colour and badge bands for a TrueScore, the trend arrow, the top-three
  podium, the resolution rate and the static department table. The
  `timeFilter` effect is a small class `Leaderboard`.
  A score band is defined independently as the number of band floors
  (65, 75, 85) a score reaches. The if-chains of `getTrueScoreColor` and
  `getTrueScoreBadge` are proved to pick the colour and badge of that band.
  Scores are `real`, so comparisons against the constants are exact.

`wrappers.dfy` holds the `Option` type, which stands for TypeScript's `T | null`.

`handleSubmit` (`ComplaintForm.tsx:101-138`) checks no field itself, so
`SubmitRequested` ignores the draft (`AuthenticatedSubmitStartsTimer`). Three
gates sit in front of it in the page, all modelled by `SubmitClicked`
(`ClickedSubmitNeedsRequiredFields`). The submit button's `disabled`
expression (line 342) covers all four required fields and the in-flight flag.
The HTML `required` attribute on the title, description and location inputs
(lines 191, 204, 251) also blocks the submit event when one of those is empty;
it checks a subset of what the button already checks, so it adds no behaviour
of its own. The contact e-mail input is `type="email"` (line 270) inside a
form without `noValidate` (line 182), so the browser blocks the submit event
when that optional field holds something it does not accept as an address.
The browser's verdict is the input `emailAccepted`; an empty field always
passes.

## Model

| member | source | states |
|---|---|---|
| Intake.Draft.With | src/components/ComplaintForm.tsx:61-66 | after the update the named key holds the new value and every other key keeps its old value |
| Intake.InputChangeIsolated | src/components/ComplaintForm.tsx:61-66 | an edit changes exactly the named draft key; the flag, analysis, images, timers and effects are untouched |
| Intake.InputChangeLastWriteWins | src/components/ComplaintForm.tsx:61-66 | two edits of the same key equal the later edit alone |
| Intake.InputChangesCommute | src/components/ComplaintForm.tsx:61-66 | edits of two different keys give the same state in either order |
| Intake.InputChangeSameValue | src/components/ComplaintForm.tsx:61-66 | writing back a key's current value leaves the state unchanged |
| Intake.ResetDraftIsInitialDraft | src/components/ComplaintForm.tsx:126-134 | the reset draft equals the initial draft (lines 33-41): every key empty except priority "medium" |
| Intake.UploadWithoutFilesChangesNothing | src/components/ComplaintForm.tsx:82-84 | a null file list leaves the whole state unchanged and schedules no analysis |
| Intake.InputChanged | src/components/ComplaintForm.tsx:61-66 | the edit step: the named key gets the value, every other key and every other part of the state is kept (properties: InputChangeIsolated, InputChangeLastWriteWins, InputChangesCommute, InputChangeSameValue) |
| Intake.AnalysisScheduled | src/components/ComplaintForm.tsx:68-70 | the "begin" half of the analysis timer: one more pending analysis, nothing else changes |
| Intake.AnalysisCompleted | src/components/ComplaintForm.tsx:70-79 | the timer callback: the analysis becomes the fixed record, one fewer timer is pending, draft, images and flag are kept (AnalysisCompletionIsConstant) |
| Intake.ImagesUploaded | src/components/ComplaintForm.tsx:82-99 | a null file list changes nothing; otherwise N images follow the unchanged old list and one analysis is scheduled exactly when N >= 1; everything but the images and the analysis counter is kept (UploadWithoutFilesChangesNothing, UploadAppends, UploadSchedulesOneAnalysis, UploadsAccumulate) |
| Intake.SubmitRequested | src/components/ComplaintForm.tsx:101-117 | with a user: the flag is raised and one submission timer starts, draft kept; without: only the effect log grows, by the notice and then a redirect to "/auth" (AuthenticatedSubmitStartsTimer, UnauthenticatedSubmitKeepsDraft) |
| Intake.SubmitCompleted | src/components/ComplaintForm.tsx:118-137 | the timer callback: flag lowered, draft equal to the initial draft, images empty, analysis cleared, one fewer submission timer, analysis timers kept (SubmitCompletionResetsAll, StaleAnalysisAfterReset) |
| Intake.LocationReported | src/components/ComplaintForm.tsx:140-160 | on success only the location key changes, to the coordinates; on denial or without geolocation the draft is kept; success appends the captured notice, denial the denied notice, and no geolocation changes nothing; everything but the draft and the effect log is always kept (LocationReportedTouchesOnlyLocation) |
| Intake.SubmitClicked | src/components/ComplaintForm.tsx:182-342 | a disabled button, or a contact e-mail the browser rejects, changes nothing; an enabled button with an accepted (or empty) e-mail runs the submit step (ClickedSubmitNeedsRequiredFields) |
| Intake.ToImages | src/components/ComplaintForm.tsx:86-92 | one image per file, in selection order; each image's name and size are its file's, and its id and URL are the ones supplied for that file |
| Intake.UploadedImagesAppended | src/components/ComplaintForm.tsx:93 | after an ingest, the image list is the old list followed by the new images |
| Intake.UploadAppends | src/components/ComplaintForm.tsx:86-93 | ingesting N files adds exactly N images after the unchanged old list, with names and sizes copied in order; everything but the images and the analysis counter (the draft, analysis, flag, submission counter and effects) is untouched |
| Intake.UploadSchedulesOneAnalysis | src/components/ComplaintForm.tsx:95-98 | an ingest starts one analysis timer when N is at least 1 and none when N is 0 |
| Intake.ToImagesConcat | src/components/ComplaintForm.tsx:86-92 | mapping two batches one after the other gives the same list as mapping their concatenation |
| Intake.UploadsAccumulate | src/components/ComplaintForm.tsx:93 | two ingests in a row leave the same image list as one ingest of both batches together |
| Intake.AnalysisCompletionIsConstant | src/components/ComplaintForm.tsx:68-80 | every completion sets the analysis to the fixed Road Maintenance / High / BBMP Roads Division / 12 / "3-5 business days" / 94 record; it changes nothing else but the counter, and a second completion changes only the counter |
| Intake.UnauthenticatedSubmitKeepsDraft | src/components/ComplaintForm.tsx:104-113 | without a user, submit keeps draft, images, analysis, flag and timers, and appends the notice and exactly one redirect, to "/auth" |
| Intake.AuthenticatedSubmitStartsTimer | src/components/ComplaintForm.tsx:115-118 | with a user, submit sets the flag and starts one submission timer, changing nothing else, whatever the draft holds |
| Intake.SubmitCompletionResetsAll | src/components/ComplaintForm.tsx:118-137 | a submission completion lowers the flag, resets the draft to the initial draft, empties the images and clears the analysis together, emits the success notice, and leaves the button disabled |
| Intake.RequiredFieldsByName | src/components/ComplaintForm.tsx:342 | the four required keys are all non-empty exactly when title, description, category and location are |
| Intake.SubmitEnabled | src/components/ComplaintForm.tsx:342 | the button is enabled if and only if no submission is in flight and every required key is non-empty |
| Intake.SubmitEnabledNeedsRequiredFields | src/components/ComplaintForm.tsx:342 | emptying any required key disables the button; editing an optional key never changes whether it is enabled |
| Intake.ClickedSubmitNeedsRequiredFields | src/components/ComplaintForm.tsx:182-342 | through the button, a submission timer starts only with a user, from a form not already submitting, with all required keys filled and a contact e-mail the browser accepts; a click while a submission is in flight, or one the browser blocks, changes nothing |
| Intake.LocationReportedTouchesOnlyLocation | src/components/ComplaintForm.tsx:140-160 | a geolocation answer writes the coordinates into the location key on success; otherwise the draft is unchanged; success appends exactly the captured notice, denial exactly the denied notice, and no geolocation leaves the state unchanged; other keys, images, analysis, flag and both timer counters are never touched |
| Intake.TransitionsPreserveValid | src/components/ComplaintForm.tsx:42-44 | every handler and callback keeps the analysis either absent or the fixed record, and keeps "submitting implies a submission timer is pending" |
| Intake.StaleAnalysisAfterReset | src/components/ComplaintForm.tsx:68-137 | after a signed-in submit, an upload during the submission starts an analysis timer; when the submission resets the form first, that timer still fires and puts the analysis back beside an empty image list |
| Intake.ComplaintForm.constructor | src/components/ComplaintForm.tsx:33-44 | the component starts in the initial state: initial draft, not submitting, no analysis, no images, no timers; the state invariant `ValidState` holds, and every method below requires and keeps it |
| Intake.ComplaintForm.HandleInputChange | src/components/ComplaintForm.tsx:61-66 | the new state is the edit transition of the old state |
| Intake.ComplaintForm.SimulateGeminiAnalysis | src/components/ComplaintForm.tsx:68-70 | starting the analysis adds one pending analysis timer and changes nothing else |
| Intake.ComplaintForm.CompleteGeminiAnalysis | src/components/ComplaintForm.tsx:70-79 | the firing analysis timer performs the completion transition |
| Intake.ComplaintForm.HandleImageUpload | src/components/ComplaintForm.tsx:82-99 | the new state is the ingest transition of the old state |
| Intake.ComplaintForm.HandleSubmit | src/components/ComplaintForm.tsx:101-117 | the new state is the submit transition of the old state, for the given user signal |
| Intake.ComplaintForm.CompleteSubmit | src/components/ComplaintForm.tsx:118-137 | the firing submission timer performs the reset transition |
| Intake.ComplaintForm.GetCurrentLocation | src/components/ComplaintForm.tsx:140-160 | the new state is the geolocation transition for the reported outcome |
| Scoreboard.GetRankChange | src/components/Leaderboard.tsx:117-121 | up if and only if current < previous, down if and only if current > previous, same if and only if they are equal |
| Scoreboard.RankChangeSwap | src/components/Leaderboard.tsx:117-121 | swapping the arguments swaps up and down and keeps same |
| Scoreboard.FloorsReached | src/components/Leaderboard.tsx:123-128 | the band index never exceeds the number of band floors |
| Scoreboard.FloorsReachedMonotone | src/components/Leaderboard.tsx:123-128 | a higher score reaches at least as many band floors |
| Scoreboard.ScoreBandIntervals | src/components/Leaderboard.tsx:123-128 | band 3 is score >= 85, band 2 is 75 <= score < 85, band 1 is 65 <= score < 75, band 0 is score < 65 |
| Scoreboard.ScoreBandMonotone | src/components/Leaderboard.tsx:123-128 | a higher score never lands in a lower band |
| Scoreboard.GetTrueScoreColor | src/components/Leaderboard.tsx:123-128 | green if and only if score >= 85, blue if and only if 75 <= score < 85, yellow if and only if 65 <= score < 75, red if and only if score < 65 |
| Scoreboard.GetTrueScoreBadge | src/components/Leaderboard.tsx:130-135 | the badge classes follow the same four intervals as the colour |
| Scoreboard.ColorAndBadgeShareBand | src/components/Leaderboard.tsx:123-135 | colour and badge are the colour and badge of the score's band, so they always fall in the same band |
| Scoreboard.ColorMonotone | src/components/Leaderboard.tsx:123-128 | if a score shows band b's colour, every higher score is in band b or above |
| Scoreboard.TrendArrow | src/components/Leaderboard.tsx:202 | the arrow rises if and only if the trend string starts with '+' (an empty or unsigned trend falls) |
| Scoreboard.TrendColor | src/components/Leaderboard.tsx:317-318 | the trend text is green exactly when the arrow rises and red exactly when it falls |
| Scoreboard.Podium | src/components/Leaderboard.tsx:176-188 | the podium is the first min(3, n) departments in list order, entry i shown at position i + 1 |
| Scoreboard.ResolutionRate | src/components/Leaderboard.tsx:208 | the rate is undefined exactly when the total is zero; otherwise it is 100 * resolved / total rounded half up |
| Scoreboard.ResolutionRateAtMost100 | src/components/Leaderboard.tsx:270 | with resolved <= total and total > 0 the rate is defined and at most 100 |
| Scoreboard.MockTableWellFormed | src/components/Leaderboard.tsx:14-111 | in the mock table rank is list position + 1, the score strictly falls with rank, and 0 < total and resolved <= total on every row |
| Scoreboard.PodiumShowsRanks | src/components/Leaderboard.tsx:176-188 | when ranks are list positions, each podium position equals that department's rank |
| Scoreboard.BandsFallDownTheTable | src/components/Leaderboard.tsx:256-259 | when scores fall down the table, no row is in a higher band than a row above it |
| Scoreboard.RatesDefinedAndBounded | src/components/Leaderboard.tsx:268-271 | for a table with consistent counts, every row's rate is defined and at most 100 |
| Scoreboard.Leaderboard.constructor | src/components/Leaderboard.tsx:10-11 | the first render has filter "month" and no departments |
| Scoreboard.Leaderboard.LoadDepartments | src/components/Leaderboard.tsx:113-115 | the effect sets the departments to the mock table |
| Scoreboard.Leaderboard.SetTimeFilter | src/components/Leaderboard.tsx:113-115 | a new filter value reloads the same mock table, whatever the value; an unchanged value leaves the departments as they were |

## Left out

- The browser's `type="email"` address check on the contact field: which strings it accepts is not modelled; its verdict is the `emailAccepted` input of `SubmitClicked`.
- `getCurrentLocation`'s call into the browser's geolocation service and its `toFixed(6)` formatting of floating-point coordinates: the answer is a parameter (`GeoOutcome`), and the formatted string is taken as given.
- `Math.random` ids and `URL.createObjectURL`: they are supplied per file as opaque inputs (`ObjectRef`), and the model does not assume the ids are unique.
- The 1500 ms and 2000 ms delays: each timer is a begin step and a separate completion step, and any interleaving of completions is allowed. The model therefore also allows completion orders the fixed delays rule out: an analysis started before a submission always completes before it in the page, but not necessarily in the model.
- Toast rendering and navigation: they are entries in the `effects` log.
- `handleInputChange` takes any string key, and an unknown key would add a new property to the draft. All call sites pass one of the seven keys, so the key is the enumeration `Field`.
- The "max 5 files, 10MB each" text: it is display copy only and nothing enforces it.
- Scoreboard.ResolutionRate: a zero total is one `None`, where the page shows "NaN%" when nothing is resolved and "Infinity%" otherwise.
- Scoreboard.ResolutionRate: models the rounding on exact rationals, not on floating-point division, so a float result that lands just below a .5 boundary is not captured.
- React's render cycle and JSX: only the state the handlers change is modelled. The Leaderboard effect's first run after mount is `LoadDepartments`.
- Scoreboard.Leaderboard: nothing forces the mount effect to run. A caller may construct a `Leaderboard` and never call `LoadDepartments`, leaving `departments` empty, a state the mounted page never shows.
- `src/pages/Index.tsx`, `src/components/RealtimeStats.tsx`, `src/components/MapDashboard.tsx` and `src/components/ui/chart.tsx`: they are random perturbation, rendering and fixed lookup tables, with nothing behavioural to prove.
