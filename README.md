# Video Clip: a verified model of the stock-clip pipeline and its pages

The Video Clip application lets a signed-in user upload a video, transcribe it,
detect keywords in the transcript and fetch matching stock clips. The user can
then save those clips as a ZIP archive on Dropbox. The heart of the front end is
the stock-clip page. It runs a three-stage chain from one button:
- transcription, polled every ten seconds until the job reports a terminal state;
- keyword detection;
- the stock-clip fetch.

The page also has an optional save with its own progress bar. When it opens it
reconciles with stored results, and it shows a status beside each stage. Around
it sit:
- the settings dialog, which starts and polls a transcription on its own;
- the dashboard's Dropbox link rewriting;
- the two admin tables;
- the plan page and the checkout view with its Stripe webhook;
- the contact form, the three sign-in and sign-up forms;
- the route guards of the application shell and the shared HTTP client with its
  token refresh;
- the landing page's two timers and the page Stripe returns to.

The model keeps each of these in its own module:
- **Event handlers become functions.** Each handler, server answer and timer
  callback becomes a function from the page state to the next state and the
  request it sends. Server answers are arguments. A pending `setTimeout` or
  `setInterval` is an explicit part of the state.
- **Components become classes.** A component whose hooks change step by step
  becomes a class with those fields. Each method states its new state through
  the corresponding function.
- **Backend tables are classes too.** The checkout view and the webhook work on
  the payment table, a class whose rows the methods update in place.
- **Properties over runs.** These are stated over sequences of events (`Runs`,
  `Requests`, `Final`): stage order, no cancellation, completion only through a
  successful fetch, and one transcription job at a time.
- **JavaScript's semantics are spelled out.**
  - Truthiness is `Text.Truthy`; `a || b || c` is `Text.FirstTruthy`.
  - `length` counts UTF-16 code units (`Text.Utf16Length`); `trim`'s whitespace
    is `Text.IsSpace`.
  - `encodeURIComponent` is UTF-8 percent-encoding with upper-case hexadecimal
    digits.
  - `${undefined}` renders as `"undefined"`.
  - `localStorage` is the class `Storage.LocalStorage` over a map.

The code does the following, which a reader may not expect; the model follows the code:
- A failed status query on the stock-clip page stops polling; it does not retry.
- `isCancelled` is reset at every start and set by no handler, so its checks
  never fire (`StockClips.NeverCancelled`).
- An empty keyword list issues no clip fetch and ends the run without completing
  the process.
- The route table (`frontend/src/routes.js`) lists only the five user pages. The
  sign-in, sign-up and admin routes are not in it.
- The admin sign-in's "remember me" switch is toggled but read by nothing.
- A successful user sign-in leaves `loading` set while the page navigates away.
- A refresh answer without `access` or `refresh` stores the text `"undefined"`.

## Model

| member | source | states |
|---|---|---|
| TranscriptionPoll.Classify | frontend/src/layouts/dashboard/components/GetStockClips.jsx:131-139 | a label is "done" exactly when it is `automatic_done` and "failed" exactly when it is `error` or `failed`; every other label, an absent one included, keeps the poll loop going (the settings dialog uses the same three-way reading) |
| AdvancedSettings.Opened | frontend/src/layouts/dashboard/components/AdvancedSetting.jsx:15-17 | the dialog opens not loading, with no status, and nothing pending |
| AdvancedSettings.Transcribe | frontend/src/layouts/dashboard/components/AdvancedSetting.jsx:20-28 | without a video nothing changes and nothing is sent; with one, exactly one start request for the video's id goes out, loading starts, and the status reads "Starting transcription..." |
| AdvancedSettings.StartReplied | frontend/src/layouts/dashboard/components/AdvancedSetting.jsx:28-62 | a truthy job id shows "Transcription started…" and sends the first status query of that job with attempt 0; a failed start or a missing id ends loading with the start-failure text and sends nothing |
| AdvancedSettings.StatusReplied | frontend/src/layouts/dashboard/components/AdvancedSetting.jsx:36-54 | a failed query ends polling with the warning text; `automatic_done`, `error` and `failed` end loading with their texts; any other label shows "Attempt n+1: label", keeps loading and schedules a re-poll of the same job with the next attempt number |
| AdvancedSettings.PollTimerFired | frontend/src/layouts/dashboard/components/AdvancedSetting.jsx:48 | the re-poll sends a query for the same job and keeps the already incremented attempt |
| AdvancedSettings.Apply | frontend/src/layouts/dashboard/components/AdvancedSetting.jsx:35-55 | every event keeps `loading` set exactly while something is pending; the attempt counter of a job grows by exactly one per running answer; a start request is sent exactly when the dialog leaves idle |
| AdvancedSettings.OneJobAtATime | frontend/src/layouts/dashboard/components/AdvancedSetting.jsx:107 | along any run, the start requests never outnumber the finished jobs plus one: the button's `disabled={loading}` keeps one job at a time |
| AdvancedSettings.SettingsDialog.constructor | frontend/src/layouts/dashboard/components/AdvancedSetting.jsx:15-17 | the component's fields start as `Opened` says |
| AdvancedSettings.SettingsDialog.HandleTranscribe | frontend/src/layouts/dashboard/components/AdvancedSetting.jsx:20-28 | the fields become the state `Transcribe` gives, and the method returns its request |
| AdvancedSettings.SettingsDialog.OnStartReply | frontend/src/layouts/dashboard/components/AdvancedSetting.jsx:28-62 | the fields become the state `StartReplied` gives, and the method returns its request |
| AdvancedSettings.SettingsDialog.OnStatusReply | frontend/src/layouts/dashboard/components/AdvancedSetting.jsx:36-54 | the fields become the state `StatusReplied` gives |
| AdvancedSettings.SettingsDialog.OnPollTimer | frontend/src/layouts/dashboard/components/AdvancedSetting.jsx:48 | the fields become the state `PollTimerFired` gives, and the method returns its query |
| StockClips.Initial | frontend/src/layouts/dashboard/components/GetStockClips.jsx:37-51 | the first render satisfies the page invariant, with nothing in flight, not cancelled and the process not complete |
| StockClips.PrimaryCaption | frontend/src/layouts/dashboard/components/GetStockClips.jsx:817-905 | the primary button reads "Processing..." exactly when it is disabled (any stage loading); when enabled it reads "Restart" exactly when the process is complete, and "Start Process" otherwise |
| StockClips.SaveOffered | frontend/src/layouts/dashboard/components/GetStockClips.jsx:840 | the Save button is offered exactly when the rendered save area is the Save button |
| StockClips.ProgressBarShown | frontend/src/layouts/dashboard/components/GetStockClips.jsx:757 | on a page keeping the save invariant the bar shows only while a save is in flight or its reset is pending |
| StockClips.SaveAreaOf | frontend/src/layouts/dashboard/components/GetStockClips.jsx:840-880 | a complete process without a link shows Save, enabled exactly when step three is not loading and there are clips; with a link it shows Download pointing at that link |
| StockClips.StepStatusOf | frontend/src/layouts/dashboard/components/GetStockClips.jsx:238-260 | for each step: processing exactly while its stage loads; otherwise complete on a ✅ in its line, error on a ❌ without ✅; steps two and three are ready exactly when unmarked and the previous line has a ✅; anything else, any other step number included, is pending |
| StockClips.PollErrorShowsPending | frontend/src/layouts/dashboard/components/GetStockClips.jsx:141-146 | the warning text of a failed status query carries neither mark, so step one shows as pending rather than failed |
| StockClips.Reconcile | frontend/src/layouts/dashboard/components/GetStockClips.jsx:59-97 | without a video id nothing is sent or changed. Otherwise one list request for that id; only the clips, the completion flag, the link and the step-three line change. A failure clears clips and link with the load-failure text. Stored clips mark the process complete exactly when there are some. The link is set exactly when the stored one is truthy |
| StockClips.ReconcileIdempotent | frontend/src/layouts/dashboard/components/GetStockClips.jsx:59-97 | reconciling again with the same stored answer changes nothing further |
| StockClips.StoredResultsCompleteStepThree | frontend/src/layouts/dashboard/components/GetStockClips.jsx:68-79 | opening the page on stored non-empty clips completes step three with those clips, sending only the list request |
| StockClips.SelectRatio | frontend/src/layouts/dashboard/components/GetStockClips.jsx:317-320 | choosing a ratio sets it and clears the ratio error, and nothing else changes |
| StockClips.Start | frontend/src/layouts/dashboard/components/GetStockClips.jsx:99-121 | every click clears the clips, completion, link and the two later status lines (not the keywords or the first line). Without a video it stops there; without a ratio it flags the ratio error. Otherwise it resets the cancel flag, starts step one and sends one start request, remembering the ratio for the later stages |
| StockClips.StartReplied | frontend/src/layouts/dashboard/components/GetStockClips.jsx:117-157 | a truthy job id on an uncancelled run shows "Transcription started…" and sends the first query of that job; a failure shows the start-failure text and ends step one; a cancelled run sends nothing and leaves step one's loading flag as it was |
| StockClips.StatusReplied | frontend/src/layouts/dashboard/components/GetStockClips.jsx:126-146 | a failed query stops polling with no retry (uncancelled: warning text, step one pending); `automatic_done` ends step one and starts keyword detection for the video; `error`/`failed` end step one as failed; any other label shows the attempt text and schedules the next poll; clips and step three are untouched |
| StockClips.PollTimerFired | frontend/src/layouts/dashboard/components/GetStockClips.jsx:123-127 | a cancelled run stops at the timer; otherwise the same job is queried with the incremented attempt |
| StockClips.KeywordsReplied | frontend/src/layouts/dashboard/components/GetStockClips.jsx:160-180 | step two stops loading and step one and the clips stay as they were. A failure shows the detection-failure text and ends the run. A list is stored with its count. A non-empty list starts the clip fetch with the run's ratio; an empty one sends nothing and ends the run incomplete |
| StockClips.ClipsReplied | frontend/src/layouts/dashboard/components/GetStockClips.jsx:179-202 | the run ends and steps one and two and the keywords are kept; a failure shows the fetch-failure text and does not complete; a success stores the clips, shows their count and completes the process |
| StockClips.Save | frontend/src/layouts/dashboard/components/GetStockClips.jsx:204-216 | with no video or no clips nothing happens; otherwise the clips are sent for the video, step three loads with the saving text and the progress interval starts from 0 |
| StockClips.SaveTick | frontend/src/layouts/dashboard/components/GetStockClips.jsx:212-216 | each tick adds 10 to the bar, never past 90, and the interval keeps running exactly while the bar is below 90 |
| StockClips.SaveReplied | frontend/src/layouts/dashboard/components/GetStockClips.jsx:218-235 | every answer stops the interval, ends loading and schedules one reset of the bar; success shows 100 and the success text and keeps the link exactly when it is truthy; failure shows the failure text; clips and completion stay |
| StockClips.ProgressReset | frontend/src/layouts/dashboard/components/GetStockClips.jsx:234 | the reset hides the bar and changes nothing but the progress and the pending resets |
| StockClips.SaveRepliedAsWritten | frontend/src/layouts/dashboard/components/GetStockClips.jsx:218-235 | as written, success is `SaveReplied`, while failure leaves the interval as it was, still ticking |
| StockClips.FailedSaveLeavesBarAsWritten | frontend/src/layouts/dashboard/components/GetStockClips.jsx:212-235 | as written, a failed save can leave the bar shown at 90 for good after its reset, with no save in flight and no reset pending |
| StockClips.FailedSaveHidesBar | frontend/src/layouts/dashboard/components/GetStockClips.jsx:212-235 | with the interval cleared on both paths, a failed save followed by its reset leaves the bar hidden, no tick pending and no save in flight |
| StockClips.Apply | frontend/src/layouts/dashboard/components/GetStockClips.jsx:99-236 | every handler keeps the page invariant: step two loads exactly while detection is in flight; step three loads exactly while a fetch or a save is; while the chain runs nothing is complete or saving; the save bar stays within its bounds |
| StockClips.StepKeepsUncancelled | frontend/src/layouts/dashboard/components/GetStockClips.jsx:113 | no event sets the cancel flag |
| StockClips.StepTriggers | frontend/src/layouts/dashboard/components/GetStockClips.jsx:131-134 | keyword detection is sent only on an `automatic_done` answer to a status query, and a clip fetch only on a non-empty keyword answer |
| StockClips.StepCompletes | frontend/src/layouts/dashboard/components/GetStockClips.jsx:196 | only a successful clip-fetch answer turns the process complete |
| StockClips.StepOrder | frontend/src/layouts/dashboard/components/GetStockClips.jsx:117-191 | a step sends a stage's request only from within that stage, and enters a stage only by sending the earlier stage's request |
| StockClips.StageOrderFor | frontend/src/layouts/dashboard/components/GetStockClips.jsx:117-191 | along any run, every request of a stage follows a request of the stage before it, unless the run began inside that stage |
| StockClips.StageOrder | frontend/src/layouts/dashboard/components/GetStockClips.jsx:99-202 | along any run: each status query follows a start request, each detection a status query, each clip fetch a detection, unless the run began with the earlier stage in flight |
| StockClips.StageOrderFromIdle | frontend/src/layouts/dashboard/components/GetStockClips.jsx:99-202 | from an idle page the three stages' requests always go out in order |
| StockClips.NeverCancelled | frontend/src/layouts/dashboard/components/GetStockClips.jsx:39 | every run from an uncancelled page stays uncancelled, so the cancellation checks never fire |
| StockClips.CompletionNeedsFetch | frontend/src/layouts/dashboard/components/GetStockClips.jsx:196 | a run that makes the process complete contains a successful clip-fetch answer |
| StockClips.FullRun | frontend/src/layouts/dashboard/components/GetStockClips.jsx:99-202 | a run from a fresh page (queued, then done, two keywords, eight clips) is possible, sends start, two queries, detection and fetch in that order, and ends with the eight clips and all three steps complete |
| StockClips.GetStockClips.constructor | frontend/src/layouts/dashboard/components/GetStockClips.jsx:37-51 | the component's fields start as `Initial` says |
| StockClips.GetStockClips.FetchExistingClips | frontend/src/layouts/dashboard/components/GetStockClips.jsx:59-97 | the fields become the state `Reconcile` gives, and the method returns its request |
| StockClips.GetStockClips.SelectAspectRatio | frontend/src/layouts/dashboard/components/GetStockClips.jsx:317-320 | the fields become the state `SelectRatio` gives |
| StockClips.GetStockClips.HandleTranscribe | frontend/src/layouts/dashboard/components/GetStockClips.jsx:99-121 | the fields become the state `Start` gives, and the method returns its request |
| StockClips.GetStockClips.OnStartReply | frontend/src/layouts/dashboard/components/GetStockClips.jsx:117-157 | the fields become the state `StartReplied` gives, and the method returns its request |
| StockClips.GetStockClips.OnStatusReply | frontend/src/layouts/dashboard/components/GetStockClips.jsx:126-146 | the fields become the state `StatusReplied` gives, and the method returns its request |
| StockClips.GetStockClips.OnPollTimer | frontend/src/layouts/dashboard/components/GetStockClips.jsx:123-127 | the fields become the state `PollTimerFired` gives, and the method returns its request |
| StockClips.GetStockClips.OnKeywordsReply | frontend/src/layouts/dashboard/components/GetStockClips.jsx:160-180 | the fields become the state `KeywordsReplied` gives, and the method returns its request |
| StockClips.GetStockClips.OnClipsReply | frontend/src/layouts/dashboard/components/GetStockClips.jsx:179-202 | the fields become the state `ClipsReplied` gives |
| StockClips.GetStockClips.HandleSave | frontend/src/layouts/dashboard/components/GetStockClips.jsx:204-216 | the fields become the state `Save` gives, and the method returns its request |
| StockClips.GetStockClips.OnSaveTick | frontend/src/layouts/dashboard/components/GetStockClips.jsx:212-216 | the fields become the state `SaveTick` gives |
| StockClips.GetStockClips.OnSaveReply | frontend/src/layouts/dashboard/components/GetStockClips.jsx:218-235 | the fields become the state the corrected `SaveReplied` gives, with the interval cleared on both paths |
| StockClips.GetStockClips.OnProgressReset | frontend/src/layouts/dashboard/components/GetStockClips.jsx:234 | the fields become the state `ProgressReset` gives |
| DropboxLinks.FirstDl | frontend/src/layouts/dashboard/index.js:40 | the first position of a `?dl=<digit>` match, or none when there is no match |
| DropboxLinks.ParamIsMatch | frontend/src/layouts/dashboard/index.js:39-40 | a link containing `?dl=0` or `?dl=1` has a match for the replacement |
| DropboxLinks.DropboxLink | frontend/src/layouts/dashboard/index.js:37-43 | a falsy link gives "". A link with `?dl=0`/`?dl=1` keeps its length, and its first `?dl=<digit>` becomes `?dl=1` for a download or `?dl=0` otherwise. Any other link gets that parameter appended. A truthy link's result always contains the parameter |
| DropboxLinks.WatchTarget | frontend/src/layouts/dashboard/index.js:49-52 | Watch opens the preview form of the link, which contains `?dl=0` |
| DropboxLinks.RewriteAt | frontend/src/layouts/dashboard/index.js:39-41 | a link with a parameter is rewritten at its first match, whichever match that is |
| DropboxLinks.RewriteIdempotent | frontend/src/layouts/dashboard/index.js:37-43 | rewriting a link that already has `?dl=0` or `?dl=1` a second time changes nothing |
| DropboxLinks.OtherDigitRewrittenTwice | frontend/src/layouts/dashboard/index.js:39-42 | a link whose first match has another digit gets the parameter appended, and a second rewrite replaces that earlier match instead, so the rewrite is not idempotent there |
| DropboxLinks.OtherDigitExample | frontend/src/layouts/dashboard/index.js:39-42 | `a?dl=5` is such a link |
| AdminTables.FormatDate | frontend/src/layouts/view-uploads/index.js:51-52 | a missing or empty date shows a dash, any other date its localized form (the same function serves the payment table) |
| AdminTables.CleanLink | frontend/src/layouts/view-uploads/index.js:35-38 | a falsy link stays as it is; a truthy one loses its last five characters exactly when it ends in `?dl=1` or `&dl=1` in any letter case, and is otherwise unchanged |
| AdminTables.CleanRemovesOneSuffix | frontend/src/layouts/view-uploads/index.js:37 | any link followed by `?dl=1` or `&dl=1` in any letter case is cleaned back to exactly that link, so only one trailing parameter goes |
| AdminTables.CleanRemovesOneSuffixExample | frontend/src/layouts/view-uploads/index.js:37 | `x?dl=1&DL=1` becomes `x?dl=1` |
| AdminTables.CleanUploads | frontend/src/layouts/view-uploads/index.js:34-39 | the cleaned list has the same records in the same order, every other field unchanged |
| AdminTables.UploadsFetched | frontend/src/layouts/view-uploads/index.js:31-46 | loading ends either way: a failure leaves the empty list, a success shows the cleaned list |
| AdminTables.VisibleRows | frontend/src/layouts/payment-status/index.js:30-32 | the visible rows are the answer's rows in order, minus exactly the seeded admin (name `admin` and address `admin@example.com`), each other row as often as in the answer |
| AdminTables.PaymentsFetched | frontend/src/layouts/payment-status/index.js:27-38 | loading ends either way: a failure leaves the empty list, a success shows the visible rows |
| AdminTables.HalfMatchKept | frontend/src/layouts/payment-status/index.js:30-32 | a row matching only the admin name or only the admin address stays visible |
| AdminTables.StatusColor | frontend/src/layouts/payment-status/index.js:43-53 | `paid`, `pending` and `failed`, ignoring case, give success, warning and error, each in both directions; an absent or other status gives default |
| AdminTables.StatusColorIgnoresCase | frontend/src/layouts/payment-status/index.js:44 | the colour depends on the status only up to letter case |
| PaymentRecords.NewPayment | backend/payments/models.py:12-17 | a created record has the given user, plan, amount and session id, and the default status `pending` |
| PaymentRecords.WithStatus | backend/payments/webhooks.py:68-69 | the update sets the status of exactly the records of the session, in place, and leaves every other record and the count unchanged |
| PaymentRecords.WithStatusIdempotent | backend/payments/webhooks.py:68-69 | setting the same status twice is setting it once |
| PaymentRecords.PaymentTable.constructor | backend/payments/models.py:4-19 | the table starts with the given rows |
| PaymentRecords.PaymentTable.Create | backend/payments/views.py:44-49 | a create appends exactly one record |
| PaymentRecords.PaymentTable.UpdateStatus | backend/payments/webhooks.py:68-69 | the rows become `WithStatus` of the old rows |
| CheckoutView.PlanType | backend/payments/views.py:16 | the plan type is the lower-cased title, "" when the title is absent |
| CheckoutView.PayAsYouGoDollars | backend/payments/views.py:24 | one dollar per minute with a five-dollar minimum: the larger of the two |
| CheckoutView.Checkout | backend/payments/views.py:13-86 | success and a created record go together, the record being pending for the Stripe session. Pay-as-you-go asks for a one-time session of 100 × max(minutes, 5) cents and records `pay_per_minute`. Monthly and yearly ask for a subscription to their configured price and record 49 or 500. Any other plan gives 400 "Invalid plan type". An unset `FRONTEND_URL` or a Stripe error gives 500 with no record |
| CheckoutView.PlanTitleIgnoresCase | backend/payments/views.py:16 | the plan title is matched ignoring letter case |
| CheckoutView.NoMinutesChargesMinimum | backend/payments/views.py:17-24 | with no minutes the pay-as-you-go session charges the 500-cent minimum and records five dollars |
| CheckoutView.CreateCheckoutSession | backend/payments/views.py:13-86 | answers as `Checkout` and inserts exactly the record it names, nothing else |
| Webhooks.Dispatch | backend/payments/webhooks.py:40-55 | each of the three handled event types selects its own handler, in both directions |
| Webhooks.AfterEvent | backend/payments/webhooks.py:40-86 | a completed checkout marks its session's records paid; the invoice, cancellation and unhandled events leave the table alone |
| Webhooks.Webhook | backend/payments/webhooks.py:23-57 | an unverified event answers 400 and changes nothing; a verified one answers 200 with the table `AfterEvent` gives |
| Webhooks.CheckoutMarksSessionPaid | backend/payments/webhooks.py:60-71 | a completed checkout marks exactly the records of its session paid and leaves the others as they were |
| Webhooks.RedeliveryChangesNothing | backend/payments/webhooks.py:40-71 | a second delivery of the same event changes nothing further |
| Webhooks.WebhookAsWritten | backend/payments/webhooks.py:68-71 | as written, a completed checkout answers 500 and updates nothing; every other event is answered as `Webhook` answers it |
| Webhooks.CheckoutLeavesPendingAsWritten | backend/payments/webhooks.py:68-71 | as written a pending payment stays pending on its checkout event; with the status update alone it becomes paid and the answer is 200 |
| Webhooks.StripeWebhook | backend/payments/webhooks.py:17-57 | the endpoint answers and updates the table in place as `Webhook` says |
| Subscription.PlanRoutes | frontend/src/layouts/subscription/index.js:8-57 | four plans with distinct titles; the free trial leads to the upload page, every paid plan to checkout |
| Subscription.VideoLength | frontend/src/layouts/subscription/index.js:62 | an absent length counts as 0 |
| Subscription.EstimateText | frontend/src/layouts/subscription/index.js:113 | the estimate line starts with `Estimated: $` and ends with ` min Video` |
| Subscription.Estimate | frontend/src/layouts/subscription/index.js:111-115 | an estimate appears exactly for pay-as-you-go with a positive length, and is the larger of the length and five dollars |
| Subscription.EstimateIsPayAsYouGoCharge | frontend/src/layouts/subscription/index.js:113 | the estimate equals what the checkout view charges for the same minutes |
| Subscription.EncodeURIComponent | frontend/src/layouts/subscription/index.js:65 | the encoding is at least as long as the text and at most twelve times as long |
| Subscription.LengthKeptIffUnreserved | frontend/src/layouts/subscription/index.js:65 | the encoding is exactly as long as the text precisely when every character is unreserved |
| Subscription.EncodeAppend | frontend/src/layouts/subscription/index.js:65 | `encodeURIComponent` works character by character |
| Subscription.UnreservedUnchanged | frontend/src/layouts/subscription/index.js:65 | text of unreserved characters is its own encoding |
| Subscription.EncodedOutput | frontend/src/layouts/subscription/index.js:65 | an encoding contains only unreserved characters and `%` with two upper-case hexadecimal digits |
| Subscription.NoSeparators | frontend/src/layouts/subscription/index.js:65 | so an encoded title contains no `&`, `=`, `?`, `#` or space |
| Subscription.DecodeEncode | frontend/src/layouts/subscription/index.js:65 | decoding the percent-escapes of an encoded title gives back the title's UTF-8 bytes |
| Subscription.SelectPlan | frontend/src/layouts/subscription/index.js:64-68 | the target starts with the plan's route and carries the plan as navigation state |
| Subscription.SelectPlanQuery | frontend/src/layouts/subscription/index.js:65 | the query splits back into exactly `title=<encoded title>` and `minutes=<length>` |
| Subscription.FreeTrialTitleEncoded | frontend/src/layouts/subscription/index.js:10 | the free trial's title travels as `Free%20Trial` |
| Subscription.PaidTitlesUnescaped | frontend/src/layouts/subscription/index.js:24-48 | the three paid titles travel unescaped |
| EmailPatterns.ContactEmail | frontend/src/layouts/profile/index.js:112 | an accepted address has at least five characters, contains `@` and holds no whitespace anywhere |
| EmailPatterns.LooseEmail | frontend/src/layouts/authentication/sign-in/index.js:50 | an accepted string has at least five characters and contains both `@` and `.` (the same pattern is at sign-up/index.js:32 and admin-sign-in/index.js:30) |
| EmailPatterns.ContactImpliesLoose | frontend/src/layouts/profile/index.js:112 | every address the contact form accepts passes the sign-in forms' pattern |
| EmailPatterns.ContactEmailUnpadded | frontend/src/layouts/profile/index.js:112 | an address the contact pattern accepts has no surrounding whitespace |
| EmailPatterns.LooseAcceptsSurroundingText | frontend/src/layouts/authentication/sign-in/index.js:50 | the unanchored pattern accepts `my a@b.c`, which the contact pattern refuses |
| ContactForm.FieldError | frontend/src/layouts/profile/index.js:106-124 | a blank field always has an error, every error message is non-empty, and no error on the address or message means the pattern matches or the trimmed message has at least ten UTF-16 units |
| ContactForm.Put | frontend/src/layouts/profile/index.js:131 | editing a field sets that field and keeps the other three |
| ContactForm.Validate | frontend/src/layouts/profile/index.js:103-128 | a field has an error exactly when its check fails, with that check's message |
| ContactForm.ValidateAccepts | frontend/src/layouts/profile/index.js:103-128 | there are no errors exactly when name and subject are not blank, the address matches the contact pattern, and the trimmed message has at least ten UTF-16 code units |
| ContactForm.SentEmailIsChecked | frontend/src/layouts/profile/index.js:110-157 | the trimmed address in the request is the address that was checked |
| ContactForm.FailureText | frontend/src/layouts/profile/index.js:170-178 | a reply without a message shows its `error`, a failed request its `error` then its `message`, else the fallback; the banner is never empty |
| ContactForm.Contact.constructor | frontend/src/layouts/profile/index.js:59-68 | the form starts blank, with no errors or banners and not loading |
| ContactForm.Contact.HandleChange | frontend/src/layouts/profile/index.js:130-141 | editing sets the field, removes that field's error only, and clears both banners |
| ContactForm.Contact.HandleSubmit | frontend/src/layouts/profile/index.js:143-160 | errors become `Validate` of the form; the request, with all four fields trimmed, is sent exactly when the form is acceptable, and then loading starts |
| ContactForm.Contact.OnReply | frontend/src/layouts/profile/index.js:162-181 | loading ends; a reply with a message shows success and blanks the form; anything else shows `FailureText` and keeps the form |
| AuthForms.EmailError | frontend/src/layouts/authentication/sign-in/index.js:48-52 | an empty address is required, a non-empty one is invalid exactly when the pattern `\S+@\S+\.\S+` finds no match |
| AuthForms.PasswordError | frontend/src/layouts/authentication/sign-in/index.js:54-58 | an empty password is required, a non-empty one too short exactly when it has fewer than six UTF-16 code units |
| AuthForms.LoginErrors | frontend/src/layouts/authentication/sign-in/index.js:45-62 | the errors are exactly the e-mail and password messages that apply |
| AuthForms.LoginErrorsAccept | frontend/src/layouts/authentication/sign-in/index.js:45-62 | validation passes exactly for an address matching the pattern and a password of at least six code units |
| SignIn.InitialEmail | frontend/src/layouts/authentication/sign-in/index.js:26-31 | the address comes from the navigation state, then the query string, then the remembered address |
| SignIn.InitialPassword | frontend/src/layouts/authentication/sign-in/index.js:32 | the password comes from the navigation state, then the query string |
| SignIn.InitialValuesFirstTruthy | frontend/src/layouts/authentication/sign-in/index.js:31-32 | both initial values are the first truthy candidate of their chain |
| SignIn.FailureText | frontend/src/layouts/authentication/sign-in/index.js:100-104 | the banner prefers `detail`, is never empty |
| SignIn.FailureTextFirstTruthy | frontend/src/layouts/authentication/sign-in/index.js:100-104 | the banner is the first truthy of `detail`, `error`, `message` and the fallback |
| SignIn.SignInPage.constructor | frontend/src/layouts/authentication/sign-in/index.js:31-36 | the fields take the initial values, and remember-me is on exactly when an address is remembered |
| SignIn.SignInPage.ToggleRememberMe | frontend/src/layouts/authentication/sign-in/index.js:112 | the switch flips and nothing else changes |
| SignIn.SignInPage.HandleSignin | frontend/src/layouts/authentication/sign-in/index.js:64-79 | errors become `LoginErrors`; the credentials are sent exactly when acceptable, and then loading starts and the submitted address and switch are recorded, as the handler's closure captures them |
| SignIn.SignInPage.OnReply | frontend/src/layouts/authentication/sign-in/index.js:81-107 | with both tokens, both are stored, the submitted address is remembered or forgotten as the switch was when the form was submitted, and the page goes to the dashboard; otherwise nothing is stored, loading ends and the banner shows the invalid-credentials text or `FailureText` |
| SignIn.SwitchFlippedAfterSubmit | frontend/src/layouts/authentication/sign-in/index.js:87-91 | flipping the switch and editing the address while the request is out (neither is disabled while loading) change nothing: the submitted address is remembered exactly when the switch was on at submit |
| SignUp.ConfirmError | frontend/src/layouts/authentication/sign-up/index.js:37-38 | an empty confirmation is required, a non-empty one wrong exactly when it differs from the password |
| SignUp.SignUpErrors | frontend/src/layouts/authentication/sign-up/index.js:26-42 | each of the four fields has an error exactly when its check fails, with its message; the name counts as blank when it is all whitespace |
| SignUp.SignUpErrorsAccept | frontend/src/layouts/authentication/sign-up/index.js:26-42 | validation passes exactly for a non-blank name, acceptable credentials and a matching confirmation |
| SignUp.AfterReply | frontend/src/layouts/authentication/sign-up/index.js:56-67 | an ok response leads to the sign-in page with the address and password; a refusal alerts with the body; an unreadable body or a network failure alerts with the generic text |
| SignUp.SignInReceivesCredentials | frontend/src/layouts/authentication/sign-up/index.js:61 | the sign-in page opened after a successful sign-up starts with the registered address and password |
| SignUp.SignUpPage.constructor | frontend/src/layouts/authentication/sign-up/index.js:18-22 | all four fields start empty, with no errors |
| SignUp.SignUpPage.HandleSignup | frontend/src/layouts/authentication/sign-up/index.js:44-54 | errors become `SignUpErrors`; the name, address and password are sent exactly when the form is acceptable |
| AdminSignIn.AdminSignInPage.constructor | frontend/src/layouts/authentication/admin-sign-in/index.js:19-23 | the values come from the navigation state only, and remember-me starts off |
| AdminSignIn.AdminSignInPage.ToggleRememberMe | frontend/src/layouts/authentication/admin-sign-in/index.js:70 | the switch flips and nothing else changes |
| AdminSignIn.AdminSignInPage.HandleSignin | frontend/src/layouts/authentication/admin-sign-in/index.js:44-54 | errors become `LoginErrors`; the credentials are sent exactly when acceptable |
| AdminSignIn.AdminSignInPage.OnReply | frontend/src/layouts/authentication/admin-sign-in/index.js:56-67 | an `access` token is stored as the admin token and the admin dashboard opens; anything else stores nothing and shows the invalid-credentials text |
| AppRoutes.PrivateRoute | frontend/src/App.js:16-20 | the page shows exactly when an access token is stored, else a redirect to sign-in |
| AppRoutes.PublicRoute | frontend/src/App.js:23-30 | a user token redirects to the dashboard, else an admin token to the admin dashboard; the page shows exactly when neither is stored |
| AppRoutes.AdminRoute | frontend/src/App.js:33-38 | the page shows exactly when an admin token is stored, else a redirect to the admin sign-in |
| AppRoutes.PrivateAndPublicExclusive | frontend/src/App.js:16-38 | no stored state shows both a signed-in page and a visitors' page |
| AppRoutes.TokenOpensPrivate | frontend/src/App.js:16-30 | storing a non-empty access token opens the guarded pages and closes the visitors' pages |
| AppRoutes.GuardOf | frontend/src/App.js:87-114 | the guard is the first flag that applies, in the order admin, protected, public-only |
| AppRoutes.GetRoutes | frontend/src/App.js:83-118 | one output per table entry, in order |
| AppRoutes.RenderEntry | frontend/src/App.js:85-117 | a collapse group yields its entries, a non-empty route one guarded route, anything else nothing |
| AppRoutes.RoutesPartition | frontend/src/App.js:79-80 | the user and admin lists keep the table's order, hold only their side's entries, and together hold every entry exactly once |
| AppRoutes.Sidenavs | frontend/src/App.js:124-144 | the dashboard layout shows one side navigation: the admin one exactly on `/admin` paths, the user one otherwise; other layouts show none |
| AppRoutes.TableRoutes | frontend/src/routes.js:8-50 | with the repository's table, the dashboard is the only guarded page |
| AppRoutes.TableSides | frontend/src/routes.js:8-50 | the admin side navigation is empty and the user one lists all five pages |
| ApiClient.BaseUrl | frontend/src/libs/axios.js:4-13 | an unset or empty variable gives ""; otherwise the value without one trailing slash |
| ApiClient.OneSlashRemoved | frontend/src/libs/axios.js:12 | only one trailing slash goes |
| ApiClient.RefreshUrl | frontend/src/libs/axios.js:53-54 | the refresh endpoint is under the base, or the relative path when the base is "" |
| ApiClient.RefreshUrlUniform | frontend/src/libs/axios.js:54 | both branches give the base followed by the path |
| ApiClient.Authorized | frontend/src/libs/axios.js:25-28 | a stored access token sets the bearer header; no other header changes |
| ApiClient.InterceptRequest | frontend/src/libs/axios.js:23-32 | the request's headers become `Authorized` of the old headers and the stored token |
| ApiClient.OnErrorAction | frontend/src/libs/axios.js:41-50 | only a first 401 is acted on; it refreshes exactly when a refresh token is stored, with that token and the refresh URL, and signs out otherwise |
| ApiClient.OnError | frontend/src/libs/axios.js:37-79 | the decision is `OnErrorAction`; a 401 marks the request retried; signing out removes exactly the two tokens, and otherwise storage is unchanged |
| ApiClient.SignOutTokens | frontend/src/libs/axios.js:72-73 | exactly the access and refresh tokens are removed |
| ApiClient.OnRefreshReply | frontend/src/libs/axios.js:61-76 | a refresh answer stores both tokens, absent ones as `"undefined"`, and retries with the new bearer; a failed refresh signs out |
| ApiClient.RetryKeepsNewBearer | frontend/src/libs/axios.js:68-69 | the retried request passes the request interceptor with the same new bearer |
| ApiClient.AtMostOneRefresh | frontend/src/libs/axios.js:41-55 | counting the refresh requests the response interceptor posts, whatever statuses follow a request is refreshed at most once, and exactly once when a 401 comes and a refresh token is stored; without one the first 401 signs out and posts nothing |
| Landing.NextIndex | frontend/src/Landing.jsx:17 | the next image index stays among the four images and goes round from the last to the first |
| Landing.SlidesAfterMod | frontend/src/Landing.jsx:15-21 | k ticks move the slider k places modulo the number of images |
| Landing.SliderCycles | frontend/src/Landing.jsx:15-21 | after one tick per image the slider is back where it started |
| Landing.TypeTick | frontend/src/Landing.jsx:27-30 | one tick shows one more character of the headline, and the interval keeps running exactly while text is left |
| Landing.TypingAfter | frontend/src/Landing.jsx:24-34 | after k ticks the first k characters are shown, and the interval runs exactly while k is below the headline's length |
| Landing.TypingStopsAtEnd | frontend/src/Landing.jsx:24-34 | the interval runs until the whole headline is shown and then stops |
| Landing.LandingPage.constructor | frontend/src/Landing.jsx:11-12 | the first image and an empty headline |
| Landing.LandingPage.OnSlide | frontend/src/Landing.jsx:16-18 | the index becomes `NextIndex` of the old one; the headline stays |
| Landing.LandingPage.OnType | frontend/src/Landing.jsx:27-31 | the typing state becomes `TypeTick` of the old one; the slider stays |
| ReturnPage.AfterReply | frontend/src/layouts/subscription/components/ReturnPage.jsx:21-33 | `paid` gives success, any other answer the still-pending message, a failed request the error |
| ReturnPage.RenderIcon | frontend/src/layouts/subscription/components/ReturnPage.jsx:37-47 | the check icon exactly for success and the error icon exactly for error; any other status shows the hourglass |
| ReturnPage.RenderActionButton | frontend/src/layouts/subscription/components/ReturnPage.jsx:49-69 | Go to Upload exactly after success, Retry exactly after an error, no button otherwise |
| ReturnPage.ReachablePresentation | frontend/src/layouts/subscription/components/ReturnPage.jsx:37-99 | every state the page reaches has one consistent icon, button and spinner; pending shows the hourglass and the spinner and no button |
| ReturnPage.ReturnView.constructor | frontend/src/layouts/subscription/components/ReturnPage.jsx:13-14 | the page starts pending, checking the payment |
| ReturnPage.ReturnView.Mount | frontend/src/layouts/subscription/components/ReturnPage.jsx:17-20 | a truthy session id sends exactly one verification request for it; otherwise none, and the page stays as it is |
| ReturnPage.ReturnView.OnVerifyReply | frontend/src/layouts/subscription/components/ReturnPage.jsx:21-33 | status and message become what `AfterReply` says |
| Text.Trim | frontend/src/layouts/profile/index.js:106 | `trim` drops whitespace at both ends only: the result is a contiguous part of the input, empty exactly when the input is all whitespace |
| Text.NatToStringRoundTrip | frontend/src/layouts/dashboard/components/GetStockClips.jsx:129 | the rendered attempt number reads back as the number |
| Seqs.Filter | frontend/src/App.js:79-80 | `filter` keeps the elements satisfying the predicate, in order, each as often as in the input |

## Left out

- Rendering, styling, icons and layout are left out. Only what the page logic decides (captions, enabled and disabled states, which button or icon shows) is modelled.
- Timer durations (10 s, 400 ms, 2 s, 5 s, 50 ms) are left out. Timers are explicit pending events, and their order against server answers is free.
- React's batching of state updates, concurrency and re-render timing are left out. Each handler is one atomic step.
- Network requests and their bodies are left out beyond the fields the pages read. Endpoints that are not part of this model (transcription, keyword detection, Pexels, Dropbox, contact, sign-in and sign-up, verify-session) appear only as the answers they give.
- The Stripe SDK is not part of this model. Signature verification appears as its result (a verified event or none), and session creation as created or raised.
- Reconciliation with a run the user starts before the list answer arrives is left out. `StockClips.Reconcile` answers the mount effect atomically, before any run.
- `handleDownload` and `window.open` are left out: they open the stored link unchanged. `window.location` (the sign-out redirect and Retry's reload) and `navigate` are left out too; they are returned as targets.
- Locale date formatting (`toLocaleDateString`) is left out. `AdminTables.FormatDate` only distinguishes a dash from a formatted date.
- Floating point in the checkout view is left out. Amounts are whole dollars, which is all the view computes.
- views.py:17's `int(...)` on a non-integer `minutes` raises outside the `try`, which gives Django's own error page. That path is not modelled. Neither is a `plan` whose `title` is not a string.
- Upper/lower-casing covers ASCII letters only. That is exact for every comparison made with the fixed ASCII words used; among the code points whose lower-case form contains an ASCII letter, KELVIN SIGN maps to a `k` none of those words holds, and U+0130 maps to `i` plus a combining dot, which no word matches.
- CheckoutView.Checkout: the 400 body `Invalid plan type: …` (backend/payments/views.py:16, 83) echoes the lowered title, so for a title with non-ASCII letters that have a lower-case form (`É`, `Σ`, U+0130, …) the model's message differs from the source's.
- Subscription.DecodeEncode: the round trip stops at the UTF-8 bytes. Decoding those bytes back to characters is not modelled.
- StockClips.SaveInvariant: bounds the bar by 90 only while no 2-second reset is pending. During a reset window a new save may briefly show the previous 100, exactly as the source allows.
- StockClips.TicksUntilStopped: takes a `fuel` bound on the orphaned interval's ticks. Nine ticks suffice for the finding; longer runs are not covered by it.
- React-router's matching of the `*` and `/admin` fallback routes is left out, and so is the `vr` layout's Configurator. The side navigation's mouse handlers are left out as well.
- A checkout event whose `customer_details` is present but null makes `.get("email")` raise an AttributeError before the update; a missing key gives `{}` and no error. That null path is not modelled, and the model ignores the e-mail address, which the handler only prints.
- The remaining console and print logging is left out.

## Findings

| source | as written | input that shows it | evidently intended | confidence | as-written member | corrected member |
|---|---|---|---|---|---|---|
| frontend/src/layouts/dashboard/components/GetStockClips.jsx:212-235 | the progress interval is cleared only after a successful save; the `catch` and `finally` branches leave it running | a save whose request fails while the bar is still at most 30, i.e. within about 1.6 s of the click (the witness fails it at once): the 2-second reset hides the bar, the orphaned interval is still ticking, brings the bar back, and it stays at 90 with nothing in flight | the interval is cleared on every outcome, so the bar disappears after a failed save | not executed | StockClips.FailedSaveLeavesBarAsWritten | StockClips.FailedSaveHidesBar |
| backend/payments/webhooks.py:68-71 | the completed-checkout update also sets `paid_at`, which the `Payment` model (backend/payments/models.py:4-19) does not have, so Django raises before the query runs | a `checkout.session.completed` event for the session of a pending payment: the payment stays pending and the webhook fails with 500 | the records of the session are marked paid and the webhook answers 200 | not executed | Webhooks.CheckoutLeavesPendingAsWritten | Webhooks.CheckoutMarksSessionPaid |
