/** The stock-clip page of the dashboard: a three-stage pipeline
    (transcription, keyword detection, stock-clip fetch) started and
    restarted by one button, an optional user-triggered ZIP save, a
    reconciliation with stored results when the page opens, and the
    per-step status shown beside each stage.

    The page's state is the datatype `View`; each handler, server answer
    and timer callback is a function from a view to the next view and the
    request it sends (`Step`). Server answers are event arguments, the
    self-rescheduling `setTimeout` of the poll loop is an explicit "poll
    timer pending" state, and the save's `setInterval` and 2-second reset
    `setTimeout` are explicit fields. The class `GetStockClips` at the end
    holds the same state in fields and updates it handler by handler. */
module StockClips {
  import opened Wrappers
  import opened Text
  import opened TranscriptionPoll

  /** A stock clip as the page renders it: `id`, `keyword`, `video_files`. */
  datatype Clip = Clip(id: Option<int>, keyword: Option<string>, videoFiles: seq<string>)

  /** The answer of the clip-list endpoint: `clips` and `dropbox_link`, either possibly absent. */
  datatype StoredClips = StoredClips(clips: Option<seq<Clip>>, dropboxLink: Option<string>)

  /** The requests the page sends. */
  datatype Request =
    | ListClips(listedVideoId: int)
    | StartTranscription(videoId: Option<int>)
    | QueryStatus(job: string)
    | DetectKeywords(videoId: Option<int>)
    | FetchClips(keywords: seq<string>, videoId: Option<int>, aspectRatio: string)
    | SaveClips(videoId: Option<int>, clips: seq<Clip>)

  /** The automatic chain's work in flight. `ratio` is the aspect ratio of
      the render whose button started the run: the later stages are
      closures of that render and send that value. */
  datatype Outstanding =
    | Idle
    | AwaitStart(ratio: string)
    | AwaitStatus(job: string, attempt: nat, ratio: string)
    | AwaitPollTimer(job: string, attempt: nat, ratio: string)
    | AwaitKeywords(ratio: string)
    | AwaitClips(keywords: seq<string>, ratio: string)

  /** The stage-one states, in which the page is polling a transcription job. */
  predicate Transcribing(o: Outstanding) {
    o.AwaitStart? || o.AwaitStatus? || o.AwaitPollTimer?
  }

  /** What `getStepStatus` reports for a stage. */
  datatype StepStatus = Pending | Ready | Processing | Complete | Error

  /** One stage's pair of state hooks: its loading flag and its status line
      (`loading`/`status`, `keywordLoading`/`keywordStatus`,
      `clipsLoading`/`clipsStatus`). */
  datatype Panel = Panel(busy: bool, text: string)

  /** What the runs have produced: `keywords`, `clips`, `processComplete`
      and `downloadLink` (a falsy link is `None`). */
  datatype Results = Results(keywords: seq<string>, clips: seq<Clip>, complete: bool, link: Option<string>)

  /** The save: the request in flight, the bar's `saveProgress`, the
      progress interval and its local `progress` counter, and the number of
      pending 2-second resets of the bar. */
  datatype SaveState = SaveState(inFlight: bool, progress: nat, ticking: bool, counter: nat, resets: nat)

  /** The page's state: the component's hooks and its `isCancelled` ref,
      and the chain in flight. */
  datatype View = View(
    video: Option<Video>,
    cancelled: bool,
    aspectRatio: string,
    ratioError: bool,
    transcription: Panel,
    detection: Panel,
    fetch: Panel,
    results: Results,
    outstanding: Outstanding,
    save: SaveState)

  /** The state after an event and the request the event sends, if any. */
  datatype Step = Step(next: View, sent: Option<Request>)

  const DetectingText: string := "\U{1F50D} Detecting keywords with AI..."
  const KeywordsFailedText: string := "\U{274C} Keyword detection failed"
  const FetchingText: string := "\U{1F3AC} Fetching stock clips from Pexels..."
  const ClipsFailedText: string := "\U{274C} Failed to fetch stock clips"
  const ZipNote: string := " \U{1F4E6} ZIP available for download."
  const LoadFailedText: string := "\U{274C} Failed to load existing clips"
  const SavingText: string := "\U{1F4E6} Creating ZIP and uploading to Dropbox..."
  const SavedText: string := "\U{2705} ZIP uploaded successfully!"
  const SaveFailedText: string := "\U{274C} Failed to upload ZIP"

  function KeywordsFoundText(n: nat): string {
    "\U{2705} Keyword detection complete! Found " + NatToString(n) + " keywords"
  }

  function ClipsFetchedText(n: nat): string {
    "\U{2705} Stock clips fetched! (" + NatToString(n) + " clips)"
  }

  function LoadedText(n: nat): string {
    "\U{2705} Loaded existing stock clips (" + NatToString(n) + ")"
  }

  /** `video?.id`. */
  function VideoIdOf(v: View): Option<int> {
    if v.video.Some? then v.video.value.id else None
  }

  /** `video && videoId`: a video with a truthy id. */
  predicate HasVideoId(v: View) {
    v.video.Some? && v.video.value.id.Some? && v.video.value.id.value != 0
  }

  const NoSave: SaveState := SaveState(false, 0, false, 0, 0)

  /** The page as it first renders for `video`. */
  function Initial(video: Option<Video>): (v: View)
    ensures Invariant(v) && v.outstanding.Idle? && !v.cancelled && !v.results.complete
  {
    View(video, false, "", false, Panel(false, ""), Panel(false, ""), Panel(false, ""),
         Results([], [], false, None), Idle, NoSave)
  }

  /** The save's own invariant: the interval runs only during a save and
      counts in tens up to 90; with no save and no reset pending the bar is
      hidden, and during a save with no reset pending it shows at most 90. */
  predicate SaveInvariant(s: SaveState) {
    && (s.ticking ==> s.inFlight && s.counter < 90)
    && s.counter % 10 == 0 && s.counter <= 90
    && s.progress <= 100
    && (!s.inFlight && s.resets == 0 ==> s.progress == 0 && !s.ticking)
    && (s.inFlight && s.resets == 0 ==> s.progress <= 90)
  }

  /** What holds in every state the page reaches:
      - keyword detection is in flight exactly while step two is loading;
      - step three is loading exactly while the clip fetch or the save is in flight;
      - while the chain runs, the process is not complete and nothing is saved;
      - while polling a transcription, step one is loading. */
  ghost predicate Invariant(v: View) {
    && (v.outstanding.AwaitKeywords? <==> v.detection.busy)
    && (v.fetch.busy <==> v.outstanding.AwaitClips? || v.save.inFlight)
    && (!v.outstanding.Idle? ==> !v.results.complete && !v.save.inFlight)
    && (Transcribing(v.outstanding) ==> v.transcription.busy)
    && SaveInvariant(v.save)
  }

  // ---------------------------------------------------------------------
  // Button enablement

  /** Start Process and Restart are one handler, disabled while any stage is busy. */
  predicate StartClickable(v: View) {
    !v.transcription.busy && !v.detection.busy && !v.fetch.busy
  }

  /** The primary button's caption. */
  function PrimaryCaption(v: View): (c: string)
    ensures c == "Processing..." <==> !StartClickable(v)
    ensures StartClickable(v) ==> (c == "Restart" <==> v.results.complete)
    ensures StartClickable(v) && !v.results.complete ==> c == "Start Process"
  {
    if !StartClickable(v) then "Processing..."
    else if v.results.complete then "Restart"
    else "Start Process"
  }

  /** Beside the primary button, once the process is complete: the Save
      button when there is no link yet, the Download link otherwise. */
  datatype SaveArea = NoSaveArea | SaveButton(enabled: bool) | DownloadButton(href: string)

  function SaveAreaOf(v: View): (a: SaveArea)
    ensures a.SaveButton? <==> v.results.complete && v.results.link.None?
    ensures a.DownloadButton? <==> v.results.complete && v.results.link.Some?
    ensures a.DownloadButton? ==> a.href == v.results.link.value
    ensures a.SaveButton? ==> (a.enabled <==> !v.fetch.busy && |v.results.clips| > 0)
  {
    if !v.results.complete then NoSaveArea
    else if v.results.link.Some? then DownloadButton(v.results.link.value)
    else SaveButton(!v.fetch.busy && |v.results.clips| > 0)
  }

  /** The Save button is on the page (enabled or not). */
  predicate SaveOffered(v: View): (b: bool)
    ensures b <==> SaveAreaOf(v).SaveButton?
  {
    v.results.complete && v.results.link.None?
  }

  /** The progress bar is shown while `saveProgress` is positive, which on
      a page keeping the save invariant is only while a save is in flight
      or its 2-second reset is pending. */
  predicate ProgressBarShown(v: View): (b: bool)
    ensures SaveInvariant(v.save) && b ==> v.save.inFlight || v.save.resets > 0
  {
    v.save.progress > 0
  }

  // ---------------------------------------------------------------------
  // getStepStatus

  /** The panel of step 1, 2 or 3. */
  function StagePanel(v: View, step: int): Panel {
    if step == 1 then v.transcription
    else if step == 2 then v.detection
    else if step == 3 then v.fetch
    else Panel(false, "")
  }

  /** A status line reporting success or failure: `text && text.includes(mark)`,
      where `includes` of a one-character marker is membership. */
  predicate Marked(text: string, mark: char) {
    text != [] && mark in text
  }

  /** `getStepStatus(step)`: loading wins, then a success mark, then a
      failure mark; steps two and three are ready once the step before
      reports success. */
  function StepStatusOf(v: View, step: int): (s: StepStatus)
    ensures step != 1 && step != 2 && step != 3 ==> s == Pending
    ensures s == Processing <==> StagePanel(v, step).busy
    ensures s == Complete <==> !StagePanel(v, step).busy && CheckMark in StagePanel(v, step).text
    ensures s == Error <==>
      && !StagePanel(v, step).busy && CheckMark !in StagePanel(v, step).text
      && CrossMark in StagePanel(v, step).text
    ensures s == Ready <==>
      && (step == 2 || step == 3)
      && !StagePanel(v, step).busy && CheckMark !in StagePanel(v, step).text && CrossMark !in StagePanel(v, step).text
      && CheckMark in StagePanel(v, step - 1).text
  {
    if step == 1 then
      if v.transcription.busy then Processing
      else if Marked(v.transcription.text, CheckMark) then Complete
      else if Marked(v.transcription.text, CrossMark) then Error
      else Pending
    else if step == 2 then
      if v.detection.busy then Processing
      else if Marked(v.detection.text, CheckMark) then Complete
      else if Marked(v.detection.text, CrossMark) then Error
      else if Marked(v.transcription.text, CheckMark) then Ready
      else Pending
    else if step == 3 then
      if v.fetch.busy then Processing
      else if Marked(v.fetch.text, CheckMark) then Complete
      else if Marked(v.fetch.text, CrossMark) then Error
      else if Marked(v.detection.text, CheckMark) then Ready
      else Pending
    else Pending
  }

  /** The "⚠️" text of a failed status query carries neither marker, so it
      shows step 1 as pending. */
  lemma PollErrorShowsPending(v: View)
    requires v.transcription == Panel(false, PollErrorText)
    ensures StepStatusOf(v, 1) == Pending
  {
    NoMarkInPollError();
  }

  lemma NoMarkInPollError()
    ensures CheckMark !in PollErrorText && CrossMark !in PollErrorText
  {
    forall i | 0 <= i < |PollErrorText|
      ensures PollErrorText[i] != CheckMark && PollErrorText[i] != CrossMark
    {
    }
  }

  // ---------------------------------------------------------------------
  // Reconciliation on open

  /** `fetchExistingClips`, request and answer together; `reply` is `None`
      when the request failed. It runs when the page opens, before any run. */
  function Reconcile(v: View, reply: Option<StoredClips>): (r: Step)
    requires Invariant(v) && v.outstanding.Idle? && !v.save.inFlight
    ensures Invariant(r.next)
    ensures r.sent.None? <==> !HasVideoId(v)
    ensures !HasVideoId(v) ==> r.next == v
    ensures HasVideoId(v) ==> r.sent == Some(ListClips(v.video.value.id.value))
    // only the clip results, the link and the clip status line change
    ensures r.next == v.(results := r.next.results, fetch := r.next.fetch)
    ensures r.next.results.keywords == v.results.keywords && r.next.fetch.busy == v.fetch.busy
    ensures HasVideoId(v) && reply.None? ==>
      && r.next.results == v.results.(clips := [], complete := false, link := None)
      && r.next.fetch.text == LoadFailedText
    ensures HasVideoId(v) && reply.Some? ==>
      var stored := reply.value.clips.GetOr([]);
      && (r.next.results.complete <==> |stored| > 0)
      && r.next.results.clips == stored
      && (r.next.results.link.Some? <==> Truthy(reply.value.dropboxLink))
      && (r.next.results.link.Some? ==> r.next.results.link == reply.value.dropboxLink)
  {
    if !HasVideoId(v) then Step(v, None)
    else
      var sent := Some(ListClips(v.video.value.id.value));
      match reply
      case None =>
        Step(v.(results := v.results.(clips := [], complete := false, link := None), fetch := v.fetch.(text := LoadFailedText)),
             sent)
      case Some(stored) =>
        var fetched := stored.clips.GetOr([]);
        var loaded :=
          if |fetched| > 0 then v.(results := v.results.(clips := fetched, complete := true), fetch := v.fetch.(text := LoadedText(|fetched|)))
          else v.(results := v.results.(clips := [], complete := false), fetch := v.fetch.(text := ""));
        if Truthy(stored.dropboxLink) then
          Step(loaded.(results := loaded.results.(link := stored.dropboxLink), fetch := loaded.fetch.(text := loaded.fetch.text + ZipNote)),
               sent)
        else
          Step(loaded.(results := loaded.results.(link := None)), sent)
  }

  /** Reconciling twice with the same stored answer ends where reconciling once does. */
  lemma ReconcileIdempotent(v: View, reply: Option<StoredClips>)
    requires Invariant(v) && v.outstanding.Idle? && !v.save.inFlight
    ensures var once := Reconcile(v, reply);
            Reconcile(once.next, reply) == once
  {
  }

  /** Stored non-empty results mark the clip stage complete, with no start request. */
  lemma StoredResultsCompleteStepThree(video: Video, stored: StoredClips)
    requires video.id.Some? && video.id.value != 0
    requires stored.clips.Some? && |stored.clips.value| > 0
    ensures var r := Reconcile(Initial(Some(video)), Some(stored));
            && r.next.results.complete && r.next.results.clips == stored.clips.value
            && StepStatusOf(r.next, 3) == Complete
            && r.sent == Some(ListClips(video.id.value))
  {
    var r := Reconcile(Initial(Some(video)), Some(stored));
    var n := |stored.clips.value|;
    assert LoadedText(n)[0] == CheckMark;
    assert r.next.fetch.text[0] == CheckMark;
  }

  // ---------------------------------------------------------------------
  // The automatic chain

  /** The aspect-ratio select. */
  function SelectRatio(v: View, ratio: string): (r: Step)
    requires Invariant(v)
    ensures Invariant(r.next) && r.sent.None?
    ensures r.next.aspectRatio == ratio && !r.next.ratioError
    ensures r.next == v.(aspectRatio := r.next.aspectRatio, ratioError := r.next.ratioError)
  {
    Step(v.(aspectRatio := ratio, ratioError := false), None)
  }

  /** `handleTranscribe`, the handler of both Start Process and Restart. */
  function Start(v: View): (r: Step)
    requires Invariant(v) && StartClickable(v)
    ensures Invariant(r.next)
    // every click clears the clip results, the link and the two later
    // status lines, but not the keywords or the stage-one line
    ensures r.next.results == v.results.(clips := [], complete := false, link := None)
    ensures r.next.detection == v.detection.(text := "") && r.next.fetch == v.fetch.(text := "")
    ensures v.video.None? ==>
      r.sent.None? && r.next == v.(results := r.next.results, detection := r.next.detection, fetch := r.next.fetch)
    ensures v.video.Some? && v.aspectRatio == "" ==>
      r.sent.None? && r.next == v.(results := r.next.results, detection := r.next.detection, fetch := r.next.fetch,
                                   ratioError := true)
    ensures v.video.Some? && v.aspectRatio != "" ==>
      && r.sent == Some(StartTranscription(VideoIdOf(v)))
      && r.next == v.(results := r.next.results, detection := r.next.detection, fetch := r.next.fetch,
                      cancelled := false, transcription := Panel(true, StartingText), outstanding := AwaitStart(v.aspectRatio))
  {
    var cleared := v.(results := v.results.(clips := [], complete := false, link := None),
                      fetch := v.fetch.(text := ""), detection := v.detection.(text := ""));
    if v.video.None? then Step(cleared, None)
    else if v.aspectRatio == "" then Step(cleared.(ratioError := true), None)
    else
      Step(cleared.(cancelled := false, transcription := Panel(true, StartingText), outstanding := AwaitStart(v.aspectRatio)),
           Some(StartTranscription(VideoIdOf(v))))
  }

  /** The start request's answer: a job id, or `None` when the request
      failed or carried no `job.id`. A valid id is followed at once by the
      first poll, which does nothing when the run was cancelled. */
  function StartReplied(v: View, job: Option<string>): (r: Step)
    requires Invariant(v) && v.outstanding.AwaitStart?
    ensures Invariant(r.next)
    ensures IsJobId(job) && !v.cancelled ==>
      && r.sent == Some(QueryStatus(job.value))
      && r.next == v.(transcription := v.transcription.(text := StartedText),
                      outstanding := AwaitStatus(job.value, 0, v.outstanding.ratio))
    ensures !IsJobId(job) && !v.cancelled ==>
      r.sent.None? && r.next == v.(transcription := Panel(false, StartFailedText), outstanding := Idle)
    ensures v.cancelled ==> r.sent.None? && r.next.outstanding.Idle? && r.next.transcription.busy == v.transcription.busy
  {
    if IsJobId(job) then
      var started := v.(transcription := v.transcription.(text := StartedText));
      if v.cancelled then Step(started.(outstanding := Idle), None)
      else Step(started.(outstanding := AwaitStatus(job.value, 0, v.outstanding.ratio)), Some(QueryStatus(job.value)))
    else if v.cancelled then Step(v.(outstanding := Idle), None)
    else Step(v.(transcription := Panel(false, StartFailedText), outstanding := Idle), None)
  }

  /** The answer to status query number `attempt`: the job's label, or
      `None` when the query failed. The answer is applied even when the run
      was cancelled meanwhile; only a failed query checks the flag. */
  function StatusReplied(v: View, jobState: Option<string>): (r: Step)
    requires Invariant(v) && v.outstanding.AwaitStatus?
    ensures Invariant(r.next)
    ensures r.next.results == v.results && r.next.fetch == v.fetch
    // a failed query stops polling, with no retry
    ensures jobState.None? ==> r.sent.None? && r.next.outstanding.Idle?
    ensures jobState.None? && !v.cancelled ==>
      && r.next == v.(transcription := Panel(false, PollErrorText), outstanding := Idle)
      && StepStatusOf(r.next, 1) == Pending
    ensures jobState == Some("automatic_done") ==>
      && r.next == v.(transcription := Panel(false, DoneText), detection := Panel(true, DetectingText),
                      outstanding := AwaitKeywords(v.outstanding.ratio))
      && r.sent == Some(DetectKeywords(VideoIdOf(v)))
    ensures jobState == Some("error") || jobState == Some("failed") ==>
      r.sent.None? && r.next == v.(transcription := Panel(false, FailedText), outstanding := Idle)
    ensures jobState.Some? && Classify(jobState.value) == Running ==>
      && r.sent.None?
      && r.next == v.(transcription := Panel(true, AttemptText(v.outstanding.attempt, jobState.value)),
                      outstanding := AwaitPollTimer(v.outstanding.job, v.outstanding.attempt + 1, v.outstanding.ratio))
  {
    match jobState
    case None =>
      if v.cancelled then Step(v.(outstanding := Idle), None)
      else
        var r := Step(v.(transcription := Panel(false, PollErrorText), outstanding := Idle), None);
        PollErrorShowsPending(r.next);
        r
    case Some(l) =>
      match Classify(l)
      case Done =>
        Step(v.(transcription := Panel(false, DoneText), detection := Panel(true, DetectingText),
                outstanding := AwaitKeywords(v.outstanding.ratio)),
             Some(DetectKeywords(VideoIdOf(v))))
      case Failed => Step(v.(transcription := Panel(false, FailedText), outstanding := Idle), None)
      case Running =>
        Step(v.(transcription := v.transcription.(text := AttemptText(v.outstanding.attempt, l)),
                outstanding := AwaitPollTimer(v.outstanding.job, v.outstanding.attempt + 1, v.outstanding.ratio)),
             None)
  }

  /** The ten-second re-poll timer fires; a cancelled run stops here. */
  function PollTimerFired(v: View): (r: Step)
    requires Invariant(v) && v.outstanding.AwaitPollTimer?
    ensures Invariant(r.next)
    ensures v.cancelled ==> r.sent.None? && r.next == v.(outstanding := Idle)
    ensures !v.cancelled ==>
      && r.sent == Some(QueryStatus(v.outstanding.job))
      && r.next == v.(outstanding := AwaitStatus(v.outstanding.job, v.outstanding.attempt, v.outstanding.ratio))
  {
    if v.cancelled then Step(v.(outstanding := Idle), None)
    else Step(v.(outstanding := AwaitStatus(v.outstanding.job, v.outstanding.attempt, v.outstanding.ratio)),
              Some(QueryStatus(v.outstanding.job)))
  }

  /** `handleKeywordDetection`'s answer: the keyword list (absent = empty),
      or `None` when detection failed. A non-empty list starts the clip
      fetch with the run's aspect ratio; an empty one ends the run. */
  function KeywordsReplied(v: View, reply: Option<seq<string>>): (r: Step)
    requires Invariant(v) && v.outstanding.AwaitKeywords?
    ensures Invariant(r.next)
    ensures !r.next.detection.busy && !r.next.results.complete
    // the stage-one panel and the clips are never touched
    ensures r.next.transcription == v.transcription && r.next.results.clips == v.results.clips
    ensures reply.None? ==>
      r.sent.None? && r.next == v.(detection := Panel(false, KeywordsFailedText), outstanding := Idle)
    ensures reply.Some? ==>
      r.next.results.keywords == reply.value && r.next.detection.text == KeywordsFoundText(|reply.value|)
    ensures reply.Some? && |reply.value| == 0 ==>
      r.sent.None? && r.next.outstanding.Idle? && r.next.fetch == v.fetch
    ensures reply.Some? && |reply.value| > 0 ==>
      && r.sent == Some(FetchClips(reply.value, VideoIdOf(v), v.outstanding.ratio))
      && r.next.fetch == Panel(true, FetchingText)
      && r.next.outstanding == AwaitClips(reply.value, v.outstanding.ratio)
  {
    match reply
    case None =>
      Step(v.(detection := Panel(false, KeywordsFailedText), outstanding := Idle), None)
    case Some(ks) =>
      var found := v.(results := v.results.(keywords := ks), detection := Panel(false, KeywordsFoundText(|ks|)));
      if |ks| == 0 then Step(found.(outstanding := Idle), None)
      else
        Step(found.(fetch := Panel(true, FetchingText), outstanding := AwaitClips(ks, v.outstanding.ratio)),
             Some(FetchClips(ks, VideoIdOf(v), v.outstanding.ratio)))
  }

  /** `handleFetchStockClips`'s answer: the clips (absent = empty), or
      `None` when the fetch failed. Only a successful fetch completes the
      process; a failed one keeps the earlier stages' results. */
  function ClipsReplied(v: View, reply: Option<seq<Clip>>): (r: Step)
    requires Invariant(v) && v.outstanding.AwaitClips?
    ensures Invariant(r.next) && r.sent.None? && r.next.outstanding.Idle? && !r.next.fetch.busy
    ensures r.next.transcription == v.transcription && r.next.detection == v.detection
    ensures r.next.results.keywords == v.results.keywords
    ensures reply.None? ==> r.next == v.(fetch := Panel(false, ClipsFailedText), outstanding := Idle)
    ensures reply.Some? ==>
      && r.next.results.complete && r.next.results.clips == reply.value
      && r.next.fetch.text == ClipsFetchedText(|reply.value|)
  {
    match reply
    case None => Step(v.(fetch := Panel(false, ClipsFailedText), outstanding := Idle), None)
    case Some(cs) =>
      Step(v.(results := v.results.(clips := cs, complete := true), fetch := Panel(false, ClipsFetchedText(|cs|)),
              outstanding := Idle), None)
  }

  // ---------------------------------------------------------------------
  // Save

  /** `handleSave`, from the Save button (on the page only for a complete
      process without a link, and disabled during a save). With no video
      or no clips it does nothing; otherwise it sends the clips and starts
      the progress interval from 0. */
  function Save(v: View): (r: Step)
    requires Invariant(v) && SaveOffered(v) && !v.fetch.busy
    ensures Invariant(r.next)
    ensures v.video.None? || |v.results.clips| == 0 ==> r.sent.None? && r.next == v
    ensures v.video.Some? && |v.results.clips| > 0 ==>
      && r.sent == Some(SaveClips(VideoIdOf(v), v.results.clips))
      && r.next == v.(fetch := Panel(true, SavingText), save := r.next.save)
      && r.next.save == v.save.(inFlight := true, ticking := true, counter := 0)
  {
    if v.video.None? || |v.results.clips| == 0 then Step(v, None)
    else
      Step(v.(fetch := Panel(true, SavingText), save := v.save.(inFlight := true, ticking := true, counter := 0)),
           Some(SaveClips(VideoIdOf(v), v.results.clips)))
  }

  /** One 400 ms tick of the save's progress interval, which stops itself at 90. */
  function SaveTick(v: View): (r: Step)
    requires Invariant(v) && v.save.ticking
    ensures Invariant(r.next) && r.sent.None?
    ensures r.next.save.progress == v.save.counter + 10 <= 90
    ensures r.next.save.ticking <==> r.next.save.progress < 90
    ensures r.next == v.(save := v.save.(counter := r.next.save.progress, progress := r.next.save.progress,
                                         ticking := r.next.save.ticking))
  {
    var progress := v.save.counter + 10;
    Step(v.(save := v.save.(counter := progress, progress := progress, ticking := progress < 90)), None)
  }

  /** The save request's answer: `Some(link)` on success (the link may be
      absent or empty), `None` on failure. Either way the interval is
      stopped and a reset of the bar is scheduled. (As written, the failure
      path leaves the interval running; see `SaveRepliedAsWritten`.) */
  function SaveReplied(v: View, reply: Option<Option<string>>): (r: Step)
    requires Invariant(v) && v.save.inFlight
    ensures Invariant(r.next) && r.sent.None?
    ensures !r.next.save.inFlight && !r.next.save.ticking && !r.next.fetch.busy
    ensures r.next.save.resets == v.save.resets + 1
    ensures reply.Some? ==>
      && r.next.save.progress == 100 && r.next.fetch.text == SavedText
      && (r.next.results.link.Some? <==> Truthy(reply.value))
      && (r.next.results.link.Some? ==> r.next.results.link == reply.value)
    ensures reply.None? ==> r.next.fetch.text == SaveFailedText && r.next.save.progress == v.save.progress
    ensures r.next.results.clips == v.results.clips && r.next.results.complete == v.results.complete
  {
    var stopped := v.save.(inFlight := false, ticking := false, resets := v.save.resets + 1);
    match reply
    case Some(link) =>
      Step(v.(save := stopped.(progress := 100), fetch := Panel(false, SavedText),
              results := v.results.(link := if Truthy(link) then link else None)), None)
    case None => Step(v.(save := stopped, fetch := Panel(false, SaveFailedText)), None)
  }

  /** The 2-second `setTimeout` that hides the progress bar again. */
  function ProgressReset(v: View): (r: Step)
    requires Invariant(v) && v.save.resets > 0
    ensures Invariant(r.next) && r.sent.None?
    ensures !ProgressBarShown(r.next) && r.next.save.resets == v.save.resets - 1
    ensures r.next == v.(save := v.save.(progress := r.next.save.progress, resets := r.next.save.resets))
  {
    Step(v.(save := v.save.(progress := 0, resets := v.save.resets - 1)), None)
  }

  /** The save answer as the source writes it: the `catch` branch does not
      clear the interval, which goes on ticking after the save failed. */
  function SaveRepliedAsWritten(v: View, reply: Option<Option<string>>): (r: Step)
    requires v.save.inFlight
    ensures reply.Some? && Invariant(v) ==> r == SaveReplied(v, reply)
    ensures reply.None? ==> r.next.save.ticking == v.save.ticking && !r.next.save.inFlight
  {
    match reply
    case Some(link) =>
      Step(v.(save := v.save.(inFlight := false, ticking := false, resets := v.save.resets + 1, progress := 100),
              fetch := Panel(false, SavedText), results := v.results.(link := if Truthy(link) then link else None)), None)
    case None =>
      Step(v.(save := v.save.(inFlight := false, resets := v.save.resets + 1), fetch := Panel(false, SaveFailedText)), None)
  }

  /** With the source's failure path, a failed save shows the progress bar
      for good: the reset hides it, the still-running interval brings it
      back, and it stops at 90 with no save in flight and no reset pending. */
  lemma FailedSaveLeavesBarAsWritten()
    ensures exists v: View :: Invariant(v) && v.save.inFlight && StuckAfterFailure(v)
  {
    var v0 := Initial(Some(Video(Some(7), "talk.mp4"))).(results := Results([], [Clip(Some(1), Some("beach"), [])], true, None));
    var v1 := Save(v0).next;
    assert StuckAfterFailure(v1);
  }

  /** The as-written run from a save in flight: it fails right away, the
      reset fires, then the orphaned interval ticks until it stops itself. */
  predicate StuckAfterFailure(v: View)
    requires v.save.inFlight
  {
    var failed := SaveRepliedAsWritten(v, None).next;
    failed.save.resets > 0 &&
    var ticked := TicksUntilStopped(failed.save.(progress := 0, resets := failed.save.resets - 1), 10);
    && !ticked.inFlight && ticked.resets == 0 && !ticked.ticking
    && ProgressBarShown(failed.(save := ticked)) && ticked.progress == 90
  }

  /** With the interval cleared on every answer, a failed save hides the
      bar for good once its reset fires: the progress is 0 and no tick can
      bring it back until the next save. */
  lemma FailedSaveHidesBar(v: View)
    requires Invariant(v) && v.save.inFlight && v.save.resets == 0
    ensures var w := ProgressReset(SaveReplied(v, None).next).next;
      && !ProgressBarShown(w) && !Enabled(w, SaveIntervalTicked) && !w.save.inFlight && w.save.resets == 0
  {
  }

  /** Up to `fuel` interval ticks, stopping when the interval clears itself. */
  function TicksUntilStopped(s: SaveState, fuel: nat): SaveState
    decreases fuel
  {
    if fuel == 0 || !s.ticking then s
    else
      var progress := s.counter + 10;
      TicksUntilStopped(s.(counter := progress, progress := progress, ticking := progress < 90), fuel - 1)
  }

  // ---------------------------------------------------------------------
  // Runs

  /** Everything that can happen on the page once it is open. */
  datatype Event =
    | RatioSelected(ratio: string)
    | StartClicked
    | StartAnswered(job: Option<string>)
    | StatusAnswered(jobState: Option<string>)
    | PollTimerElapsed
    | KeywordsAnswered(keywords: Option<seq<string>>)
    | ClipsAnswered(clips: Option<seq<Clip>>)
    | SaveClicked
    | SaveIntervalTicked
    | SaveAnswered(link: Option<Option<string>>)
    | ProgressResetElapsed

  /** An event can happen: its button is enabled, or the answer or timer it
      stands for is the one pending. */
  predicate Enabled(v: View, e: Event) {
    match e
    case RatioSelected(_) => true
    case StartClicked => StartClickable(v)
    case StartAnswered(_) => v.outstanding.AwaitStart?
    case StatusAnswered(_) => v.outstanding.AwaitStatus?
    case PollTimerElapsed => v.outstanding.AwaitPollTimer?
    case KeywordsAnswered(_) => v.outstanding.AwaitKeywords?
    case ClipsAnswered(_) => v.outstanding.AwaitClips?
    case SaveClicked => SaveOffered(v) && !v.fetch.busy
    case SaveIntervalTicked => v.save.ticking
    case SaveAnswered(_) => v.save.inFlight
    case ProgressResetElapsed => v.save.resets > 0
  }

  function Apply(v: View, e: Event): (r: Step)
    requires Invariant(v) && Enabled(v, e)
    ensures Invariant(r.next)
  {
    match e
    case RatioSelected(ratio) => SelectRatio(v, ratio)
    case StartClicked => Start(v)
    case StartAnswered(job) => StartReplied(v, job)
    case StatusAnswered(jobState) => StatusReplied(v, jobState)
    case PollTimerElapsed => PollTimerFired(v)
    case KeywordsAnswered(ks) => KeywordsReplied(v, ks)
    case ClipsAnswered(cs) => ClipsReplied(v, cs)
    case SaveClicked => Save(v)
    case SaveIntervalTicked => SaveTick(v)
    case SaveAnswered(link) => SaveReplied(v, link)
    case ProgressResetElapsed => ProgressReset(v)
  }


  /** The kinds of request, for stating which kind comes before which. */
  datatype RequestKind = ListKind | StartKind | QueryKind | DetectKind | FetchKind | SaveKind

  function KindOf(r: Request): RequestKind {
    match r
    case ListClips(_) => ListKind
    case StartTranscription(_) => StartKind
    case QueryStatus(_) => QueryKind
    case DetectKeywords(_) => DetectKind
    case FetchClips(_, _, _) => FetchKind
    case SaveClips(_, _) => SaveKind
  }

  /** The step sends a request of kind `kind`. */
  predicate IsSent(r: Step, kind: RequestKind) {
    r.sent.Some? && KindOf(r.sent.value) == kind
  }

  /** `events` can happen one after the other from `v`. */
  ghost predicate Runs(v: View, events: seq<Event>)
    requires Invariant(v)
    decreases |events|
  {
    events == [] || (Enabled(v, events[0]) && Runs(Apply(v, events[0]).next, events[1..]))
  }

  /** The requests sent along a run, in order. */
  ghost function Requests(v: View, events: seq<Event>): seq<Request>
    requires Invariant(v) && Runs(v, events)
    decreases |events|
  {
    if events == [] then []
    else
      var s := Apply(v, events[0]);
      (if s.sent.Some? then [s.sent.value] else []) + Requests(s.next, events[1..])
  }

  /** The state a run ends in. */
  ghost function Final(v: View, events: seq<Event>): (w: View)
    requires Invariant(v) && Runs(v, events)
    ensures Invariant(w)
    decreases |events|
  {
    if events == [] then v else Final(Apply(v, events[0]).next, events[1..])
  }

  /** `rs` holds a request of kind `kind` before position `i`. */
  predicate SentBefore(rs: seq<Request>, i: int, kind: RequestKind) {
    exists j :: 0 <= j < i && j < |rs| && KindOf(rs[j]) == kind
  }

  /** The three automatic stages, each named by the request that starts it. */
  datatype Stage = PollStage | DetectStage | FetchStage

  /** The request kind that stage `st` sends... */
  function LaterKind(st: Stage): RequestKind {
    match st
    case PollStage => QueryKind
    case DetectStage => DetectKind
    case FetchStage => FetchKind
  }

  /** ...and the kind that must have gone out before it. */
  function EarlierKind(st: Stage): RequestKind {
    match st
    case PollStage => StartKind
    case DetectStage => QueryKind
    case FetchStage => DetectKind
  }

  /** The chain is past the earlier request and waiting to send the later one. */
  predicate Between(o: Outstanding, st: Stage) {
    match st
    case PollStage => Transcribing(o)
    case DetectStage => o.AwaitStatus?
    case FetchStage => o.AwaitKeywords?
  }

  /** Nothing on the page sets the cancellation flag. */
  lemma StepKeepsUncancelled(v: View, e: Event)
    requires Invariant(v) && Enabled(v, e) && !v.cancelled
    ensures !Apply(v, e).next.cancelled
  {
  }

  /** Detection starts only on an "automatic_done" answer to a status
      query, and the clip fetch only on a non-empty keyword answer. */
  lemma StepTriggers(v: View, e: Event)
    requires Invariant(v) && Enabled(v, e)
    ensures IsSent(Apply(v, e), DetectKind) ==> v.outstanding.AwaitStatus? && e == StatusAnswered(Some("automatic_done"))
    ensures IsSent(Apply(v, e), FetchKind) ==>
      v.outstanding.AwaitKeywords? && e.KeywordsAnswered? && e.keywords.Some? && |e.keywords.value| > 0
  {
  }

  /** Only a successful clip-fetch answer completes the process. */
  lemma StepCompletes(v: View, e: Event)
    requires Invariant(v) && Enabled(v, e) && !v.results.complete && Apply(v, e).next.results.complete
    ensures e.ClipsAnswered? && e.clips.Some?
  {
  }

  /** One step either sends no request of a stage's kind or is in that
      stage, and it enters the stage only by sending the earlier request. */
  lemma StepOrder(v: View, e: Event, st: Stage)
    requires Invariant(v) && Enabled(v, e)
    ensures IsSent(Apply(v, e), LaterKind(st)) ==> Between(v.outstanding, st)
    ensures Between(Apply(v, e).next.outstanding, st) ==> Between(v.outstanding, st) || IsSent(Apply(v, e), EarlierKind(st))
  {
  }

  /** In `rs`, every request of stage `st` follows the earlier request,
      unless the chain started out in that stage (`inStage`). */
  predicate OrderedFor(rs: seq<Request>, st: Stage, inStage: bool) {
    forall i :: 0 <= i < |rs| && KindOf(rs[i]) == LaterKind(st) ==> inStage || SentBefore(rs, i, EarlierKind(st))
  }

  /** The order for one stage along any run. */
  lemma {:induction false} StageOrderFor(v: View, events: seq<Event>, st: Stage)
    requires Invariant(v) && Runs(v, events)
    ensures OrderedFor(Requests(v, events), st, Between(v.outstanding, st))
    decreases |events|
  {
    if events != [] {
      var s := Apply(v, events[0]);
      var head := if s.sent.Some? then [s.sent.value] else [];
      var tail := Requests(s.next, events[1..]);
      var rs := Requests(v, events);
      assert rs == head + tail;
      StageOrderFor(s.next, events[1..], st);
      StepOrder(v, events[0], st);
      forall i | 0 <= i < |rs| && KindOf(rs[i]) == LaterKind(st)
        ensures Between(v.outstanding, st) || SentBefore(rs, i, EarlierKind(st))
      {
        if i < |head| {
          assert rs[i] == s.sent.value;
          assert IsSent(s, LaterKind(st));
        } else {
          var k := i - |head|;
          assert rs[i] == tail[k];
          ShiftSentBefore(head, tail, k, EarlierKind(st));
          if IsSent(s, EarlierKind(st)) {
            assert head[0] == s.sent.value;
          }
        }
      }
    }
  }

  /** The stage order along any run: each status query comes after a start
      request, each keyword detection after a status query, each clip fetch
      after a keyword detection, unless the run begins with that earlier
      stage already in flight. */
  lemma StageOrder(v: View, events: seq<Event>)
    requires Invariant(v) && Runs(v, events)
    ensures var rs := Requests(v, events);
      forall i :: 0 <= i < |rs| ==>
        && (rs[i].QueryStatus? ==> Transcribing(v.outstanding) || SentBefore(rs, i, StartKind))
        && (rs[i].DetectKeywords? ==> v.outstanding.AwaitStatus? || SentBefore(rs, i, QueryKind))
        && (rs[i].FetchClips? ==> v.outstanding.AwaitKeywords? || SentBefore(rs, i, DetectKind))
  {
    StageOrderFor(v, events, PollStage);
    StageOrderFor(v, events, DetectStage);
    StageOrderFor(v, events, FetchStage);
  }

  /** From an idle page, the requests go out in stage order. */
  lemma StageOrderFromIdle(v: View, events: seq<Event>)
    requires Invariant(v) && v.outstanding.Idle? && Runs(v, events)
    ensures var rs := Requests(v, events);
      forall i :: 0 <= i < |rs| ==>
        && (rs[i].QueryStatus? ==> SentBefore(rs, i, StartKind))
        && (rs[i].DetectKeywords? ==> SentBefore(rs, i, QueryKind))
        && (rs[i].FetchClips? ==> SentBefore(rs, i, DetectKind))
  {
    StageOrder(v, events);
  }

  /** A request before position `k` of `tail` lies before position `|head| + k` of `head + tail`,
      and the one request of a one-element `head` lies before every later position. */
  lemma ShiftSentBefore(head: seq<Request>, tail: seq<Request>, k: int, kind: RequestKind)
    requires 0 <= k < |tail|
    ensures SentBefore(tail, k, kind) ==> SentBefore(head + tail, |head| + k, kind)
    ensures |head| > 0 && KindOf(head[0]) == kind ==> SentBefore(head + tail, |head| + k, kind)
  {
    if SentBefore(tail, k, kind) {
      var j :| 0 <= j < k && j < |tail| && KindOf(tail[j]) == kind;
      assert (head + tail)[|head| + j] == tail[j];
    }
    if |head| > 0 && KindOf(head[0]) == kind {
      assert (head + tail)[0] == head[0];
    }
  }

  /** Nothing on the page sets the cancellation flag: every run from an
      uncancelled page stays uncancelled, so the cancellation checks of
      the poll loop never fire. */
  lemma {:induction false} NeverCancelled(v: View, events: seq<Event>)
    requires Invariant(v) && Runs(v, events) && !v.cancelled
    ensures !Final(v, events).cancelled
    decreases |events|
  {
    if events != [] {
      StepKeepsUncancelled(v, events[0]);
      NeverCancelled(Apply(v, events[0]).next, events[1..]);
    }
  }

  /** A run that completes the process contains a successful clip-fetch answer. */
  lemma {:induction false} CompletionNeedsFetch(v: View, events: seq<Event>)
    requires Invariant(v) && Runs(v, events) && !v.results.complete && Final(v, events).results.complete
    ensures exists i :: 0 <= i < |events| && events[i].ClipsAnswered? && events[i].clips.Some?
    decreases |events|
  {
    var s := Apply(v, events[0]);
    if s.next.results.complete {
      StepCompletes(v, events[0]);
      assert events[0].ClipsAnswered? && events[0].clips.Some?;
    } else {
      CompletionNeedsFetch(s.next, events[1..]);
      var i :| 0 <= i < |events[1..]| && events[1..][i].ClipsAnswered? && events[1..][i].clips.Some?;
      assert events[i + 1] == events[1..][i];
    }
  }

  /** A whole run on a fresh page: the job is still queued at the first
      poll and done at the second, two keywords are found and eight clips
      fetched. The run ends complete with the eight clips, every step shows
      complete, and no save request was sent. */
  lemma FullRun(video: Video, eight: seq<Clip>)
    requires |eight| == 8
    ensures var v := Initial(Some(video)).(aspectRatio := "16:9");
      var run := [StartClicked, StartAnswered(Some("job-1")), StatusAnswered(Some("queued")), PollTimerElapsed,
                  StatusAnswered(Some("automatic_done")), KeywordsAnswered(Some(["beach", "sunset"])),
                  ClipsAnswered(Some(eight))];
      && Runs(v, run)
      && Requests(v, run) == [StartTranscription(video.id), QueryStatus("job-1"), QueryStatus("job-1"),
                              DetectKeywords(video.id), FetchClips(["beach", "sunset"], video.id, "16:9")]
      && Final(v, run).results.complete && Final(v, run).results.clips == eight
      && StepStatusOf(Final(v, run), 1) == Complete
      && StepStatusOf(Final(v, run), 2) == Complete
      && StepStatusOf(Final(v, run), 3) == Complete
  {
    FullRunTrace(video, eight);
    assert DoneText[0] == CheckMark;
    assert KeywordsFoundText(2)[0] == CheckMark;
    assert ClipsFetchedText(8)[0] == CheckMark;
  }

  /** The run of `FullRun`, step by step. */
  lemma FullRunTrace(video: Video, eight: seq<Clip>)
    requires |eight| == 8
    ensures var v := Initial(Some(video)).(aspectRatio := "16:9");
      var run := [StartClicked, StartAnswered(Some("job-1")), StatusAnswered(Some("queued")), PollTimerElapsed,
                  StatusAnswered(Some("automatic_done")), KeywordsAnswered(Some(["beach", "sunset"])),
                  ClipsAnswered(Some(eight))];
      && Runs(v, run)
      && Requests(v, run) == [StartTranscription(video.id), QueryStatus("job-1"), QueryStatus("job-1"),
                              DetectKeywords(video.id), FetchClips(["beach", "sunset"], video.id, "16:9")]
      && var w := Final(v, run);
      && w.results.complete && w.results.clips == eight
      && w.transcription == Panel(false, DoneText) && w.detection == Panel(false, KeywordsFoundText(2))
      && w.fetch == Panel(false, ClipsFetchedText(8))
  {
    var v := Initial(Some(video)).(aspectRatio := "16:9");
    var e0, e1, e2 := StartClicked, StartAnswered(Some("job-1")), StatusAnswered(Some("queued"));
    var later := [PollTimerElapsed, StatusAnswered(Some("automatic_done")), KeywordsAnswered(Some(["beach", "sunset"])),
                  ClipsAnswered(Some(eight))];
    FullRunFirst(video);
    var s0 := Apply(v, e0);
    var s1 := Apply(s0.next, e1);
    var s2 := Apply(s1.next, e2);
    FullRunLater(s2.next, video, eight);
    RunCons(s1.next, e2, later);
    RunCons(s0.next, e1, [e2] + later);
    RunCons(v, e0, [e1] + ([e2] + later));
    assert [e0] + ([e1] + ([e2] + later)) == [StartClicked, StartAnswered(Some("job-1")), StatusAnswered(Some("queued")),
      PollTimerElapsed, StatusAnswered(Some("automatic_done")), KeywordsAnswered(Some(["beach", "sunset"])), ClipsAnswered(Some(eight))];
  }

  /** The first half of the run of `FullRun`: the start request, the first
      status query, and the queued answer that schedules a re-poll. */
  lemma FullRunFirst(video: Video)
    ensures var v := Initial(Some(video)).(aspectRatio := "16:9");
      var s0 := Apply(v, StartClicked);
      var s1 := Apply(s0.next, StartAnswered(Some("job-1")));
      var s2 := Apply(s1.next, StatusAnswered(Some("queued")));
      && Invariant(v) && Enabled(v, StartClicked) && s0.sent == Some(StartTranscription(video.id))
      && Invariant(s0.next) && Enabled(s0.next, StartAnswered(Some("job-1"))) && s1.sent == Some(QueryStatus("job-1"))
      && Invariant(s1.next) && Enabled(s1.next, StatusAnswered(Some("queued"))) && s2.sent.None?
      && Invariant(s2.next) && s2.next.video == Some(video) && !s2.next.cancelled
      && s2.next.outstanding == AwaitPollTimer("job-1", 1, "16:9")
  {
    var v := Initial(Some(video)).(aspectRatio := "16:9");
    var s0 := Apply(v, StartClicked);
    assert s0 == Start(v);
    assert s0.next.outstanding == AwaitStart("16:9") && s0.sent == Some(StartTranscription(video.id));
    var s1 := Apply(s0.next, StartAnswered(Some("job-1")));
    assert s1.next.outstanding == AwaitStatus("job-1", 0, "16:9") && s1.sent == Some(QueryStatus("job-1"));
  }

  /** The second half of the run of `FullRun`, from the pending re-poll on. */
  lemma FullRunLater(u: View, video: Video, eight: seq<Clip>)
    requires Invariant(u) && u.video == Some(video) && !u.cancelled && u.outstanding == AwaitPollTimer("job-1", 1, "16:9")
    requires |eight| == 8
    ensures var run := [PollTimerElapsed, StatusAnswered(Some("automatic_done")), KeywordsAnswered(Some(["beach", "sunset"])),
                        ClipsAnswered(Some(eight))];
      && Runs(u, run)
      && Requests(u, run) == [QueryStatus("job-1"), DetectKeywords(video.id), FetchClips(["beach", "sunset"], video.id, "16:9")]
      && var w := Final(u, run);
      && w.results.complete && w.results.clips == eight
      && w.transcription == Panel(false, DoneText) && w.detection == Panel(false, KeywordsFoundText(2))
      && w.fetch == Panel(false, ClipsFetchedText(8))
  {
    var e3, e4 := PollTimerElapsed, StatusAnswered(Some("automatic_done"));
    var e5, e6 := KeywordsAnswered(Some(["beach", "sunset"])), ClipsAnswered(Some(eight));
    FullRunPolls(u, video);
    var s3 := Apply(u, e3);
    var s4 := Apply(s3.next, e4);
    FullRunFetches(s4.next, video, eight);
    var s5 := Apply(s4.next, e5);
    RunCons(s5.next, e6, []);
    RunCons(s4.next, e5, [e6]);
    RunCons(s3.next, e4, [e5] + [e6]);
    RunCons(u, e3, [e4] + ([e5] + [e6]));
    assert [e3] + ([e4] + ([e5] + [e6])) == [e3, e4, e5, e6];
  }

  /** The re-poll of `FullRun` and its answer that the job is done. */
  lemma FullRunPolls(u: View, video: Video)
    requires Invariant(u) && u.video == Some(video) && !u.cancelled && u.outstanding == AwaitPollTimer("job-1", 1, "16:9")
    ensures var s3 := Apply(u, PollTimerElapsed);
      var s4 := Apply(s3.next, StatusAnswered(Some("automatic_done")));
      && Enabled(u, PollTimerElapsed) && s3.sent == Some(QueryStatus("job-1"))
      && Enabled(s3.next, StatusAnswered(Some("automatic_done"))) && s4.sent == Some(DetectKeywords(video.id))
      && s4.next.video == Some(video) && !s4.next.cancelled && s4.next.outstanding == AwaitKeywords("16:9")
      && s4.next.transcription == Panel(false, DoneText)
  {
    var s3 := Apply(u, PollTimerElapsed);
    assert s3.next.outstanding == AwaitStatus("job-1", 1, "16:9") && s3.sent == Some(QueryStatus("job-1"));
  }

  /** The keyword and clip answers of `FullRun`. */
  lemma FullRunFetches(w: View, video: Video, eight: seq<Clip>)
    requires Invariant(w) && w.video == Some(video) && !w.cancelled && w.outstanding == AwaitKeywords("16:9")
    requires |eight| == 8
    ensures var s5 := Apply(w, KeywordsAnswered(Some(["beach", "sunset"])));
      var s6 := Apply(s5.next, ClipsAnswered(Some(eight)));
      && Enabled(w, KeywordsAnswered(Some(["beach", "sunset"])))
      && s5.sent == Some(FetchClips(["beach", "sunset"], video.id, "16:9"))
      && Enabled(s5.next, ClipsAnswered(Some(eight))) && s6.sent.None?
      && s6.next.results.complete && s6.next.results.clips == eight
      && s6.next.transcription == w.transcription && s6.next.detection == Panel(false, KeywordsFoundText(2))
      && s6.next.fetch == Panel(false, ClipsFetchedText(8))
  {
    var s5 := Apply(w, KeywordsAnswered(Some(["beach", "sunset"])));
    assert s5.next.outstanding == AwaitClips(["beach", "sunset"], "16:9");
  }

  /** A run that begins with `e` is the step of `e` followed by the rest. */
  lemma RunCons(v: View, e: Event, rest: seq<Event>)
    requires Invariant(v) && Enabled(v, e)
    ensures var s := Apply(v, e);
      && (Runs(v, [e] + rest) <==> Runs(s.next, rest))
      && (Runs(s.next, rest) ==>
           && Requests(v, [e] + rest) == (if s.sent.Some? then [s.sent.value] else []) + Requests(s.next, rest)
           && Final(v, [e] + rest) == Final(s.next, rest))
  {
    assert ([e] + rest)[0] == e;
    assert ([e] + rest)[1..] == rest;
  }


  /** The component itself: its state hooks (one field per pair of loading
      flag and status line, and per group of results) and its `isCancelled`
      ref, plus the chain, interval and reset timers it has pending. Each
      method is one handler or callback, updating the fields in the order
      the handler does. */
  class GetStockClips {
    var video: Option<Video>
    var cancelled: bool
    var aspectRatio: string
    var ratioError: bool
    var transcription: Panel
    var detection: Panel
    var fetch: Panel
    var results: Results
    var outstanding: Outstanding
    var save: SaveState

    function State(): View
      reads this
    {
      View(video, cancelled, aspectRatio, ratioError, transcription, detection, fetch, results, outstanding, save)
    }

    ghost predicate Valid()
      reads this
    {
      Invariant(State())
    }

    /** The first render for the video passed in the navigation state. */
    constructor (v: Option<Video>)
      ensures Valid() && State() == Initial(v)
    {
      video, cancelled, aspectRatio, ratioError := v, false, "", false;
      transcription, detection, fetch := Panel(false, ""), Panel(false, ""), Panel(false, "");
      results, outstanding, save := Results([], [], false, None), Idle, NoSave;
    }

    /** The mount effect `fetchExistingClips`, with the list endpoint's answer. */
    method FetchExistingClips(reply: Option<StoredClips>) returns (sent: Option<Request>)
      requires Valid() && outstanding.Idle? && !save.inFlight
      modifies this
      ensures Valid()
      ensures var r := Reconcile(old(State()), reply); State() == r.next && sent == r.sent
    {
      if video.None? || video.value.id.None? || video.value.id.value == 0 {
        return None;
      }
      sent := Some(ListClips(video.value.id.value));
      if reply.None? {
        results := results.(clips := [], complete := false);
        fetch := fetch.(text := LoadFailedText);
        results := results.(link := None);
      } else {
        var fetched := reply.value.clips.GetOr([]);
        if |fetched| > 0 {
          results := results.(clips := fetched, complete := true);
          fetch := fetch.(text := LoadedText(|fetched|));
        } else {
          results := results.(clips := [], complete := false);
          fetch := fetch.(text := "");
        }
        if Truthy(reply.value.dropboxLink) {
          results := results.(link := reply.value.dropboxLink);
          fetch := fetch.(text := fetch.text + ZipNote);
        } else {
          results := results.(link := None);
        }
      }
    }

    /** The aspect-ratio select's `onChange`. */
    method SelectAspectRatio(ratio: string)
      requires Valid()
      modifies this
      ensures Valid() && State() == SelectRatio(old(State()), ratio).next
    {
      aspectRatio := ratio;
      ratioError := false;
    }

    /** `handleTranscribe`, from the enabled Start Process or Restart button. */
    method HandleTranscribe() returns (sent: Option<Request>)
      requires Valid() && !transcription.busy && !detection.busy && !fetch.busy
      modifies this
      ensures Valid()
      ensures var r := Start(old(State())); State() == r.next && sent == r.sent
    {
      results := results.(clips := [], complete := false);
      fetch := fetch.(text := "");
      detection := detection.(text := "");
      results := results.(link := None);
      sent := None;
      if video.None? {
        return;
      }
      if aspectRatio == "" {
        ratioError := true;
        return;
      }
      cancelled := false;
      transcription := Panel(true, StartingText);
      outstanding := AwaitStart(aspectRatio);
      sent := Some(StartTranscription(video.value.id));
    }

    /** The start request's answer, followed by the first poll. */
    method OnStartReply(job: Option<string>) returns (sent: Option<Request>)
      requires Valid() && outstanding.AwaitStart?
      modifies this
      ensures Valid()
      ensures var r := StartReplied(old(State()), job); State() == r.next && sent == r.sent
    {
      var ratio := outstanding.ratio;
      outstanding := Idle;
      sent := None;
      if !IsJobId(job) {
        if !cancelled {
          transcription := Panel(false, StartFailedText);
        }
      } else {
        transcription := transcription.(text := StartedText);
        if !cancelled {
          outstanding := AwaitStatus(job.value, 0, ratio);
          sent := Some(QueryStatus(job.value));
        }
      }
    }

    /** A poll's answer: the job's label, or `None` for a failed query. */
    method OnStatusReply(jobState: Option<string>) returns (sent: Option<Request>)
      requires Valid() && outstanding.AwaitStatus?
      modifies this
      ensures Valid()
      ensures var r := StatusReplied(old(State()), jobState); State() == r.next && sent == r.sent
    {
      var job, attempt, ratio := outstanding.job, outstanding.attempt, outstanding.ratio;
      outstanding := Idle;
      sent := None;
      if jobState.None? {
        if !cancelled {
          transcription := Panel(false, PollErrorText);
          PollErrorShowsPending(State());
        }
        return;
      }
      transcription := transcription.(text := AttemptText(attempt, jobState.value));
      var c := Classify(jobState.value);
      if c == Done {
        transcription := Panel(false, DoneText);
        detection := Panel(true, DetectingText);
        outstanding := AwaitKeywords(ratio);
        sent := Some(DetectKeywords(if video.Some? then video.value.id else None));
      } else if c == Failed {
        transcription := Panel(false, FailedText);
      } else {
        outstanding := AwaitPollTimer(job, attempt + 1, ratio);
      }
    }

    /** The re-poll timer fires. */
    method OnPollTimer() returns (sent: Option<Request>)
      requires Valid() && outstanding.AwaitPollTimer?
      modifies this
      ensures Valid()
      ensures var r := PollTimerFired(old(State())); State() == r.next && sent == r.sent
    {
      if cancelled {
        outstanding := Idle;
        sent := None;
      } else {
        var job := outstanding.job;
        outstanding := AwaitStatus(job, outstanding.attempt, outstanding.ratio);
        sent := Some(QueryStatus(job));
      }
    }

    /** The keyword-detection answer, which starts the clip fetch. */
    method OnKeywordsReply(reply: Option<seq<string>>) returns (sent: Option<Request>)
      requires Valid() && outstanding.AwaitKeywords?
      modifies this
      ensures Valid()
      ensures var r := KeywordsReplied(old(State()), reply); State() == r.next && sent == r.sent
    {
      var ratio := outstanding.ratio;
      outstanding := Idle;
      sent := None;
      if reply.None? {
        detection := detection.(text := KeywordsFailedText);
      } else {
        var ks := reply.value;
        results := results.(keywords := ks);
        detection := detection.(text := KeywordsFoundText(|ks|));
        if |ks| > 0 {
          fetch := Panel(true, FetchingText);
          outstanding := AwaitClips(ks, ratio);
          sent := Some(FetchClips(ks, if video.Some? then video.value.id else None, ratio));
        }
      }
      detection := detection.(busy := false);
    }

    /** The clip-fetch answer. */
    method OnClipsReply(reply: Option<seq<Clip>>)
      requires Valid() && outstanding.AwaitClips?
      modifies this
      ensures Valid() && State() == ClipsReplied(old(State()), reply).next
    {
      outstanding := Idle;
      if reply.None? {
        fetch := fetch.(text := ClipsFailedText);
      } else {
        results := results.(clips := reply.value, complete := true);
        fetch := fetch.(text := ClipsFetchedText(|reply.value|));
      }
      fetch := fetch.(busy := false);
    }

    /** `handleSave`, from the Save button. */
    method HandleSave() returns (sent: Option<Request>)
      requires Valid() && results.complete && results.link.None? && !fetch.busy
      modifies this
      ensures Valid()
      ensures var r := Save(old(State())); State() == r.next && sent == r.sent
    {
      if video.None? || |results.clips| == 0 {
        return None;
      }
      fetch := Panel(true, SavingText);
      save := save.(counter := 0, ticking := true, inFlight := true);
      sent := Some(SaveClips(video.value.id, results.clips));
    }

    /** One tick of the save's progress interval. */
    method OnSaveTick()
      requires Valid() && save.ticking
      modifies this
      ensures Valid() && State() == SaveTick(old(State())).next
    {
      var progress := save.counter + 10;
      save := save.(counter := progress, progress := progress);
      if progress >= 90 {
        save := save.(ticking := false);
      }
    }

    /** The save request's answer; the interval is cleared on both paths. */
    method OnSaveReply(reply: Option<Option<string>>)
      requires Valid() && save.inFlight
      modifies this
      ensures Valid() && State() == SaveReplied(old(State()), reply).next
    {
      save := save.(inFlight := false, ticking := false);
      if reply.Some? {
        save := save.(progress := 100);
        fetch := fetch.(text := SavedText);
        results := results.(link := if Truthy(reply.value) then reply.value else None);
      } else {
        fetch := fetch.(text := SaveFailedText);
      }
      fetch := fetch.(busy := false);
      save := save.(resets := save.resets + 1);
    }

    /** The 2-second reset of the progress bar. */
    method OnProgressReset()
      requires Valid() && save.resets > 0
      modifies this
      ensures Valid() && State() == ProgressReset(old(State())).next
    {
      save := save.(progress := 0, resets := save.resets - 1);
    }
  }
}
