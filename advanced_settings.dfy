/** The settings dialog of the dashboard: starts a transcription job for
    one video and polls its status every ten seconds until the job reports
    a terminal jobState. The self-rescheduling `setTimeout` is an explicit
    "poll timer pending" state; every server answer is an argument. */
module AdvancedSettings {
  import opened Wrappers
  import opened Text
  import opened TranscriptionPoll

  /** What the dialog is waiting for. `attempt` counts the status queries
      of the current job from 0. */
  datatype Outstanding =
    | Idle
    | AwaitStart
    | AwaitStatus(job: string, attempt: nat)
    | AwaitPollTimer(job: string, attempt: nat)

  datatype Request =
    | StartTranscription(videoId: Option<int>)
    | QueryStatus(job: string)

  /** The dialog's state: `loading`, `status`, and the work in flight. */
  datatype Dialog = Dialog(video: Option<Video>, loading: bool, status: string, outstanding: Outstanding)

  /** The state after an event and the request the event sends, if any. */
  datatype Step = Step(next: Dialog, sent: Option<Request>)

  /** `loading` is set exactly while a request or a poll timer is pending,
      which is what disables the Transcribe button. */
  ghost predicate Invariant(d: Dialog) {
    d.loading <==> !d.outstanding.Idle?
  }

  function Opened(video: Option<Video>): (d: Dialog)
    ensures Invariant(d) && !d.loading && d.status == ""
  {
    Dialog(video, false, "", Idle)
  }

  /** `handleTranscribe`. The button is disabled while `loading`. */
  function Transcribe(d: Dialog): (r: Step)
    requires Invariant(d) && !d.loading
    ensures Invariant(r.next)
    ensures d.video.None? ==> r.next == d && r.sent.None?
    ensures d.video.Some? ==>
      && r.sent == Some(StartTranscription(d.video.value.id))
      && r.next.loading && r.next.status == StartingText && r.next.outstanding == AwaitStart
  {
    if d.video.None? then Step(d, None)
    else Step(d.(loading := true, status := StartingText, outstanding := AwaitStart),
              Some(StartTranscription(d.video.value.id)))
  }

  /** The answer to the start request: a job id, or `None` when the request
      failed or the answer carried no `job.id`. */
  function StartReplied(d: Dialog, job: Option<string>): (r: Step)
    requires Invariant(d) && d.outstanding.AwaitStart?
    ensures Invariant(r.next)
    ensures !IsJobId(job) ==>
      r.sent.None? && r.next == d.(loading := false, status := StartFailedText, outstanding := Idle)
    ensures IsJobId(job) ==>
      && r.sent == Some(QueryStatus(job.value))
      && r.next == d.(status := StartedText, outstanding := AwaitStatus(job.value, 0))
  {
    if IsJobId(job) then
      Step(d.(status := StartedText, outstanding := AwaitStatus(job.value, 0)), Some(QueryStatus(job.value)))
    else
      Step(d.(loading := false, status := StartFailedText, outstanding := Idle), None)
  }

  /** The answer to status query number `attempt`: the job's jobState, or
      `None` when the query failed. */
  function StatusReplied(d: Dialog, jobState: Option<string>): (r: Step)
    requires Invariant(d) && d.outstanding.AwaitStatus?
    ensures Invariant(r.next) && r.sent.None? && r.next.video == d.video
    ensures jobState.None? ==> !r.next.loading && r.next.status == PollErrorText && r.next.outstanding.Idle?
    ensures jobState == Some("automatic_done") ==> !r.next.loading && r.next.status == DoneText && r.next.outstanding.Idle?
    ensures jobState == Some("error") || jobState == Some("failed") ==>
      !r.next.loading && r.next.status == FailedText && r.next.outstanding.Idle?
    ensures jobState.Some? && Classify(jobState.value) == Running ==>
      && r.next.loading
      && r.next.status == AttemptText(d.outstanding.attempt, jobState.value)
      && r.next.outstanding == AwaitPollTimer(d.outstanding.job, d.outstanding.attempt + 1)
  {
    match jobState
    case None => Step(d.(loading := false, status := PollErrorText, outstanding := Idle), None)
    case Some(l) =>
      var shown := d.(status := AttemptText(d.outstanding.attempt, l));
      match Classify(l)
      case Done => Step(shown.(status := DoneText, loading := false, outstanding := Idle), None)
      case Failed => Step(shown.(status := FailedText, loading := false, outstanding := Idle), None)
      case Running =>
        Step(shown.(outstanding := AwaitPollTimer(d.outstanding.job, d.outstanding.attempt + 1)), None)
  }

  /** The ten-second timer of a re-poll fires: the next status query goes
      out for the same job, with the already incremented attempt number. */
  function PollTimerFired(d: Dialog): (r: Step)
    requires Invariant(d) && d.outstanding.AwaitPollTimer?
    ensures Invariant(r.next)
    ensures r.sent == Some(QueryStatus(d.outstanding.job))
    ensures r.next == d.(outstanding := AwaitStatus(d.outstanding.job, d.outstanding.attempt))
  {
    Step(d.(outstanding := AwaitStatus(d.outstanding.job, d.outstanding.attempt)), Some(QueryStatus(d.outstanding.job)))
  }

  /** Everything that can happen to the dialog. */
  datatype Event =
    | TranscribeClicked
    | StartAnswered(job: Option<string>)
    | StatusAnswered(jobState: Option<string>)
    | PollTimerElapsed

  /** An event can happen: the button is enabled, or the awaited answer or timer is the one pending. */
  predicate Enabled(d: Dialog, e: Event) {
    match e
    case TranscribeClicked => !d.loading
    case StartAnswered(_) => d.outstanding.AwaitStart?
    case StatusAnswered(_) => d.outstanding.AwaitStatus?
    case PollTimerElapsed => d.outstanding.AwaitPollTimer?
  }

  function Apply(d: Dialog, e: Event): (r: Step)
    requires Invariant(d) && Enabled(d, e)
    ensures Invariant(r.next)
    // the attempt counter of a job only grows
    ensures d.outstanding.AwaitStatus? && r.next.outstanding.AwaitPollTimer? ==>
      r.next.outstanding.job == d.outstanding.job && r.next.outstanding.attempt == d.outstanding.attempt + 1
    ensures d.outstanding.AwaitPollTimer? && r.next.outstanding.AwaitStatus? ==>
      r.next.outstanding.job == d.outstanding.job && r.next.outstanding.attempt == d.outstanding.attempt
    // a job starts only from an idle dialog, and leaving idle always sends a start request
    ensures r.sent.Some? && r.sent.value.StartTranscription? ==> d.outstanding.Idle? && !r.next.outstanding.Idle?
    ensures d.outstanding.Idle? && !r.next.outstanding.Idle? ==> r.sent.Some? && r.sent.value.StartTranscription?
  {
    match e
    case TranscribeClicked => Transcribe(d)
    case StartAnswered(job) => StartReplied(d, job)
    case StatusAnswered(jobState) => StatusReplied(d, jobState)
    case PollTimerElapsed => PollTimerFired(d)
  }

  /** `events` can happen one after the other from `d`. */
  ghost predicate Runs(d: Dialog, events: seq<Event>)
    requires Invariant(d)
    decreases |events|
  {
    events == [] || (Enabled(d, events[0]) && Runs(Apply(d, events[0]).next, events[1..]))
  }

  /** The requests sent along a run, in order. */
  ghost function Requests(d: Dialog, events: seq<Event>): seq<Request>
    requires Invariant(d) && Runs(d, events)
    decreases |events|
  {
    if events == [] then []
    else
      var s := Apply(d, events[0]);
      (if s.sent.Some? then [s.sent.value] else []) + Requests(s.next, events[1..])
  }

  /** The number of steps of a run that end a job: from waiting on
      something to idle. */
  ghost function Terminations(d: Dialog, events: seq<Event>): nat
    requires Invariant(d) && Runs(d, events)
    decreases |events|
  {
    if events == [] then 0
    else
      var s := Apply(d, events[0]);
      (if !d.outstanding.Idle? && s.next.outstanding.Idle? then 1 else 0) + Terminations(s.next, events[1..])
  }

  function CountStarts(rs: seq<Request>): nat {
    if rs == [] then 0 else (if rs[0].StartTranscription? then 1 else 0) + CountStarts(rs[1..])
  }

  lemma {:induction false} CountStartsAppend(a: seq<Request>, b: seq<Request>)
    ensures CountStarts(a + b) == CountStarts(a) + CountStarts(b)
    decreases |a|
  {
    if a == [] {
      assert a + b == b;
    } else {
      assert (a + b)[0] == a[0];
      assert (a + b)[1..] == a[1..] + b;
      CountStartsAppend(a[1..], b);
    }
  }

  /** The dialog never runs two jobs at once: along any run, every start
      request after the first is preceded by the end of the previous job,
      so the start requests never outnumber the finished jobs by more than
      one (by none when the run begins mid-job). */
  lemma {:induction false} OneJobAtATime(d: Dialog, events: seq<Event>)
    requires Invariant(d) && Runs(d, events)
    ensures CountStarts(Requests(d, events)) <= Terminations(d, events) + (if d.outstanding.Idle? then 1 else 0)
    decreases |events|
  {
    if events != [] {
      var s := Apply(d, events[0]);
      OneJobAtATime(s.next, events[1..]);
      CountStartsAppend(if s.sent.Some? then [s.sent.value] else [], Requests(s.next, events[1..]));
    }
  }

  /** The component itself: its `loading` and `status` state, the `video`
      prop, and the poll chain it has in flight. */
  class SettingsDialog {
    var video: Option<Video>
    var loading: bool
    var status: string
    var outstanding: Outstanding

    function State(): Dialog
      reads this
    {
      Dialog(video, loading, status, outstanding)
    }

    ghost predicate Valid()
      reads this
    {
      Invariant(State())
    }

    constructor (v: Option<Video>)
      ensures Valid() && State() == Opened(v)
    {
      video := v;
      loading := false;
      status := "";
      outstanding := Idle;
    }

    /** `handleTranscribe`: the click on the enabled Transcribe button. */
    method HandleTranscribe() returns (sent: Option<Request>)
      requires Valid() && !loading
      modifies this
      ensures Valid()
      ensures State() == Transcribe(old(State())).next && sent == Transcribe(old(State())).sent
    {
      if video.None? {
        return None;
      }
      loading := true;
      status := StartingText;
      outstanding := AwaitStart;
      sent := Some(StartTranscription(video.value.id));
    }

    /** The start request's answer: a job id, or `None` for an error or a missing `job.id`. */
    method OnStartReply(job: Option<string>) returns (sent: Option<Request>)
      requires Valid() && outstanding.AwaitStart?
      modifies this
      ensures Valid()
      ensures State() == StartReplied(old(State()), job).next && sent == StartReplied(old(State()), job).sent
    {
      if !IsJobId(job) {
        status := StartFailedText;
        loading := false;
        outstanding := Idle;
        return None;
      }
      status := StartedText;
      outstanding := AwaitStatus(job.value, 0);
      sent := Some(QueryStatus(job.value));
    }

    /** One poll tick's answer: the job's `state` label, or `None` for a failed query. */
    method OnStatusReply(jobState: Option<string>)
      requires Valid() && outstanding.AwaitStatus?
      modifies this
      ensures Valid()
      ensures State() == StatusReplied(old(State()), jobState).next
    {
      if jobState.None? {
        status := PollErrorText;
        loading := false;
        outstanding := Idle;
        return;
      }
      var attempt := outstanding.attempt;
      status := AttemptText(attempt, jobState.value);
      var c := Classify(jobState.value);
      if c == Done {
        status := DoneText;
        loading := false;
        outstanding := Idle;
      } else if c == Failed {
        status := FailedText;
        loading := false;
        outstanding := Idle;
      } else {
        outstanding := AwaitPollTimer(outstanding.job, attempt + 1);
      }
    }

    /** The re-poll timer fires. */
    method OnPollTimer() returns (sent: Option<Request>)
      requires Valid() && outstanding.AwaitPollTimer?
      modifies this
      ensures Valid()
      ensures State() == PollTimerFired(old(State())).next && sent == PollTimerFired(old(State())).sent
    {
      var job := outstanding.job;
      outstanding := AwaitStatus(job, outstanding.attempt);
      sent := Some(QueryStatus(job));
    }
  }
}
