/** What the two transcription poll loops of the dashboard (the settings
    dialog and the stock-clip page) share: the video record they start a job
    for, how they read the `state` label of a status reply, and the status
    texts they show. */
module TranscriptionPoll {
  import opened Wrappers
  import opened Text

  /** The video a page was opened for (`location.state.video` or the
      dialog's `video` prop); `id` is absent when the record has none. */
  datatype Video = Video(id: Option<int>, fileName: string)

  /** How a poll tick reads the label: the job finished, the job failed, or
      the job is still running (every other label, including an absent one,
      which the page renders as "undefined"). */
  datatype LabelClass = Done | Failed | Running

  function Classify(jobState: string): (c: LabelClass)
    ensures c == Done <==> jobState == "automatic_done"
    ensures c == Failed <==> jobState == "error" || jobState == "failed"
  {
    if jobState == "automatic_done" then Done
    else if jobState == "error" || jobState == "failed" then Failed
    else Running
  }

  /** The progress text of poll number `attempt` (counted from 0). */
  function AttemptText(attempt: nat, jobState: string): string {
    "Attempt " + NatToString(attempt + 1) + ": " + jobState
  }

  const StartingText: string := "Starting transcription..."
  const StartedText: string := "Transcription started. Waiting for completion..."
  const DoneText: string := "\U{2705} Transcription complete!"
  const FailedText: string := "\U{274C} Transcription failed"
  const StartFailedText: string := "\U{274C} Failed to start transcription"
  const PollErrorText: string := "\U{26A0}\U{FE0F} Error checking status"

  /** The success and failure markers the stock-clip page looks for. */
  const CheckMark: char := '\U{2705}'
  const CrossMark: char := '\U{274C}'

  /** `job?.id` used as a truthy identifier. */
  predicate IsJobId(job: Option<string>) {
    Truthy(job)
  }
}
