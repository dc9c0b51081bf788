/** The page Stripe returns to: it verifies the checkout session once and
    shows the result with an icon, a message and an action button. */
module ReturnPage {
  import opened Wrappers
  import opened Text

  const Pending := "pending"
  const Success := "success"
  const Error := "error"

  const Checking := "Checking payment status..."
  const Paid := "Payment successful! Thank you for subscribing."
  const StillPending := "\U{23F3} Payment is still pending..."
  const VerifyFailed := "\U{26A0}\U{FE0F} Error verifying payment."

  /** The outcome of the verification request: the response body's
      `status`, or a failed request. */
  datatype VerifyReply = Answered(status: Option<string>) | RequestFailed

  /** The status and message a reply leads to. */
  function AfterReply(reply: VerifyReply): (r: (string, string))
    ensures reply == Answered(Some("paid")) ==> r == (Success, Paid)
    ensures reply.Answered? && reply.status != Some("paid") ==> r == (Pending, StillPending)
    ensures reply.RequestFailed? ==> r == (Error, VerifyFailed)
  {
    match reply
    case Answered(status) => if status == Some("paid") then (Success, Paid) else (Pending, StillPending)
    case RequestFailed => (Error, VerifyFailed)
  }

  datatype Icon = CheckCircle | ErrorOutline | Hourglass

  /** `renderIcon`: any status other than success and error shows the hourglass. */
  function RenderIcon(status: string): (i: Icon)
    ensures i == CheckCircle <==> status == Success
    ensures i == ErrorOutline <==> status == Error
  {
    if status == Success then CheckCircle
    else if status == Error then ErrorOutline
    else Hourglass
  }

  datatype ActionButton = GoToUpload(href: string) | Retry

  /** `renderActionButton`: to the upload page after success, a reload
      after an error, none while pending. */
  function RenderActionButton(status: string): (b: Option<ActionButton>)
    ensures b == Some(GoToUpload("/upload")) <==> status == Success
    ensures b == Some(Retry) <==> status == Error
    ensures b.None? <==> status != Success && status != Error
  {
    if status == Success then Some(GoToUpload("/upload"))
    else if status == Error then Some(Retry)
    else None
  }

  /** The progress spinner shows only while pending. */
  function ShowsSpinner(status: string): bool {
    status == Pending
  }

  /** Every state the page can reach has one consistent presentation: a
      button exactly when it is not pending, the spinner exactly when it
      is, and the icon that goes with the status. */
  lemma ReachablePresentation(reply: VerifyReply)
    ensures var (status, _) := AfterReply(reply);
      && (RenderActionButton(status).None? <==> ShowsSpinner(status))
      && (RenderIcon(status) == Hourglass <==> ShowsSpinner(status))
    ensures RenderActionButton(Pending).None? && RenderIcon(Pending) == Hourglass && ShowsSpinner(Pending)
  {
  }

  class ReturnView {
    var status: string
    var message: string

    constructor()
      ensures status == Pending && message == Checking
    {
      status := Pending;
      message := Checking;
    }

    /** The effect on mount: the request for a present `session_id`, none
      otherwise; the state is not touched until the reply. */
    method Mount(sessionId: Option<string>) returns (request: Option<string>)
      ensures Truthy(sessionId) ==> request == Some("/api/payment/verify-session/" + sessionId.value + "/")
      ensures !Truthy(sessionId) ==> request.None?
    {
      if Truthy(sessionId) {
        request := Some("/api/payment/verify-session/" + sessionId.value + "/");
      } else {
        request := None;
      }
    }

    method OnVerifyReply(reply: VerifyReply)
      modifies this
      ensures (status, message) == AfterReply(reply)
    {
      var r := AfterReply(reply);
      status, message := r.0, r.1;
    }
  }
}
