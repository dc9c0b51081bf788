/** The backend's payment table: the `Payment` model's fields that the
    checkout view and the Stripe webhook read and write, and the two
    operations they perform on the table (insert one record, set the
    status of the records of one checkout session). */
module PaymentRecords {
  import opened Wrappers

  /** A `Payment` row. `amount` is in whole dollars (every amount the
      checkout view records is an integer); `status` defaults to "pending". */
  datatype Payment = Payment(user: int, plan: string, amount: int, stripeSessionId: Option<string>, status: string)

  const DefaultStatus: string := "pending"

  /** `Payment.objects.create(user=…, plan=…, amount=…, stripe_session_id=…)`: the status takes its default. */
  function NewPayment(user: int, plan: string, amount: int, sessionId: string): (p: Payment)
    ensures p.status == DefaultStatus && p.stripeSessionId == Some(sessionId)
    ensures p.user == user && p.plan == plan && p.amount == amount
  {
    Payment(user, plan, amount, Some(sessionId), DefaultStatus)
  }

  /** `Payment.objects.filter(stripe_session_id=sessionId).update(status=status)`.
      Django reads `filter(x=None)` as `x IS NULL`, so an absent session id
      selects the rows without one: in both cases, equality of the optional ids. */
  function WithStatus(rows: seq<Payment>, sessionId: Option<string>, status: string): (r: seq<Payment>)
    ensures |r| == |rows|
    ensures forall i :: 0 <= i < |rows| && rows[i].stripeSessionId == sessionId ==> r[i] == rows[i].(status := status)
    ensures forall i :: 0 <= i < |rows| && rows[i].stripeSessionId != sessionId ==> r[i] == rows[i]
  {
    seq(|rows|, i requires 0 <= i < |rows| =>
      if rows[i].stripeSessionId == sessionId then rows[i].(status := status) else rows[i])
  }

  /** Setting the same status twice leaves what setting it once does. */
  lemma WithStatusIdempotent(rows: seq<Payment>, sessionId: Option<string>, status: string)
    ensures WithStatus(WithStatus(rows, sessionId, status), sessionId, status) == WithStatus(rows, sessionId, status)
  {
    var once := WithStatus(rows, sessionId, status);
    var twice := WithStatus(once, sessionId, status);
    forall i | 0 <= i < |rows|
      ensures twice[i] == once[i]
    {
      assert once[i].stripeSessionId == rows[i].stripeSessionId;
    }
  }

  /** The table, `Payment.objects`. */
  class PaymentTable {
    var rows: seq<Payment>

    constructor (initial: seq<Payment>)
      ensures rows == initial
    {
      rows := initial;
    }

    /** Inserts one record at the end. */
    method Create(p: Payment)
      modifies this
      ensures rows == old(rows) + [p]
    {
      rows := rows + [p];
    }

    /** Sets the status of the records of one session, in place. */
    method UpdateStatus(sessionId: Option<string>, status: string)
      modifies this
      ensures rows == WithStatus(old(rows), sessionId, status)
    {
      rows := WithStatus(rows, sessionId, status);
    }
  }
}
