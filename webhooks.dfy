/** `stripe_webhook`: verifies the event Stripe posts, dispatches on its
    type and, for a completed checkout, marks the session's payments paid.
    Signature verification is Stripe's library and appears as its result:
    the verified event, or none when the payload or the signature is bad. */
module Webhooks {
  import opened Wrappers
  import opened PaymentRecords

  /** The fields of a verified event the handlers read: `type`, and the
      data object's `id`, `customer_details.email` and `customer`. */
  datatype WebhookEvent = WebhookEvent(eventType: string, objectId: Option<string>, customerEmail: Option<string>,
                                       customer: Option<string>)

  datatype Handler = CheckoutCompleted | InvoicePaid | SubscriptionCancelled | Unhandled

  /** The `if`/`elif` chain on `event["type"]`. */
  function Dispatch(eventType: string): (h: Handler)
    ensures h == CheckoutCompleted <==> eventType == "checkout.session.completed"
    ensures h == InvoicePaid <==> eventType == "invoice.payment_succeeded"
    ensures h == SubscriptionCancelled <==> eventType == "customer.subscription.deleted"
  {
    if eventType == "checkout.session.completed" then CheckoutCompleted
    else if eventType == "invoice.payment_succeeded" then InvoicePaid
    else if eventType == "customer.subscription.deleted" then SubscriptionCancelled
    else Unhandled
  }

  /** The table after a verified event: a completed checkout marks the
      payments of its session paid; every other event type leaves the
      table alone (the invoice and cancellation handlers only log). */
  function AfterEvent(rows: seq<Payment>, e: WebhookEvent): (r: seq<Payment>)
    ensures Dispatch(e.eventType) != CheckoutCompleted ==> r == rows
    ensures Dispatch(e.eventType) == CheckoutCompleted ==> r == WithStatus(rows, e.objectId, "paid")
  {
    match Dispatch(e.eventType)
    case CheckoutCompleted => WithStatus(rows, e.objectId, "paid")
    case _ => rows
  }

  /** The webhook's status code and the table it leaves: 400 and no change
      for an unverified event, otherwise 200 whatever the type. */
  datatype Reply = Reply(status: int, rows: seq<Payment>)

  function Webhook(rows: seq<Payment>, event: Option<WebhookEvent>): (r: Reply)
    ensures event.None? ==> r == Reply(400, rows)
    ensures event.Some? ==> r.status == 200 && r.rows == AfterEvent(rows, event.value)
    ensures |r.rows| == |rows|
  {
    match event
    case None => Reply(400, rows)
    case Some(e) => Reply(200, AfterEvent(rows, e))
  }

  /** A completed checkout marks exactly the records of its session paid. */
  lemma CheckoutMarksSessionPaid(rows: seq<Payment>, e: WebhookEvent, i: int)
    requires e.eventType == "checkout.session.completed" && 0 <= i < |rows|
    ensures var r := Webhook(rows, Some(e)).rows;
      && (rows[i].stripeSessionId == e.objectId ==> r[i].status == "paid" && r[i] == rows[i].(status := "paid"))
      && (rows[i].stripeSessionId != e.objectId ==> r[i] == rows[i])
  {
  }

  /** Stripe may deliver an event more than once; a second delivery
      changes nothing. */
  lemma {:induction false} RedeliveryChangesNothing(rows: seq<Payment>, e: WebhookEvent)
    ensures var once := Webhook(rows, Some(e));
      Webhook(once.rows, Some(e)) == once
  {
    if Dispatch(e.eventType) == CheckoutCompleted {
      WithStatusIdempotent(rows, e.objectId, "paid");
    }
  }

  /** The checkout handler as written: its `update` also sets `paid_at`,
      a field the `Payment` model does not have, so Django raises before
      running the query, nothing is updated and the webhook answers 500. */
  function WebhookAsWritten(rows: seq<Payment>, event: Option<WebhookEvent>): (r: Reply)
    ensures event.None? ==> r == Reply(400, rows)
    ensures r.rows == rows
    ensures event.Some? && Dispatch(event.value.eventType) == CheckoutCompleted ==> r.status == 500
    ensures event.Some? && Dispatch(event.value.eventType) != CheckoutCompleted ==> r == Webhook(rows, event)
  {
    match event
    case None => Reply(400, rows)
    case Some(e) =>
      if Dispatch(e.eventType) == CheckoutCompleted then Reply(500, rows) else Reply(200, rows)
  }

  /** As written, a completed checkout for a pending payment leaves it
      pending and the webhook fails; with the update of the status alone,
      it is paid and the webhook answers 200. */
  lemma CheckoutLeavesPendingAsWritten()
    ensures var rows := [Payment(1, "monthly", 49, Some("cs_1"), "pending")];
      var e := Some(WebhookEvent("checkout.session.completed", Some("cs_1"), None, None));
      && WebhookAsWritten(rows, e) == Reply(500, rows)
      && WebhookAsWritten(rows, e).rows[0].status == "pending"
      && Webhook(rows, e).status == 200 && Webhook(rows, e).rows[0].status == "paid"
  {
  }

  /** The endpoint with the table: the table is updated in place. */
  method StripeWebhook(table: PaymentTable, event: Option<WebhookEvent>) returns (status: int)
    modifies table
    ensures var r := Webhook(old(table.rows), event); status == r.status && table.rows == r.rows
  {
    if event.None? {
      return 400;
    }
    var e := event.value;
    if Dispatch(e.eventType) == CheckoutCompleted {
      table.UpdateStatus(e.objectId, "paid");
    }
    status := 200;
  }
}
