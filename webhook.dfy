/** `POST /api/webhooks/stripe`: Stripe's signed notification that a
    checkout session was paid. */
module WebhookRoute {
  import opened Outcomes
  import opened Projects

  const CheckoutCompleted := "checkout.session.completed"

  /** The parts of a verified Stripe event the route reads: its type, the
      session's id and payment intent, and the session's metadata. */
  datatype Event = Event(
    kind: string,
    sessionId: string,
    paymentIntent: Option<string>,
    projectId: Option<string>,
    userId: Option<string>)

  /** Whether the handler reaches the table update (line 64). */
  predicate Updates(signature: Option<string>, verified: Call<Event>) {
    && Present(signature)
    && verified.Returns?
    && verified.value.kind == CheckoutCompleted
    && Present(verified.value.projectId)
  }

  /** The reply and the new table for one delivery. `verified` is what
      signature verification (`constructEvent`) gave: the event, or the
      error it threw; `update` is the database's answer to the update. */
  function Handle(rows: Table, signature: Option<string>, verified: Call<Event>, update: Call<()>): (out: (Reply, Table))
    // nothing but a signed `checkout.session.completed` naming a project and
    // accepted by the database touches the table
    ensures !(Updates(signature, verified) && update.Returns?) ==> out.1 == rows
    ensures Updates(signature, verified) && update.Returns? ==>
      var e := verified.value;
      out.1 == MarkPaid(rows, e.projectId.value, e.userId, e.sessionId, e.paymentIntent)
    // the replies
    ensures !Present(signature) ==> out.0 == Reply(400, Error("No signature"))
    ensures Present(signature) && verified.Throws? ==>
      out.0 == Reply(400, Error("Webhook Error: " + verified.message))
    ensures Present(signature) && verified.Returns? && verified.value.kind != CheckoutCompleted ==>
      out.0 == Reply(200, Received)
    ensures Present(signature) && verified.Returns? && verified.value.kind == CheckoutCompleted
            && !Present(verified.value.projectId) ==>
      out.0 == Reply(400, Error("No project_id"))
    ensures Updates(signature, verified) ==>
      out.0 == match update
               case Throws(m) => Reply(500, Error(m))
               case Returns(_) => Reply(200, Received)
  {
    if !Present(signature) then (Reply(400, Error("No signature")), rows)
    else if verified.Throws? then (Reply(400, Error("Webhook Error: " + verified.message)), rows)
    else
      var e := verified.value;
      if e.kind != CheckoutCompleted then (Reply(200, Received), rows)
      else if !Present(e.projectId) then (Reply(400, Error("No project_id")), rows)
      else if update.Throws? then (Reply(500, Error(update.message)), rows)
      else (Reply(200, Received), MarkPaid(rows, e.projectId.value, e.userId, e.sessionId, e.paymentIntent))
  }

  /** At-least-once delivery is harmless: a second delivery of the same
      event gets the same reply and leaves the table as the first left it. */
  lemma RedeliveryIsIdempotent(rows: Table, signature: Option<string>, verified: Call<Event>, update: Call<()>)
    ensures var once := Handle(rows, signature, verified, update);
      Handle(once.1, signature, verified, update) == once
  {
    if Updates(signature, verified) && update.Returns? {
      var e := verified.value;
      MarkPaidIdempotent(rows, e.projectId.value, e.userId, e.sessionId, e.paymentIntent);
    }
  }

  /** A delivery keeps every row valid, moves rows only forward, and never
      touches a row's generation status or output image; it changes no row
      other than the one keyed by the event's project id, and that one only
      when its owner is the event's user. */
  lemma DeliveryPreserves(rows: Table, signature: Option<string>, verified: Call<Event>, update: Call<()>)
    requires TableValid(rows)
    ensures var r := Handle(rows, signature, verified, update).1;
      && TableValid(r)
      && TableAdvances(rows, r)
      && r.Keys == rows.Keys
      && (forall k | k in r :: r[k].status == rows[k].status && r[k].outputImageUrl == rows[k].outputImageUrl)
      && (forall k | k in r && r[k] != rows[k] ::
            Updates(signature, verified) && verified.value.projectId == Some(k)
            && verified.value.userId == Some(rows[k].owner))
  {
    if Updates(signature, verified) && update.Returns? {
      var e := verified.value;
      MarkPaidPreserves(rows, e.projectId.value, e.userId, e.sessionId, e.paymentIntent);
    }
  }

  /** A matching row ends up paid with the session and intent recorded;
      when no row matches, the table is unchanged and the reply is still
      `{received: true}`. */
  lemma PaymentRecorded(rows: Table, signature: Option<string>, e: Event)
    requires Updates(signature, Returns(e))
    ensures var out := Handle(rows, signature, Returns(e), Returns(()));
      && out.0 == Reply(200, Received)
      && (e.projectId.value in rows && e.userId == Some(rows[e.projectId.value].owner) ==>
            && out.1[e.projectId.value].paymentStatus == Paid
            && out.1[e.projectId.value].checkoutSessionId == Some(e.sessionId)
            && out.1[e.projectId.value].paymentIntentId == e.paymentIntent)
      && (e.projectId.value !in rows || e.userId != Some(rows[e.projectId.value].owner) ==> out.1 == rows)
  {
  }

  method Post(store: Store, signature: Option<string>, verified: Call<Event>, update: Call<()>)
    returns (reply: Reply)
    requires store.Valid()
    modifies store`rows
    ensures store.Valid()
    ensures (reply, store.rows) == Handle(old(store.rows), signature, verified, update)
  {
    if !Present(signature) {
      return Reply(400, Error("No signature"));
    }
    if verified.Throws? {
      return Reply(400, Error("Webhook Error: " + verified.message));
    }
    var event := verified.value;
    if event.kind == CheckoutCompleted {
      var projectId := event.projectId;
      var userId := event.userId;
      if !Present(projectId) {
        return Reply(400, Error("No project_id"));
      }
      if update.Throws? {
        return Reply(500, Error(update.message));
      }
      MarkPaidPreserves(store.rows, projectId.value, userId, event.sessionId, event.paymentIntent);
      store.rows := MarkPaid(store.rows, projectId.value, userId, event.sessionId, event.paymentIntent);
    }
    reply := Reply(200, Received);
  }
}
