/**
 Properties relating two calls of the `Beacon` transitions, the success
 test's effect on the state, and two example scenarios.
 */
module Facts {
  import opened Store
  import opened Beacon

  /** Flagging a refund twice leaves the same state as flagging it once. */
  lemma AdminFlagIdempotent(s: State, query: map<string, string>)
    ensures AdminFlagBeacon(AdminFlagBeacon(s, query).next, query) == Transition(AdminFlagBeacon(s, query).next, NoOp)
  {
  }

  /**
   After a completion hit that passed the success test, a repeated
   `pending` to `publish` notification sends nothing and changes nothing.
   */
  lemma CompletedThenRepeated(s: State, h: Hooks, id: PaymentId, t1: Transport, t2: Transport)
    requires !Lookup(s, id).beaconSent && !Empty(s.config.uaCode) && Succeeded(t1)
    ensures
      var first := CompletedDonation(s, h, id, "publish", "pending", t1);
      && first.out == Request(h.hitArgsFilter(HitArgsFor(s, id)))
      && Lookup(first.next, id).beaconSent
      && Lookup(first.next, id).notes == Lookup(s, id).notes + [SentNote]
      && CompletedDonation(first.next, h, id, "publish", "pending", t2) == Transition(first.next, NoOp)
  {
  }

  /**
   A failed hit leaves the payment eligible: the same notification, answered
   successfully this time, is dispatched again.
   */
  lemma FailedHitCanBeRetried(s: State, h: Hooks, id: PaymentId, t1: Transport, t2: Transport)
    requires !Lookup(s, id).beaconSent && !Empty(s.config.uaCode) && !Succeeded(t1) && Succeeded(t2)
    ensures
      var first := CompletedDonation(s, h, id, "publish", "pending", t1);
      && first.out.Request?
      && first.next == s
      && CompletedDonation(first.next, h, id, "publish", "pending", t2).out.Request?
      && Lookup(CompletedDonation(first.next, h, id, "publish", "pending", t2).next, id).beaconSent
  {
  }

  /**
   The handler takes the new status before the old one: a notification whose
   statuses read `pending` then `publish` in call order is a change from
   `publish` back to `pending`, and sends nothing.
   */
  lemma HandlerArgumentOrder(s: State, h: Hooks, id: PaymentId, t: Transport)
    ensures CompletedDonation(s, h, id, "pending", "publish", t) == Transition(s, NoOp)
  {
  }

  /**
   The success test as written, at the level of the state: an answer that is
   not a transport error records the completion flag and the success note
   whatever its response code (500 included); an error answer with a code
   other than 200 leaves the state as it was.
   */
  lemma SuccessTestAsWritten(s: State, h: Hooks, id: PaymentId, code: int)
    requires !Lookup(s, id).beaconSent && !Empty(s.config.uaCode)
    ensures
      var r := CompletedDonation(s, h, id, "publish", "pending", Transport(false, code));
      && Lookup(r.next, id).beaconSent
      && Lookup(r.next, id).notes == Lookup(s, id).notes + [SentNote]
    ensures code != 200 ==> CompletedDonation(s, h, id, "publish", "pending", Transport(true, code)).next == s
  {
  }

  /**
   The hit reads only the tracking id, affiliation, category and list
   settings, the payment's form and total, and that form's title: the
   payment's status, flags and notes, the test-mode settings and every other
   form do not affect it.
   */
  lemma HitArgsIgnoreFlagsAndNotes(s: State, s': State, id: PaymentId)
    requires s'.config.uaCode == s.config.uaCode && s'.config.affiliation == s.config.affiliation
    requires s'.config.category == s.config.category && s'.config.list == s.config.list
    requires Lookup(s', id).formId == Lookup(s, id).formId && Lookup(s', id).total == Lookup(s, id).total
    requires FormTitle(s', Lookup(s, id).formId) == FormTitle(s, Lookup(s, id).formId)
    ensures HitArgsFor(s', id) == HitArgsFor(s, id)
  {
  }

  /**
   A payment with an empty tracking id gets one "missing GA Tracking ID" note
   per `pending` to `publish` notification and never its completion flag.
   */
  lemma MissingTrackingIdNotes(s: State, h: Hooks, id: PaymentId, t: Transport)
    requires Empty(s.config.uaCode) && !Lookup(s, id).beaconSent
    ensures
      var r := CompletedDonation(s, h, id, "publish", "pending", t);
      && r.out == NoteOnly(MissingIdNote)
      && !Lookup(r.next, id).beaconSent
      && Lookup(r.next, id).notes == Lookup(s, id).notes + [MissingIdNote]
  {
  }

  /** A payment `P1` with tracking id `UA-123` and no category configured. */
  lemma ExampleCompletionHit(title: string, total: Amount)
    ensures
      var s := State(
        map["P1" := Payment("publish", "F1", total, false, false, [])],
        map["F1" := title],
        Config("UA-123", "", "", "", false, ""));
      var r := HitArgsFor(s, "P1");
      && r["tid"] == Str("UA-123")
      && r["ec"] == Str("Fundraising") && r["ea"] == Str("Donation Success")
      && r["pr1ca"] == Str("Donations") && r["pa"] == Str("purchase") && r["pr1qt"] == Int(1)
      && r["el"] == Str(title) && r["tr"] == Money(total)
  {
  }

  /** A refunded payment `P2` with no refund flag, seen on the payment-history screen after an update. */
  lemma ExampleRefundFlag(p: Payment)
    requires p.status == "refunded" && !p.refundBeaconSent
    ensures
      var s := State(map["P2" := p], map[], Config("UA-123", "", "", "", false, ""));
      var q := map["page" := "give-payment-history", "give-message" := "payment-updated", "id" := "P2"];
      var r := AdminFlagBeacon(s, q);
      && r.out == NoOp
      && r.next.payments == map["P2" := p.(refundBeaconSent := true)]
  {
  }
}
