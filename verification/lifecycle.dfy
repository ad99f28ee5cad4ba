/**
 The add-on over time: a sequence of host events (status-change hook calls,
 admin page footers, and the platform's own status and settings changes) run
 through the transitions of `Beacon`. The properties here are the ones the
 per-payment flags exist for: flags and notes are never taken back, and a
 payment gets at most one hit recorded as delivered.
 */
module Lifecycle {
  import opened Store
  import opened Beacon

  /**
   What the host can do:
   - `StatusUpdated` calls the `give_update_payment_status` handler with the
     arguments the host passes and the transport's answer to any request;
   - `AdminFooter` calls the refund flagger with the page's query;
   - `HostSetStatus` and `HostConfigure` are the platform and the operator
     changing a payment's status or the add-on's settings.
   */
  datatype Event =
    | StatusUpdated(id: PaymentId, newStatus: string, oldStatus: string, answer: Transport)
    | AdminFooter(query: map<string, string>)
    | HostSetStatus(target: PaymentId, status: string)
    | HostConfigure(config: Config)

  /** From `s` to `s'` no flag is cleared and every payment's notes only grow at the end. */
  ghost predicate Grows(s: State, s': State) {
    forall p ::
      && (Lookup(s, p).beaconSent ==> Lookup(s', p).beaconSent)
      && (Lookup(s, p).refundBeaconSent ==> Lookup(s', p).refundBeaconSent)
      && Lookup(s, p).notes <= Lookup(s', p).notes
  }

  lemma GrowsTransitive(s0: State, s1: State, s2: State)
    requires Grows(s0, s1) && Grows(s1, s2)
    ensures Grows(s0, s2)
  {
  }

  /** One event. Whatever it is, no flag is cleared and no note is removed. */
  function Apply(s: State, h: Hooks, e: Event): (r: Transition)
    ensures Grows(s, r.next)
    ensures !e.StatusUpdated? ==> !r.out.Request?
  {
    match e
    case StatusUpdated(id, newStatus, oldStatus, answer) => CompletedDonation(s, h, id, newStatus, oldStatus, answer)
    case AdminFooter(query) => AdminFlagBeacon(s, query)
    case HostSetStatus(id, status) => Transition(Put(s, id, Lookup(s, id).(status := status)), NoOp)
    case HostConfigure(config) => Transition(s.(config := config), NoOp)
  }

  /** The state after a sequence of events: every flag set in `s` is still set, every note still there. */
  function Run(s: State, h: Hooks, evs: seq<Event>): (r: State)
    ensures Grows(s, r)
    decreases |evs|
  {
    if evs == [] then s
    else
      var t := Apply(s, h, evs[0]);
      var r := Run(t.next, h, evs[1..]);
      GrowsTransitive(s, t.next, r);
      r
  }

  /** Event `e` sent a hit for payment `p` that the success test accepted. */
  predicate Delivered(e: Event, out: Outcome, p: PaymentId) {
    e.StatusUpdated? && e.id == p && out.Request? && Succeeded(e.answer)
  }

  /** How many hits for `p` a sequence of events sends. */
  function Requests(s: State, h: Hooks, evs: seq<Event>, p: PaymentId): nat
    decreases |evs|
  {
    if evs == [] then 0
    else
      var t := Apply(s, h, evs[0]);
      (if evs[0].StatusUpdated? && evs[0].id == p && t.out.Request? then 1 else 0)
        + Requests(t.next, h, evs[1..], p)
  }

  /** How many of those hits the success test accepted (each one records the completion flag). */
  function Deliveries(s: State, h: Hooks, evs: seq<Event>, p: PaymentId): nat
    decreases |evs|
  {
    if evs == [] then 0
    else
      var t := Apply(s, h, evs[0]);
      (if Delivered(evs[0], t.out, p) then 1 else 0) + Deliveries(t.next, h, evs[1..], p)
  }

  /** Once the completion flag of `p` is set, no later event sends a hit for `p`. */
  lemma {:induction false} NoRequestOnceSent(s: State, h: Hooks, evs: seq<Event>, p: PaymentId)
    requires Lookup(s, p).beaconSent
    ensures Requests(s, h, evs, p) == 0
    decreases |evs|
  {
    if evs != [] {
      var t := Apply(s, h, evs[0]);
      assert Lookup(t.next, p).beaconSent;
      NoRequestOnceSent(t.next, h, evs[1..], p);
    }
  }

  /**
   At most one delivered hit per payment, whatever the events: none if the
   completion flag is already set, otherwise at most one.
   */
  lemma {:induction false} AtMostOneDelivery(s: State, h: Hooks, evs: seq<Event>, p: PaymentId)
    ensures Deliveries(s, h, evs, p) <= (if Lookup(s, p).beaconSent then 0 else 1)
    decreases |evs|
  {
    if evs != [] {
      var t := Apply(s, h, evs[0]);
      AtMostOneDelivery(t.next, h, evs[1..], p);
      if Delivered(evs[0], t.out, p) {
        assert !Lookup(s, p).beaconSent;
        assert Lookup(t.next, p).beaconSent;
      } else if Lookup(s, p).beaconSent {
        assert Lookup(t.next, p).beaconSent;
      }
    }
  }

  /** The guard stays closed for a payment once its completion flag is set. */
  lemma GuardClosedOnceSent(s: State, h: Hooks, evs: seq<Event>, p: PaymentId)
    requires Lookup(s, p).beaconSent
    ensures !ShouldSendBeacon(Run(s, h, evs), h, p)
  {
  }
}
