/**
 The add-on's beacon logic: the guard predicate, the refund flagger, the
 completion handler and the dispatch routine that builds the Measurement
 Protocol "event" hit and records the completion flag.

 Each host function is a pure transition from a `State` (and its inputs) to a
 `Transition`: the next state and an `Outcome` saying what left the plugin.
 */
module Beacon {
  import opened Store

  /** One parameter of the hit before URL encoding: a number, a text or the donation total. */
  datatype Value = Int(i: int) | Str(s: string) | Money(a: Amount)

  type HitArgs = map<string, Value>

  /**
   The host's extension points, uninterpreted:
   - `shouldSendFilter` is the `give_should_send_beacon` filter, applied to `true` and the payment id;
   - `hitArgsFilter` is the `give_google_analytics_record_offsite_payment_hit_args` filter;
   - `settingEnabled` is the host's `give_is_setting_enabled` test on an option value.
   */
  datatype Hooks = Hooks(
    shouldSendFilter: (bool, PaymentId) -> bool,
    hitArgsFilter: HitArgs -> HitArgs,
    settingEnabled: string -> bool)

  /** What a call sends out: nothing, only an audit note, or one hit request. */
  datatype Outcome = NoOp | NoteOnly(msg: string) | Request(args: HitArgs)

  datatype Transition = Transition(next: State, out: Outcome)

  /** The transport's answer to the hit request: whether it is an error, and the response code. */
  datatype Transport = Transport(isError: bool, code: int)

  const MissingIdNote := "Google Analytics donation tracking beacon could not send due to missing GA Tracking ID."
  const SentNote := "Google Analytics ecommerce tracking beacon sent."
  const DefaultCategory := "Donations"

  /** The keys of the hit. */
  const HitKeys: set<string> :=
    {"v", "tid", "cid", "t", "ec", "ea", "el", "ti", "tr", "ta", "pal", "pa",
     "pr1id", "pr1nm", "pr1ca", "pr1br", "pr1qt"}

  /** Test tracking is on exactly when the host reports the test-tracking option enabled. */
  predicate TrackTesting(s: State, h: Hooks) {
    h.settingEnabled(s.config.testTrackingOption)
  }

  /**
   The guard `give_should_send_beacon`: false once the completion flag is set,
   for any status other than `publish`, and in test mode without test tracking;
   otherwise whatever the filter makes of `true`.
   */
  predicate ShouldSendBeacon(s: State, h: Hooks, id: PaymentId)
    ensures Lookup(s, id).beaconSent ==> !ShouldSendBeacon(s, h, id)
    ensures Lookup(s, id).status != "publish" ==> !ShouldSendBeacon(s, h, id)
    ensures s.config.testMode && !h.settingEnabled(s.config.testTrackingOption) ==> !ShouldSendBeacon(s, h, id)
    ensures ShouldSendBeacon(s, h, id) <==>
      && !Lookup(s, id).beaconSent
      && Lookup(s, id).status == "publish"
      && !(s.config.testMode && !h.settingEnabled(s.config.testTrackingOption))
      && h.shouldSendFilter(true, id)
  {
    var p := Lookup(s, id);
    if p.beaconSent then false
    else if p.status != "publish" then false
    else if s.config.testMode && !TrackTesting(s, h) then false
    else h.shouldSendFilter(true, id)
  }

  /** The payment category sent with the hit: the configured one unless it is empty. */
  function Category(c: Config): (cat: string)
    ensures !Empty(cat)
    ensures !Empty(c.category) ==> cat == c.category
    ensures Empty(c.category) ==> cat == DefaultCategory
  {
    if !Empty(c.category) then c.category else DefaultCategory
  }

  /**
   The hit parameters before the filter: fixed protocol values, the payment's
   id, form and total, the form title, and the configured tracking id,
   affiliation, list and category.
   */
  function HitArgsFor(s: State, id: PaymentId): (r: HitArgs)
    ensures r.Keys == HitKeys
    // fixed values
    ensures r["v"] == Int(1) && r["cid"] == Int(555) && r["t"] == Str("event")
    ensures r["ec"] == Str("Fundraising") && r["ea"] == Str("Donation Success")
    ensures r["pa"] == Str("purchase") && r["pr1br"] == Str("Fundraising") && r["pr1qt"] == Int(1)
    // values read from the payment and its form
    ensures r["ti"] == Str(id)
    ensures r["pr1id"] == Str(Lookup(s, id).formId)
    ensures r["el"] == r["pr1nm"] == Str(FormTitle(s, Lookup(s, id).formId))
    ensures r["tr"] == Money(Lookup(s, id).total)
    // values read from the configuration
    ensures r["tid"] == Str(s.config.uaCode)
    ensures r["ta"] == Str(s.config.affiliation) && r["pal"] == Str(s.config.list)
    ensures r["pr1ca"].Str? && !Empty(r["pr1ca"].s)
    ensures !Empty(s.config.category) ==> r["pr1ca"] == Str(s.config.category)
    ensures Empty(s.config.category) ==> r["pr1ca"] == Str(DefaultCategory)
  {
    var p := Lookup(s, id);
    var title := FormTitle(s, p.formId);
    map[
      "v" := Int(1),
      "tid" := Str(s.config.uaCode),
      "cid" := Int(555),
      "t" := Str("event"),
      "ec" := Str("Fundraising"),
      "ea" := Str("Donation Success"),
      "el" := Str(title),
      "ti" := Str(id),
      "tr" := Money(p.total),
      "ta" := Str(s.config.affiliation),
      "pal" := Str(s.config.list),
      "pa" := Str("purchase"),
      "pr1id" := Str(p.formId),
      "pr1nm" := Str(title),
      "pr1ca" := Str(Category(s.config)),
      "pr1br" := Str("Fundraising"),
      "pr1qt" := Int(1)
    ]
  }

  /**
   The success test on the transport's answer, as written: no transport error
   OR a 200 response code. A non-error answer with any code counts.
   */
  predicate Succeeded(t: Transport) {
    !t.isError || t.code == 200
  }

  /**
   `give_google_analytics_send_completed_beacon`. Without a tracking id it
   only records an audit note. Otherwise it sends one request with the
   filtered hit; if the transport answer passes the success test it sets the
   completion flag and appends the success note, and otherwise changes nothing.
   */
  function SendCompletedBeacon(s: State, h: Hooks, id: PaymentId, t: Transport): (r: Transition)
    ensures Empty(s.config.uaCode) ==>
      && r.out == NoteOnly(MissingIdNote)
      && Lookup(r.next, id) == Lookup(s, id).(notes := Lookup(s, id).notes + [MissingIdNote])
      && ChangesOnly(s, r.next, id)
    ensures !Empty(s.config.uaCode) ==> r.out == Request(h.hitArgsFilter(HitArgsFor(s, id)))
    ensures !Empty(s.config.uaCode) && Succeeded(t) ==>
      && Lookup(r.next, id) == Lookup(s, id).(beaconSent := true, notes := Lookup(s, id).notes + [SentNote])
      && ChangesOnly(s, r.next, id)
    ensures !Empty(s.config.uaCode) && !Succeeded(t) ==> r.next == s
  {
    var p := Lookup(s, id);
    if Empty(s.config.uaCode) then
      Transition(Put(s, id, AddNote(p, MissingIdNote)), NoteOnly(MissingIdNote))
    else
      var args := h.hitArgsFilter(HitArgsFor(s, id));
      if Succeeded(t) then
        Transition(Put(s, id, AddNote(p.(beaconSent := true), SentNote)), Request(args))
      else
        Transition(s, Request(args))
  }

  /**
   `give_google_analytics_completed_donation`, with the host's argument order
   (payment id, new status, old status). Does nothing once the completion flag
   is set; dispatches only on a `pending` to `publish` change.
   */
  function CompletedDonation(s: State, h: Hooks, id: PaymentId, newStatus: string, oldStatus: string, t: Transport)
    : (r: Transition)
    ensures Lookup(s, id).beaconSent ==> r == Transition(s, NoOp)
    ensures !(oldStatus == "pending" && newStatus == "publish") ==> r == Transition(s, NoOp)
    ensures !Lookup(s, id).beaconSent && oldStatus == "pending" && newStatus == "publish" ==>
      r == SendCompletedBeacon(s, h, id, t)
    ensures r.out.Request? <==>
      !Lookup(s, id).beaconSent && oldStatus == "pending" && newStatus == "publish" && !Empty(s.config.uaCode)
  {
    if Lookup(s, id).beaconSent then Transition(s, NoOp)
    else if oldStatus == "pending" && newStatus == "publish" then SendCompletedBeacon(s, h, id, t)
    else Transition(s, NoOp)
  }

  /** The query of the payment-history screen right after a payment update, carrying an `id`. */
  predicate RefundSignal(query: map<string, string>) {
    && "page" in query && query["page"] == "give-payment-history"
    && "give-message" in query && query["give-message"] == "payment-updated"
    && "id" in query
  }

  /**
   `give_google_analytics_admin_flag_beacon`, reading `$_GET` as `query`. It
   never sends or notes anything; on the refund signal for a refunded payment
   whose refund flag is unset it sets that flag and nothing else.
   */
  function AdminFlagBeacon(s: State, query: map<string, string>): (r: Transition)
    ensures r.out == NoOp
    ensures !RefundSignal(query) ==> r.next == s
    ensures RefundSignal(query) && Lookup(s, query["id"]).status != "refunded" ==> r.next == s
    ensures RefundSignal(query) && Lookup(s, query["id"]).refundBeaconSent ==> r.next == s
    ensures RefundSignal(query) && Lookup(s, query["id"]).status == "refunded" && !Lookup(s, query["id"]).refundBeaconSent ==>
      && Lookup(r.next, query["id"]) == Lookup(s, query["id"]).(refundBeaconSent := true)
      && ChangesOnly(s, r.next, query["id"])
  {
    if !("page" in query) || query["page"] != "give-payment-history" then Transition(s, NoOp)
    else if !("give-message" in query) || query["give-message"] != "payment-updated" then Transition(s, NoOp)
    else if !("id" in query) then Transition(s, NoOp)
    else
      var id := query["id"];
      var p := Lookup(s, id);
      if p.status != "refunded" then Transition(s, NoOp)
      else if p.refundBeaconSent then Transition(s, NoOp)
      else Transition(Put(s, id, p.(refundBeaconSent := true)), NoOp)
  }
}
