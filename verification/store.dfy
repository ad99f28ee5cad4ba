/**
 The host platform's data, made explicit as immutable values.

 The donation platform keeps payments as posts with key-value metadata and a
 list of audit notes, and keeps the add-on's settings as options. Here all of
 it is one `State` value: a map from payment id to a `Payment` record, the form
 titles, and the add-on's `Config`. The plugin's functions read and write this
 value instead of calling the host's storage helpers.
 */
module Store {

  /** Payment and form ids as the text the host hands over (`$_GET['id']` is a string). */
  type PaymentId = string
  type FormId = string

  /** The donation total, passed through to the hit untouched; its arithmetic is not modelled. */
  datatype Amount = Amount(text: string)

  /**
   One payment as the plugin sees it: the platform's own fields (status, form,
   total), the two idempotency flags kept in post meta (`_give_ga_beacon_sent`
   and `_give_ga_refund_beacon_sent`), and the payment's audit notes in order.
   */
  datatype Payment = Payment(
    status: string,
    formId: FormId,
    total: Amount,
    beaconSent: bool,
    refundBeaconSent: bool,
    notes: seq<string>)

  /**
   What an id without a stored payment reads as: the host reports no status
   (the empty string stands for PHP's `false`, which equals no status literal),
   no meta flags and no notes.
   */
  const Blank: Payment := Payment("", "", Amount(""), false, false, [])

  /** The add-on's options: tracking id, affiliation, category, list, test mode and the test-tracking setting. */
  datatype Config = Config(
    uaCode: string,
    affiliation: string,
    category: string,
    list: string,
    testMode: bool,
    testTrackingOption: string)

  datatype State = State(
    payments: map<PaymentId, Payment>,
    formTitles: map<FormId, string>,
    config: Config)

  /** PHP's `empty()` on a string option: true for "" and for "0". */
  predicate Empty(v: string) {
    v == "" || v == "0"
  }

  /** Reads a payment; an id with no entry reads as `Blank`. */
  function Lookup(s: State, id: PaymentId): (p: Payment)
    ensures id !in s.payments ==> p == Blank
    ensures id in s.payments ==> p == s.payments[id]
  {
    if id in s.payments then s.payments[id] else Blank
  }

  /** The title the host reports for a form; a missing form has an empty title. */
  function FormTitle(s: State, formId: FormId): string {
    if formId in s.formTitles then s.formTitles[formId] else ""
  }

  /** Everything in `s'` other than the payment `id` reads exactly as in `s`. */
  ghost predicate ChangesOnly(s: State, s': State, id: PaymentId) {
    && s'.config == s.config
    && s'.formTitles == s.formTitles
    && forall other :: other != id ==> Lookup(s', other) == Lookup(s, other)
  }

  /** Stores `p` as the payment `id`. */
  function Put(s: State, id: PaymentId, p: Payment): (r: State)
    ensures Lookup(r, id) == p
    ensures ChangesOnly(s, r, id)
  {
    s.(payments := s.payments[id := p])
  }

  /** Appends one audit note to a payment (`give_insert_payment_note`). */
  function AddNote(p: Payment, msg: string): (r: Payment)
    ensures r.notes == p.notes + [msg]
    ensures r.(notes := p.notes) == p
  {
    p.(notes := p.notes + [msg])
  }
}
