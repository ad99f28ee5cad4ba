# Give - Google Analytics: the donation beacon state machine in Dafny

The Give - Google Analytics add-on sends one Google Analytics Measurement
Protocol "event" hit when a donation completes, and records a refund flag
when an operator refunds a payment. Its logic is a small per-payment
idempotency state machine over two post-meta flags, `_give_ga_beacon_sent`
and `_give_ga_refund_beacon_sent`. This project models that state machine
with the host made explicit as immutable data:

- `store.dfy` (module `Store`): the host's data as one `State` value. It holds
  a map from payment id to a `Payment` record (status, form, total, the two
  flags, the audit notes in order), the form titles, and the add-on's `Config`
  (tracking id, affiliation, category, list, test mode, test-tracking option).
  `Empty` is PHP's `empty()` on a string option: true for `""` and `"0"`.
- `beacon.dfy` (module `Beacon`): the five PHP functions. The three handlers
  (`AdminFlagBeacon`, `CompletedDonation`, `SendCompletedBeacon`) are pure
  transitions `(State, inputs) -> Transition(next, out)`, whose `Outcome` is
  `NoOp`, `NoteOnly(msg)` or `Request(args)`. The guard `ShouldSendBeacon` and
  the test-tracking check `TrackTesting` are predicates on the state. The host's filters and its
  `give_is_setting_enabled` are uninterpreted functions in a `Hooks` value.
  The transport's answer to a hit is an input `Transport(isError, code)`.
- `lifecycle.dfy` (module `Lifecycle`): sequences of host events. These are
  the status-change hook, the admin footer, and the platform changing a
  status or the settings. It proves that flags are never cleared, notes are
  never removed, and each payment gets at most one delivered hit.
- `facts.dfy` (module `Facts`): properties relating two calls, the
  success-test quirk, and two example scenarios.

Behaviour kept exactly as the code has it:

- The success test at line 192 is `!is_wp_error || code == 200` (an OR).
  A non-error answer with any response code, 500 included, records the
  completion flag (`Facts.SuccessTestAsWritten`). For a `WP_Error`,
  `wp_remote_retrieve_response_code` returns `''`, and `200 == ''` is false,
  so in practice only non-error answers pass. The model takes the answer as
  an input pair, and there an error answer passes only with code 200.
- The completion handler takes `(payment_id, new_status, old_status)` in
  that order (`Facts.HandlerArgumentOrder`).
- The completion handler does not call `give_should_send_beacon`. The guard
  is modelled as the standalone predicate it is in this file, and the handler
  checks only the completion flag and the status pair.
- The refund flagger only sets its flag. It never sends a hit.

Further facts about the code that the model keeps:

- The refund flagger reads the query key `give-message` (line 53).
- The hit-argument filter is called with the argument map alone (line 165).
- The test-mode guard exists only in `give_should_send_beacon` (line 35).
  It is not part of the completion path.

## Model

| member | source | states |
|---|---|---|
| Beacon.ShouldSendBeacon | includes/give-google-analytics-functions.php:20-41 | false when the completion flag is set, when the status is not `publish`, or in test mode with test tracking off (test tracking per lines 90-96); otherwise exactly the `give_should_send_beacon` filter applied to `true` |
| Beacon.Category | includes/give-google-analytics-functions.php:160-162 | the hit category is never PHP-empty; it is the configured category when that is non-empty, else `Donations` |
| Beacon.HitArgsFor | includes/give-google-analytics-functions.php:155-183 | the unfiltered hit has exactly the 17 source keys; the fixed protocol values; `ti` is the payment id, `pr1id` the form id, `el` and `pr1nm` the form title, `tr` the total; `tid`, `ta` and `pal` come from the settings; `pr1ca` is the category or `Donations` |
| Beacon.SendCompletedBeacon | includes/give-google-analytics-functions.php:144-197 | empty tracking id: outcome is only the missing-id note, which is appended once to that payment, and nothing else changes; otherwise one request with the filtered hit; a passing answer sets the completion flag and appends the success note to that payment only; a failing answer changes nothing |
| Beacon.CompletedDonation | includes/give-google-analytics-functions.php:112-126 | with the flag set, or for any status pair other than `pending` to `publish`, no request and the same state; a request is sent if and only if the flag is unset, the pair is `pending` to `publish` and the tracking id is non-empty |
| Beacon.AdminFlagBeacon | includes/give-google-analytics-functions.php:46-79 | never sends or notes anything; same state when `page`, `give-message` or `id` is missing or wrong, when the payment is not `refunded`, or when its refund flag is set; otherwise it sets that payment's refund flag and changes nothing else |
| Lifecycle.Apply | includes/give-google-analytics-functions.php:46-128 | no host event clears a flag or removes a note; only the status-change hook can send a request |
| Lifecycle.Run | includes/give-google-analytics-functions.php:112-197 | across any sequence of events, every flag set at the start is still set and every payment's notes are extended, never rewritten |
| Lifecycle.NoRequestOnceSent | includes/give-google-analytics-functions.php:115-119 | once a payment's completion flag is set, no later event sends a hit for it |
| Lifecycle.AtMostOneDelivery | includes/give-google-analytics-functions.php:115-195 | across any sequence of events a payment gets at most one hit that passes the success test, and none if its flag was already set |
| Lifecycle.GuardClosedOnceSent | includes/give-google-analytics-functions.php:20-27 | once the completion flag is set the guard stays false after any events |
| Facts.AdminFlagIdempotent | includes/give-google-analytics-functions.php:71-79 | a second refund-flag call on the resulting state sends nothing and changes nothing |
| Facts.CompletedThenRepeated | includes/give-google-analytics-functions.php:115-195 | a passing completion hit sets the flag and appends the success note, and a repeated `pending` to `publish` notification is then a no-op |
| Facts.FailedHitCanBeRetried | includes/give-google-analytics-functions.php:189-197 | a failing answer leaves the state as it was, so the same notification dispatches again, and a passing answer to it then sets the completion flag |
| Facts.HandlerArgumentOrder | includes/give-google-analytics-functions.php:112-124 | with new status `pending` and old status `publish` the handler is a no-op |
| Facts.SuccessTestAsWritten | includes/give-google-analytics-functions.php:189-197 | for a payment without the flag and a non-empty tracking id, a non-error answer with any response code sets the completion flag and appends the success note; an error answer with a code other than 200 leaves the state unchanged |
| Facts.HitArgsIgnoreFlagsAndNotes | includes/give-google-analytics-functions.php:155-183 | the hit depends only on the tracking id, affiliation, category and list settings, the payment's form and total, and that form's title |
| Facts.MissingTrackingIdNotes | includes/give-google-analytics-functions.php:146-152 | with an empty tracking id a `pending` to `publish` notification appends exactly the missing-id note, sends no request and leaves the flag unset |
| Facts.ExampleCompletionHit | includes/give-google-analytics-functions.php:161-183 | payment `P1` with tracking id `UA-123` and no category yields `ec=Fundraising`, `ea=Donation Success`, `pr1ca=Donations`, `pa=purchase`, `pr1qt=1` |
| Facts.ExampleRefundFlag | includes/give-google-analytics-functions.php:49-79 | refunded payment `P2` on the payment-history screen after an update gets its refund flag and no request |

## Left out

- The HTTP transport (`wp_remote_post`, `is_wp_error`, `wp_remote_retrieve_response_code`) is network and WordPress library code. Its answer is the input `Transport(isError, code)`.
- URL building (`rawurlencode`, `add_query_arg`, lines 185-187) is PHP and WordPress library code. The model stops at the filtered argument map.
- Hook registration (`add_action`, lines 83 and 130) and the `ABSPATH` guard (lines 7-9) are CMS plumbing. The events of `Lifecycle.Event` stand for the hooks firing.
- Host helpers (`get_post_meta`, `update_post_meta`, `add_post_meta`, `give_get_option`, `give_is_test_mode`, `give_get_payment_status`, `give_get_payment_form_id`, `give_get_payment_amount`, `get_the_title`, `give_insert_payment_note`) are replaced by fields of `State`. `apply_filters` and `give_is_setting_enabled` are replaced by the functions in `Hooks`.
- Translation through `__()` is left out. The notes are the untranslated English strings.
- The donation total is an opaque `Amount` that is only passed through. Its arithmetic is not modelled.
- Ids are the text the host hands over. The host's numeric coercion of ids is not modelled.
- An id without a stored payment reads as a blank record with no status. Writes to it create the record.
- Options are strings, and PHP `empty()` is modelled for strings only (`""` and `"0"`). Null, `false` and array option values are not modelled.
- The PHP functions' return values (`false` or nothing) are ignored by the host's hook runner, so they are not modelled.
- `add_post_meta` without the unique flag may store duplicate rows. The flag is read with the single-value lookup, so it is modelled as a boolean.
- The key order of the hit is not modelled. The PHP array's order reaches the filter and `add_query_arg`; the model's argument map is unordered.
- Lifecycle.Run: flags and notes are proved never to be taken back only for the four modelled events. The host can also delete post meta or payments and edit a payment's form or total; those are not events of the model.
- Concurrent delivery of the same hook for one payment is not modelled. The host runs each hook call to completion.
