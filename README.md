# Subscription lifecycle of a paid Telegram channel bot

The bot sells access to a Telegram channel. Its whole state is one in-memory
table `DB`, which is mirrored to `data/subscribers.json`. The table maps a
Telegram user id, held as a string, to a record
`{expiry_ts, last_payment, status, expired_at?}`. Two handlers change it:

- **The payment webhook** (`instamojo_webhook`). It receives a payment-request
  id from Instamojo and asks Instamojo to verify it. It accepts the payment
  only when the verified status is "Completed", "Credit" or "Success" and the
  metadata carries an all-digit `telegram_user_id`. It then asks Telegram for
  a single-use invite link. Unless that request raises, it overwrites the
  user's record with a fresh active record that expires `SUBSCRIPTION_DAYS`
  days after now, saves the table and messages the user the link.
- **The expiry sweep** (`run_expiry`). It visits every record, moves each
  active record whose expiry is not after now to "expired" with an
  `expired_at` stamp, attempts to remove that user from the channel, and
  counts the records it changed. It saves the table only when the count is
  not zero.

The model has five modules:

- `Wrappers` holds `Option`.
- `PyText` holds the Python string operations the webhook relies on:
  `strip()`, `isdigit()`, `str()` of an integer and `int()` of a digit string.
- `Webhook` holds the pure decision chain of the webhook and the invite-expiry
  clamp.
- `Subscribers` holds the record, the renewal write and the sweep, as
  functions on the table.
- `Lifecycle` holds the class `SubscriberStore`. Its field `table` is `DB`, and
  its ghost fields `saved` and `saves` stand for the file and the number of
  `save_db` calls. Its methods `ConfirmPayment` and `RunExpiry` are the two
  handlers. Each is proved against the functions of `Webhook` and
  `Subscribers`.

External calls become inputs:

- The Instamojo verification is a `Verification`: `VerifyError`, or
  `Verified(status, metadata)`.
- Telegram's answer to the invite request is an `InviteResponse`: `Threw`, or
  `Http(ok, link)`.
- `json.loads` is a parameter `parse`, which returns `None` where the decoder
  raises.
- The clock is an integer epoch argument `now`.

The calls the webhook makes to Telegram are returned as a sequence of `Call`
values. The ids whose channel removal the sweep attempted are returned as
`revoked`.

Three behaviours of the code are easy to misread as stronger guarantees. The
model follows the code in each:

- **No payment-reference deduplication.** A replayed successful confirmation
  renews the subscription again, resetting it from the new `now`. See
  `AcceptedRedeliveryRenewsOnce` and `ReplayRenewsFromLatest`.
- **A failed invite does not always block activation.** One might expect a
  failed grant to leave the table untouched. In the code, a non-OK Telegram
  response gives `invite = None` without raising (app.py:71-72), so the record
  is still written as active and the user is sent a message without a link.
  Only an exception during invite creation prevents the write, and the
  handler still answers "ok". See `NonOkInviteStillActivates` and
  `InviteOutcomeOf`.
- **Some metadata crashes the handler.** Metadata that decodes to something
  other than a JSON object makes `meta.get` raise outside any `try`, so the
  handler answers HTTP 500 (`ServerError`) and the table is unchanged.

## Model

| member | source | states |
|---|---|---|
| `PyText.TrimStart` | app.py:166 | stripping the front never lengthens the input, leaves no whitespace at the front, and returns unchanged an input that does not start with whitespace |
| `PyText.TrimEnd` | app.py:166 | stripping the back never lengthens the input, leaves no whitespace at the back, and returns unchanged an input that does not end with whitespace |
| `PyText.TrimStartDropsSpace` | app.py:166 | the front-stripped text is a suffix of the input and every character dropped before it is whitespace |
| `PyText.TrimEndDropsSpace` | app.py:166 | the back-stripped text is a prefix of the input and every character dropped after it is whitespace |
| `PyText.Strip` | app.py:166 | `strip()` never lengthens its input, leaves no whitespace at either end, and returns unchanged an input with none there |
| `PyText.StripIsTrimmedSlice` | app.py:166 | `strip()` returns a slice `s[i..j]` of its input, and every character before `i` and from `j` on is whitespace |
| `PyText.StripIdempotent` | app.py:166 | stripping twice is the same as stripping once |
| `PyText.StripKeepsDigitString` | app.py:166-167 | a non-empty ASCII digit string comes through `strip()` unchanged |
| `PyText.NatToDecimal` | app.py:166 | `str(n)` of a non-negative integer is a non-empty digit string with no leading zero |
| `PyText.IntToDecimal` | app.py:166 | `str(n)` passes `isdigit()` exactly when n is not negative, and is then the decimal text of n |
| `PyText.DecimalRoundTrip` | app.py:179 | `int(str(n)) == n`, so a numeric user id reaches the chat id unchanged |
| `PyText.DecimalRoundTripBack` | app.py:167-179 | `str(int(s)) == s` for a digit string without a leading zero, so the chat id prints back as the stored key |
| `Webhook.RequestId` | app.py:147-149 | the id is empty exactly when both form fields are missing or empty; otherwise it is `payment_request_id` when that is non-empty, else `payment_request` |
| `Webhook.PyStr` | app.py:166 | `str()` of a string is the string itself and of an integer its decimal text; the result is a digit string only for a string, or for a non-negative integer |
| `Webhook.MetadataValue` | app.py:162-165 | missing or falsy metadata reads as `{}`; truthy metadata that is not a string is used as it is; a non-empty string is replaced by what the decoder returns, or by `{}` when the decoder raises |
| `Webhook.UserIdOf` | app.py:162-168 | metadata that is not an object is reported as such; for an object, with `raw` the value of `telegram_user_id` or `""` when the key is missing, a user is found exactly when `str(raw).strip()` is a digit string, and the id is that text |
| `Webhook.StringUserId` | app.py:162-168 | for object metadata whose `telegram_user_id` is a string, the lookup finds the stripped string exactly when it is a digit string, and reports no user otherwise |
| `Webhook.MissingUserIdKey` | app.py:166-168 | object metadata without `telegram_user_id` gives no user |
| `Webhook.NumericUserId` | app.py:166-167 | an integer `telegram_user_id` is accepted exactly when it is non-negative, as its decimal text |
| `Webhook.Decide` | app.py:147-168 | a confirmation is accepted exactly when all four checks pass, in order: a request id, a successful verification, an accepted status, a digit user id; each of the five rejects (`NoId`, `VerifyFailed`, `Ignored`, `ServerError`, `NoUser`) happens exactly when every earlier check passed and its own failed; no reject answers "ok" |
| `Webhook.ReplyOf` | app.py:149-183 | an accepted confirmation answers "ok" and a rejected one answers its reason |
| `Webhook.OnlyAcceptedStatusesAccept` | app.py:158-160 | only "Completed", "Credit" and "Success" can be accepted |
| `Webhook.PayMetadataRoundTrip` | app.py:162-167 | the metadata string that `/pay` attaches (app.py:130) yields the same user id once decoded to that object |
| `Webhook.InviteExpiry` | app.py:68 | the invite expires `max(60, ttl)` seconds after now: at least a minute and at least the TTL, and equal to one of them |
| `Webhook.InviteOutcomeOf` | app.py:70-72 | only an exception counts as a failed invite; an OK response passes its link on, and a non-OK response gives a missing link |
| `Subscribers.Activated` | app.py:173-174 | the written record is active, stamped with now, without `expired_at`, and expires `days·86400` seconds after now; it is lapsed at once exactly when the period is not positive |
| `Subscribers.Renew` | app.py:173-174 | the user's record becomes exactly `{expiry = now + days·86400, last_payment = now, active}` with no `expired_at`, every other key keeps its record, and the key set gains only the user |
| `Subscribers.RenewalIgnoresPreviousRecord` | app.py:173-174 | the new record does not depend on the old one: renewal resets from now and does not stack |
| `Subscribers.LaterRenewalExtends` | app.py:173-174 | a second confirmation at a later time, with the same period, moves the user's expiry strictly later than the first one left it |
| `Subscribers.SweepRecord` | app.py:193-199 | one sweep step leaves no record lapsed; a lapsed record becomes expired with `expired_at = now` and keeps its expiry and payment time; any other record is unchanged |
| `Subscribers.Sweep` | app.py:192-199 | same keys; every lapsed active record (missing expiry read as 0) becomes expired with `expired_at = now` and keeps its other fields; every other record is unchanged; nothing is left lapsed; no record becomes active |
| `Subscribers.SweepChangesExactlyLapsed` | app.py:192-204 | the records the sweep changes are exactly the lapsed ones, so the count is the number of transitions |
| `Subscribers.SweepIdempotent` | app.py:193 | a second sweep at the same time changes nothing and finds nothing lapsed |
| `Subscribers.GrantLapsesExactlyAtExpiry` | app.py:193 | a grant survives every sweep before its expiry and is expired by a sweep at or after it |
| `Lifecycle.ConfirmTable` | app.py:171-175 | a rejected confirmation, or one whose invite creation raised, leaves the table as it was; otherwise the user's key holds the fresh active record, the key set gains only the user, and every other record is kept |
| `Lifecycle.RejectedRedeliveryIsNoOp` | app.py:147-168 | a rejected confirmation delivered any number of times leaves the table as it was |
| `Lifecycle.AcceptedRedeliveryRenewsOnce` | app.py:171-175 | there is no deduplication: n deliveries of an accepted confirmation at one time leave what one delivery leaves |
| `Lifecycle.ReplayRenewsFromLatest` | app.py:173-174 | a replay at a later time overwrites the earlier renewal as though it had not happened |
| `Lifecycle.NonOkInviteStillActivates` | app.py:71-72 | an accepted confirmation whose invite response is not OK still leaves the user active |
| `Lifecycle.SubscriberStore.Load` | app.py:40-53 | the table and the saved file both start as the loaded contents |
| `Lifecycle.SubscriberStore.ConfirmPayment` | app.py:144-183 | the reply is the decision's; the table changes only for an accepted confirmation whose invite did not raise, and then only at the user's key; calls are empty on reject, otherwise one invite request with member limit 1 and the clamped expiry, followed, when the table was written, by the message to `int(tg)` unless the id has more than 4300 digits, where `int(tg)` raises and the error is swallowed; the file is saved exactly when the table was written |
| `Lifecycle.SubscriberStore.RunExpiry` | app.py:186-207 | the new table is the swept table; the count equals the number of lapsed records and of revoked ids; the revoked ids are exactly the lapsed ones; the file is saved exactly when the count is positive |

## Left out

- Flask routing, request parsing, the `CRON_SECRET` header check with its 401 (app.py:188), and the other routes (`/`, `/telegram-webhook`, `/pay`, `/payment-return`). These are framework plumbing. Only the metadata `/pay` attaches appears, in `PayMetadataRoundTrip`.
- The HTTP clients for Instamojo and Telegram. Their outcomes are inputs. The renewal-prompt message the sweep sends each expired user is not modelled as an output. Notification failures are swallowed in the code and change nothing in the table.
- `load_db`/`save_db` file I/O and the tmp-then-replace write. Saving is a ghost snapshot `saved` with a counter `saves`. A `save_db` that raises after `DB[tg]` was assigned is not modelled, because it depends on the filesystem. In that case the code answers "ok" with the table changed in memory but not on disk.
- Concurrency. The code has no locks, and interleaved webhook and sweep runs are not modelled.
- Time zones and `datetime`. Each operation takes one integer `now`, though the code calls `datetime.now` more than once. The ISO `last_payment` and `expired_at` strings are kept as epoch seconds.
- Message texts, Markdown, keyboards and `quote_plus` form encoding. These are presentation only.
- `RunExpiry`: visits the keys in an unspecified order, where Python uses insertion order. The final table, the count and the set of revoked ids do not depend on the order, but the order of the removal calls does.
- `RunExpiry`: `revoked` lists table keys. It does not model `int(uid)`, which makes removal silently fail for a key that is not an integer or has more than 4300 digits.
- `PyText.IsDigitString`: models `str.isdigit()` on ASCII digits only. Python also accepts other Unicode digits.
- `PyStr`: prints lists and objects as `[...]` and `{...}` rather than their full Python repr. Neither form can pass the digit check. JSON floats are not modelled.
- Verification results: the status must be a string, and a missing status reads as "". A non-string status, or a `payment_request` that is not an object, is not modelled.
- `Subscribers.ExpiryOf`: a stored `expiry_ts` that `int()` cannot convert would make the sweep raise. Such records are not modelled. A record's extra fields are not modelled either.
- `Lifecycle.SubscriberStore.Load`: takes what `load_db` returned and records it as the saved file. When `load_db` fell back to `{}` because the file was missing or unreadable (app.py:44-45), the file on disk keeps its old contents until the next save; the model does not track that difference.
- `Lifecycle.SubscriberStore.ConfirmPayment`: does not model the `OverflowError` that `datetime + timedelta(days=SUBS_DAYS)` raises for a period past the calendar's range (app.py:173). There the code answers "ok" without writing the table (app.py:180-181), while the model writes an expiry of `now + days·86400` for every period.
- `PyText.DecimalValue` (`int(tg)` at app.py:179) and `Subscribers.LapsedKeys` (the records the `if` at app.py:193 selects) carry no contract of their own. `DecimalRoundTrip` and `DecimalRoundTripBack` pin `DecimalValue` as the inverse of `NatToDecimal`; `Sweep` and `SweepChangesExactlyLapsed` pin `LapsedKeys` as exactly the keys the sweep changes. `DecimalValue` of the empty string is 0, where `int("")` raises; it is only applied to non-empty digit strings.
- The predicates `PyText.IsSpace`, `Webhook.IsAcceptedStatus`, `Webhook.Truthy`, `PyText.IsDigitString` and `Subscribers.Lapsed`, and the function `Subscribers.ExpiryOf`, are used in the contracts above and carry no contract of their own; the rows of `Strip` and `StripIsTrimmedSlice`, `OnlyAcceptedStatusesAccept`, `MetadataValue`, `UserIdOf`, `SweepRecord` and `Sweep` state what they decide. `IsSpace` lists exactly the characters for which Python's `str.isspace()` is true.
