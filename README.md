# Coach Sommeil: entitlement store, payment webhook and sleep diagnostic

A Dafny model of the core of the Telegram bot `coach_sommeil_bot.py`, a
baby-sleep coach with a paid tier. The core has three parts.

- **The `users` table and its entitlement rules** (`users.dfy`). The table
  is a `map<int, UserRecord>` keyed by `user_id`. Each operation is a pure
  transition function (`Upserted`, `Activated`, `Deactivated`,
  `PremiumCheck`), plus a method of the class `UserStore` that updates
  `users` in place and is proved equal to it. The rules covered:
  - the idempotent upsert on first contact;
  - lazy expiry, which uses a strict `>` and clears the flag as a side effect;
  - overwrite-not-extend activation for `30 * months` days;
  - cancellation, which clears only the flag.

  `WellFormed` is a table invariant: a set flag comes with an expiry, and a
  stored customer id is never empty. It is proved to be preserved by every
  operation. It is never assumed, so `PremiumCheck` still treats a flag
  without an expiry as premium, as the code does.
- **The payment webhook** (`webhook.dfy`). `StripeWebhook` performs the
  signature check, then dispatches on the event type. The types are
  completed checkout, paid invoice, deleted subscription, and anything else.
  Each case answers 200 or 400, and its effect on `UserStore` is stated
  exactly.
- **The four-question diagnostic** (`diagnostic.dfy`).
  - `Handle` is the conversation handler's routing as a pure state machine
    over the stages AGE, SIESTES, COUCHER, REVEILS and END, and over
    `user_data`. `Feed` runs it over a sequence of messages.
  - The class `DiagnosticSession` holds `stage` and `user_data`. Its handler
    methods update them in place, and `Receive` is proved to do exactly what
    `Handle` says.
  - `Recommend` is the analysis of a finished diagnostic.
  - `SiestesCommand` is the age bracket of `/siestes`.
- **Python's `int()` on text** (`pyint.dfy`). This is the parse used for the
  answers and for `client_reference_id`: surrounding whitespace, an optional
  sign, and digits with single underscores. It is proved to invert `str()`
  and to ignore padding.

Inputs that the code takes from its environment are parameters:
- Time is an integer `now` in seconds. It stands for both `datetime.now()`
  and SQL `CURRENT_TIMESTAMP`.
- Whether a database connection succeeds is a boolean `up`.
- The SDK's signature verdict is a boolean `signatureValid`.
- The database's choice among rows that share a customer id is a
  nondeterministic pick.

Where the prose design of the system and the code disagree, the model
follows the code:
- **Renewal.** The design states in one place that renewal extends
  `subscription_until` additively. The code overwrites it with
  `now + 30 days` (`ActivationOverwrites`, `RenewalTenDaysInDiscardsRemainder`).
- **Session state.** The design says the session is discarded on completion
  or on cancel. The code never clears `context.user_data`: the answers
  survive and are overwritten by the next diagnostic (`FullDiagnostic`, and
  the `userData` clauses of `Handle` and the session methods).
- **Bad reference.** A `client_reference_id` that `int()` refuses raises
  inside the handler, so the webhook answers 400. It is not ignored.

## Model

| member | source | states |
|---|---|---|
| `Users.Upserted` | coach_sommeil_bot.py:92-100 | A new id gets a row that is not premium, has no expiry and no customer id, and is created and active at `now`. For a known id only `last_activity` moves: names, flag, expiry and customer id stay. No other row changes. |
| `Users.Activated` | coach_sommeil_bot.py:126-136 | A known user becomes premium with exactly the given expiry, whatever it had before. The customer id is replaced only by a truthy one. An unknown id leaves the table unchanged (no row is created). Profile and other rows are untouched. |
| `Users.Deactivated` | coach_sommeil_bot.py:154 | Only the flag of the given user is cleared. Expiry, customer id, profile and other rows are kept. |
| `Users.PremiumCheck` | coach_sommeil_bot.py:111-118 | The answer is true iff the connection is up, the row exists, its flag is set and the clock is not strictly past a stored expiry. A flag without an expiry is premium. The table changes only by clearing the flag of that user, exactly when the connection is up and the row has expired. |
| `Users.NeverPremiumIsFree` | coach_sommeil_bot.py:111-114 | A missing row or a clear flag answers false and changes nothing. |
| `Users.ExpiryAfter` | coach_sommeil_bot.py:126 | The expiry `now + 30*months` days is later than `now` iff `months` is positive, and equal to it iff `months` is zero. |
| `Users.ExpiryAdditive` | coach_sommeil_bot.py:126 | A period of `months` followed by one of `more` ends where one period of `months + more` ends. |
| `Users.PremiumUntilExpiry` | coach_sommeil_bot.py:115-126 | After activation at `t0` for `months` months, the user is premium at `t` iff `t <= t0 + 30*months*86400`. So the user is still premium at the expiry second and no longer one second later. |
| `Users.PremiumCheckIdempotent` | coach_sommeil_bot.py:111-118 | A second check at the same instant gives the same answer and leaves the table as the first left it. |
| `Users.ActivationOverwrites` | coach_sommeil_bot.py:126-136 | Two activations equal the second one alone. Only the first customer id can survive, and only if the second carries none. |
| `Users.RenewalTenDaysInDiscardsRemainder` | coach_sommeil_bot.py:126 | Activating at T and again at T+10 days gives expiry (T+10 days)+30 days, not T+60 days. |
| `Users.DeactivateIdempotent` | coach_sommeil_bot.py:154 | Deactivating twice is the same as deactivating once. |
| `Users.UpsertTwice` | coach_sommeil_bot.py:92-100 | A second upsert only moves `last_activity`. The names passed the second time are ignored. |
| `Users.OperationsPreserveWellFormed` | coach_sommeil_bot.py:92-154 | Upsert, activation, deactivation and the expiry check each keep "flag implies expiry, and no empty customer id". |
| `Users.CustomerIdSurvives` | coach_sommeil_bot.py:185-204 | Deactivation, the expiry check, activation without a customer id and upserts of any user all keep a user findable by its customer id. So a renewal can still credit a user marked inactive. |
| `Users.UserStore.constructor` | coach_sommeil_bot.py:47-56 | The table starts empty. |
| `Users.UserStore.CreateOrUpdateUser` | coach_sommeil_bot.py:86-109 | Succeeds iff the connection is up. The new table is `Upserted` of the old one, or the old one on failure. |
| `Users.UserStore.GetUserData` | coach_sommeil_bot.py:69-84 | Returns the row iff the connection is up and the row exists, and otherwise `None`. The table is not changed. |
| `Users.UserStore.IsPremium` | coach_sommeil_bot.py:111-118 | The answer and the new table are exactly `PremiumCheck` of the old table. This includes the lazy clearing through `deactivate_premium`. |
| `Users.UserStore.ActivatePremium` | coach_sommeil_bot.py:120-146 | Succeeds iff the connection is up, even for an unknown user. The new table is `Activated` with expiry `now + 30*months` days, or the old table on failure. |
| `Users.UserStore.DeactivatePremium` | coach_sommeil_bot.py:148-163 | Succeeds iff the connection is up. The new table is `Deactivated`, or the old table on failure. |
| `Users.UserStore.FindByCustomer` | coach_sommeil_bot.py:188-189 | A returned id is a row whose customer id equals the (non-null) reference. `None` with the connection up means no row matches. |
| `Webhook.StripeWebhook` | coach_sommeil_bot.py:165-211 | A bad signature gives 400 and no change. An unknown event type gives 200 and no change. For a completed checkout: a falsy reference gives 200 and no change; a reference `int()` refuses gives 400 and no change; any other reference gives 200 and a one-month activation with the event's customer id. A paid invoice gives 200; if some row has the event's customer id, that user gets a one-month activation with the id kept, otherwise nothing changes. A deleted subscription is the same with deactivation. The table stays well formed throughout. |
| `PyInt.ParseInt` | coach_sommeil_bot.py:340 | `int()` on text: a number is read only from a text that contains a decimal digit, and a negative one only from a text that contains `-`. Its other properties are the lemmas below. |
| `PyInt.FormatInt` | coach_sommeil_bot.py:287 | `str(n)` is non-empty, starts with `-` iff `n` is negative, and is otherwise made of decimal digits. |
| `PyInt.ParseFormat` | coach_sommeil_bot.py:180 | `int(str(n)) == n` for every integer `n`. So the `client_reference_id` written as `str(user_id)` at checkout creation (line 287) is read back as the same id. |
| `PyInt.ParsePadded` | coach_sommeil_bot.py:340 | The six ASCII whitespace characters (space, tab, line feed, vertical tab, form feed, carriage return) before and after a number are ignored. |
| `PyInt.PaddedAnswer` | coach_sommeil_bot.py:340 | The answer `" 5\n"` is read as 5. |
| `PyInt.LeadingSeparatorRefused` | coach_sommeil_bot.py:340 | A text starting with one of the separators U+001C to U+001F is refused: `int()` does not skip them, although `str.isspace` accepts them. |
| `PyInt.ParseDigits` | coach_sommeil_bot.py:350 | A plain run of decimal digits is read as its value. |
| `PyInt.ParseNegatedDigits` | coach_sommeil_bot.py:365 | A minus sign followed by digits is read as the negated value. |
| `PyInt.NoDigitNoNumber` | coach_sommeil_bot.py:408 | A text with no decimal digit is refused. |
| `Diagnostic.Handle` | coach_sommeil_bot.py:334-402 | One message. A report is sent iff the stage is REVEILS and the text is an integer. An unhandled message changes nothing. No answer is ever removed. Reaching END keeps `user_data` as it was. Every stage finds the answers it reads. |
| `Diagnostic.Feed` | coach_sommeil_bot.py:518-527 | A run of messages produces exactly one reply per message and keeps the stage invariant. |
| `Diagnostic.StartAsksAge` | coach_sommeil_bot.py:334-336 | `/diagnostic` outside a conversation asks for the age and keeps the stored answers. |
| `Diagnostic.CancelFromAnyStage` | coach_sommeil_bot.py:400-402 | `/cancel` at any stage of an open conversation ends it, with no report and with the answers kept. |
| `Diagnostic.NotANumberAsksAgain` | coach_sommeil_bot.py:338-356 | At the age, nap and waking questions, a non-integer leaves stage and answers unchanged and asks again. |
| `Diagnostic.BedtimeTakesAnyText` | coach_sommeil_bot.py:358-361 | The bedtime question accepts any text, stores it as typed and moves to REVEILS. |
| `Diagnostic.NonNumbersNeverAdvance` | coach_sommeil_bot.py:338-346 | Any number of non-integers at a numeric question leaves the conversation where it was, and every reply asks again. |
| `Diagnostic.AgeAnswered` | coach_sommeil_bot.py:338-343 | An integer age is stored under `diagnostic_age` and the nap question follows. |
| `Diagnostic.SiestesAnswered` | coach_sommeil_bot.py:348-353 | An integer nap count is stored under `diagnostic_siestes` and the bedtime question follows. |
| `Diagnostic.ReveilsAnswered` | coach_sommeil_bot.py:363-374 | An integer waking count ends the conversation with the report of the three stored answers and that count. |
| `Diagnostic.FromReveils` | coach_sommeil_bot.py:363-374 | From REVEILS, one integer yields exactly the report of the stored answers. |
| `Diagnostic.FromCoucher` | coach_sommeil_bot.py:358-374 | From COUCHER, a bedtime and an integer yield the waking question, then the report. |
| `Diagnostic.FromSiestes` | coach_sommeil_bot.py:348-374 | From SIESTES, three answers yield the next two questions, then the report. |
| `Diagnostic.FromAge` | coach_sommeil_bot.py:338-374 | From AGE, four answers yield three questions, then the report. |
| `Diagnostic.FullDiagnostic` | coach_sommeil_bot.py:334-374 | `/diagnostic` followed by four valid answers gives the four questions, then a report of exactly those answers. This holds whatever an earlier conversation left, and the conversation ends with those answers stored. |
| `Diagnostic.IdealNaps` | coach_sommeil_bot.py:378 | The ideal nap count is between 1 and 4. It is 4 iff the age is at most 3 months, 3 iff it is 4 to 6 months, 2 iff it is 7 to 12 months, and 1 iff it is over 12 months. |
| `Diagnostic.NapVerdictFor` | coach_sommeil_bot.py:379-384 | The verdict is too many iff above the ideal, too few iff below it, and adapted iff equal. |
| `Diagnostic.WakeVerdictFor` | coach_sommeil_bot.py:385-390 | The verdict is frequent iff more than 3 wakings, some iff 1 to 3, and sleeps well iff 0 or fewer. |
| `Diagnostic.Recommend` | coach_sommeil_bot.py:378-393 | The analysis keeps the situation, and its ideal is `IdealNaps` of the age. There are too many naps iff the count is above the ideal, too few iff below, and adapted iff equal. The wakings are frequent iff more than 3, some iff 1 to 3, and the child sleeps well iff there are none. The premium invitation is added iff the user is not premium. |
| `Diagnostic.SixMonthExample` | coach_sommeil_bot.py:378-393 | Six months, two naps, bedtime 19h30, one waking, not premium: the ideal is 3, there are too few naps, the wakings are normal, and the invitation is shown. |
| `Diagnostic.BracketOf` | coach_sommeil_bot.py:409-416 | The `/siestes` bracket is 0–3 months iff the age is at most 3, 4–6 iff 4 to 6, 7–12 iff 7 to 12, and 12+ iff over 12. |
| `Diagnostic.BracketNaps` | coach_sommeil_bot.py:409-416 | Every `/siestes` bracket advises a non-empty range of at least one nap. |
| `Diagnostic.SiestesCommand` | coach_sommeil_bot.py:404-417 | Usage iff there is no argument. Advice iff the first argument is an integer, and then it is the bracket of that age. Otherwise the parse error. |
| `Diagnostic.IdealIsBracketMinimum` | coach_sommeil_bot.py:409-416 | The diagnostic's ideal nap count is the lower end of the range `/siestes` shows for the same age: both use the thresholds 3, 6 and 12. |
| `Diagnostic.IdealNapsNonIncreasing` | coach_sommeil_bot.py:378 | An older child never gets a higher ideal nap count. |
| `Diagnostic.DiagnosticSession.constructor` | coach_sommeil_bot.py:518-527 | A chat starts outside any conversation, with empty `user_data`. |
| `Diagnostic.DiagnosticSession.DiagnosticStart` | coach_sommeil_bot.py:334-336 | Moves to AGE, asks for the age, keeps `user_data`. |
| `Diagnostic.DiagnosticSession.DiagnosticAge` | coach_sommeil_bot.py:338-346 | Called only at AGE, as the handler is registered for that stage alone. On an integer: stores it and moves to SIESTES. Otherwise: stays at AGE with the answers unchanged and asks again. |
| `Diagnostic.DiagnosticSession.DiagnosticSiestes` | coach_sommeil_bot.py:348-356 | On an integer: stores it and moves to COUCHER. Otherwise: stays at SIESTES with the answers unchanged and asks again. |
| `Diagnostic.DiagnosticSession.DiagnosticCoucher` | coach_sommeil_bot.py:358-361 | Stores the text as typed and moves to REVEILS. |
| `Diagnostic.DiagnosticSession.DiagnosticReveils` | coach_sommeil_bot.py:363-398 | On an integer: reports the stored answers and ends. The recommendation is `Recommend` with the premium answer of `PremiumCheck` for this user, and the store is what that check leaves. Otherwise: stays at REVEILS, makes no recommendation and leaves the store unchanged. `user_data` is never cleared. |
| `Diagnostic.DiagnosticSession.DiagnosticCancel` | coach_sommeil_bot.py:400-402 | Moves to END with `user_data` kept and no report. |
| `Diagnostic.DiagnosticSession.Receive` | coach_sommeil_bot.py:518-527 | The new stage, answers and reply are exactly `Handle` of the old ones. Only a report consults the store, and then through `PremiumCheck`. |

## Left out

- The Markdown wording of replies, `strftime`, HTTP and aiohttp, the event loop, and `main`: this is output and transport. Replies are modelled as which message is sent. The report's recommendation is modelled as its verdicts.
- `/start`, `/help` and `/status`, the static-text commands, and the random `/conseil`: these are text output and randomness with no state.
- `/premium`, `premium_callback` and checkout-link creation: these are outbound network calls to the payment processor.
- `init_database`: it only creates the table. The model starts from an empty map (`UserStore.constructor`).
- The signature and payload check of the payment SDK: this is foreign cryptography, reduced to the boolean `signatureValid`. A payload the SDK cannot parse gives the same 400.
- Failure of a database connection: modelled by one boolean `up` per call. Inside `is_premium` and the webhook's lookup-then-update, the two connections share one `up`. A read failure and a write failure both end in "false or 200, nothing changed", so the separate case of "lookup succeeds, update fails" is folded into "nothing changed".
- SQL errors other than a failed connection are not modelled. These include an id outside BIGINT, a name longer than VARCHAR(255), and a concurrent insert of the same id between the SELECT and the INSERT of `create_or_update_user`.
- Concurrency between the webhook and chat paths, atomicity of the store's read-then-write sequences, and calendar time, `timedelta` overflow and time zones: the model is sequential on integer seconds.
- The chat library internals: this covers per-chat keying of conversations and the `~filters.COMMAND` and `filters.TEXT` message filters. A message arrives already classified as a command or a text. Re-entry follows the library's default: `/diagnostic` inside an open conversation is not handled by it.
- A reply of `/siestes` to an argument `int()` refuses: the exception goes to the bot's error handler, and the model stops at `SiestesNotANumber`.
- Python's `int()` on non-ASCII input: Unicode decimal digits and non-ASCII Unicode whitespace are not modelled. Of the ASCII characters, only the six `int()` skips (space, tab, line feed, vertical tab, form feed, carriage return) are treated as padding.
- PyInt.ParseInt: does not model the limit of CPython 3.11 and later, which refuses `int()` on text of more than 4300 digits.
- PyInt.ParseFormat: holds for every integer only without that limit. Under CPython 3.11 and later, `str()` of an integer of more than 4300 digits raises. Telegram ids are far shorter.
- `test_bot.py`: a separate hello-world bot, not part of this model.
- Users.UserStore.FindByCustomer: does not say which row `fetchone()` returns when several rows share a customer id. The query has no ORDER BY, so the database decides. The model promises some matching row.
- Diagnostic.Feed: its own contract only promises one reply per message and the stage invariant. What a run produces is stated by `NonNumbersNeverAdvance`, the `From…` lemmas and `FullDiagnostic`.
- Diagnostic.BracketNaps: only bounds the ranges. Their values (4–5, 3, 2, 1) relate to the diagnostic through `IdealIsBracketMinimum`.
