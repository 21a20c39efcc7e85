# Referral bot and mass broadcast — a Dafny model

This project models the logic of two Telegram bot processes.

- `send.js` is a broadcast bot. An administrator sends `/send` and then one
  message, which becomes the pending message. The bot previews the user
  count, the message kind and an estimated duration. When the administrator
  confirms, the bot delivers the message to every registered user. Each
  delivery is retried once, and a single process-wide record counts
  successes, failures and processed recipients. The record is reset when the
  run ends or is cancelled.
- `bot.js` is a referral bot. `/start` registers a user with an optional
  referrer. The `check` button grants access once the user is in both
  channels. On the first successful check, the referrer earns one invite, one
  ticket and a balance tiered on the invite count: 200 per invite below 10
  invites, 300 from 10 on. From 10000 Fcfa on, a user can open a
  four-question withdrawal form, whose last answer builds a withdrawal
  request and hands it to the database to save.
  The file also holds a content dispatcher and a broadcast loop over slices
  of 30 users.

The messaging platform and the database are not modelled. Some of their
answers are inputs to the model:
- an `ApiResult` for each send attempt;
- a `Lookup` for each channel-membership query;
- in `send.js`, an `Option` for each store read (`None` stands for a read
  that threw);
- a `saveOk` flag for saving a withdrawal.

In `bot.js` the user collection is a `map<int, User>`, and its reads,
creations and updates are map operations that always succeed. The replies
of `bot.js` always succeed too.

Files:
- `messages.dfy` (module `Messages`): the shape of a platform message, the
  outbound calls, and the platform's answer to a call.
- `broadcast.dfy` (module `Broadcast`): `send.js`.
- `reward_bot.dfy` (module `RewardBot`): `bot.js`.

Where this model follows the code rather than the bot's stated intent:
- Every send error is retried alike. A user who blocked the bot is retried
  and is never deleted by the broadcast.
- The cancel button resets the broadcast record even while a run is active.
- The cancel reset happens only after the callback answer and the message
  edit both succeed.
- The `>= 20` tier (400 per invite) comes after the `>= 10` test, so it is
  never reached. The invite message advertises 400 for 20 invites or more
  (bot.js:179), but the code pays 300.

The confirm handler of `send.js` is split at its first `await`:
- `StartConfirm` is the synchronous guard, which sets `active`.
- `RunConfirmed` is the rest of the handler.

Between the two, the other handlers may run (the model lets them run only
there; see "## Left out").
- While the record stays active, a message sent by an administrator is
  ignored and a second confirm is ignored.
- `/send` clears the pending message but leaves the record active. Every send
  of the run then fails with a TypeError.
- A cancel resets the whole record to idle. A new message can then be
  captured and confirmed. `processBatch` reads the pending message when each
  send starts (send.js:160), so the first run sends that new message, and
  the second run starts alongside it. `StartConfirm` rules out a second
  concurrent run only while no cancel falls between the two halves.

Between handlers, the counters are always zero: they move only inside a run,
and every run ends in a reset.

## Model

| member | source | states |
|---|---|---|
| `Broadcast.GetMessageType` | send.js:76-81 | priority order: text if text is truthy (even with a photo or video), else photo, else video, else unknown |
| `Broadcast.EstimateBroadcastDuration` | send.js:84-87 | seconds part < 60; minutes·60 + seconds is userCount·50/1000 rounded to the nearest second, halves up |
| `Broadcast.CaptionOrEmpty` | send.js:190-192 | a missing caption becomes the empty caption; a present caption, the empty one included, is kept |
| `Broadcast.MessageCall` | send.js:184-193 | the call made matches the previewed kind; a text message is sent as its text; a photo is sent as its first size and a video as its file id, both with caption `caption \|\| ''`; an unknown message makes no call; a null message or an empty size list throws |
| `Broadcast.SendMessage` | send.js:184-197 | resolves exactly when no call is made or the call is delivered; a rejected call fails with the platform's error, and a dispatch that throws fails with a TypeError; every failure is tagged with the recipient id |
| `Broadcast.SendWithRetry` | send.js:170-181 | 1 ≤ attempts ≤ 2; every attempt before the last failed; the outcome is the last attempt's; it fails only after 2 attempts; the wait before attempt k+1 is k·500 ms; it succeeds iff some attempt within 2 succeeds |
| `Broadcast.CountSent` | send.js:157-167 | the number of recipients reached never exceeds the number of ids |
| `Broadcast.UnknownMessageAlwaysSucceeds` | send.js:184-193 | a message with no text, photo or video counts as a success for every recipient |
| `Broadcast.ClearedMessageNeverSent` | send.js:184-197 | with the pending message cleared, no recipient is reached |
| `Broadcast.AllDeliveredAllSent` | send.js:157-167 | a text broadcast whose first attempts are all delivered reaches every id |
| `Broadcast.BroadcastState.constructor` | send.js:31-41 | the initial record: inactive, nothing pending, counters 0, no start time, no status message |
| `Broadcast.BroadcastState.Reset` | send.js:241-253 | every field back to its initial value |
| `Broadcast.BroadcastState.SendCommand` | send.js:96-100 | an administrator clears the pending message; other senders change nothing |
| `Broadcast.BroadcastState.CaptureMessage` | send.js:103-121 | ignored for non-admins and while active; stores the message only when none is pending (the first wins); the preview carries the count, kind and estimate, and there is no preview when the count read throws |
| `Broadcast.BroadcastState.Cancel` | send.js:124-128 | once the UI calls succeed, the record is reset whatever its state |
| `Broadcast.BroadcastState.StartConfirm` | send.js:131-135 | starts iff not active and a message is pending; then active, start time and status message are set; otherwise nothing changes |
| `Broadcast.BroadcastState.ProcessBatch` | send.js:157-167 | success grows by the recipients reached, failed by the rest, processed by the number of ids; processed == success + failed |
| `Broadcast.BroadcastState.RunConfirmed` | send.js:136-153 | always ends reset; aborts iff a store read throws; otherwise reports total = the user count, processed = the number of ids (the two may differ), and success + failed = processed |
| `RewardBot.IsUserInChannels` | bot.js:53-63 | true iff both lookups succeed with member, administrator or creator; any error gives false |
| `RewardBot.Bonus` | bot.js:83-88 | the bonus is 300 iff invites ≥ 10, else 200; 400 is never returned |
| `RewardBot.TieredBalance` | bot.js:83-89 | the balance is 200 per invite below 10 invites and 300 per invite from 10 on |
| `RewardBot.TieredBalanceGrows` | bot.js:83-89 | one more invite strictly raises the tiered balance |
| `RewardBot.TieredBalanceMonotone` | bot.js:83-89 | the tiered balance is monotone in the invite count |
| `RewardBot.WithdrawalNeedsThirtyFourInvites` | bot.js:183-187 | the balance reaches the 10000 minimum exactly from 34 invites on |
| `RewardBot.NewUser` | bot.js:71 | a created record keeps its id, username and referrer, has zero invites, tickets and balance, has not joined the channels, and already meets the balance invariant |
| `RewardBot.HasReferrer` | bot.js:136 | a missing referrer and referrer 0 are falsy; any other referrer id is truthy |
| `RewardBot.Advance` | bot.js:433-450 | a reply is recorded in the field of the current step, and the form moves payment method → country → phone → email; well-formedness is kept |
| `RewardBot.FormRecordsRepliesInOrder` | bot.js:433-450 | four replies from a fresh form fill the four fields in order |
| `RewardBot.Bot.constructor` | bot.js:18 | no users, no open forms, no withdrawals; the invariants hold |
| `RewardBot.Bot.RegisterUser` | bot.js:66-77 | create-if-absent with zero counters; an existing record, its referrer included, is left unchanged |
| `RewardBot.Bot.UpdateUserBalance` | bot.js:80-91 | the balance is overwritten with invites × bonus, and no other field or user changes, so a repeated call is idempotent; a missing user changes nothing |
| `RewardBot.Bot.Check` | bot.js:124-165 | not found, or not in the channels: nothing changes; otherwise access is granted (with the admin menu for the admin id); only on the joined_channels false→true step does a truthy referrer get +1 invite, +1 ticket and a recomputed balance; a check after joining changes nothing |
| `RewardBot.Promoted` | bot.js:137-138 | the referrer's record gains exactly one invite and one ticket, its balance becomes the tiered balance of the new count, and nothing else changes |
| `RewardBot.Bot.RewardReferrer` | bot.js:137-138 | an unknown referrer id changes nothing; otherwise only the referrer's record changes, to its promoted form; the invariants and the withdrawal minimum are kept |
| `RewardBot.Bot.OpenWithdrawal` | bot.js:171-188 | the form (re)starts at the payment-method question iff the balance ≥ 10000; a missing user changes nothing |
| `RewardBot.Bot.OnText` | bot.js:422-472 | no form: ignored; form but no user: form deleted, nothing saved; earlier steps: the reply is recorded and the next question is asked; email step: a request for the current balance is saved and the form deleted (if the save throws, the form keeps the email); the 10000 minimum of open forms and saved requests is preserved |
| `RewardBot.ContentOf` | bot.js:287-295 | the content keeps text, caption, video and document; its photo is the last (largest) size; an empty size list throws |
| `RewardBot.ContentCall` | bot.js:246-276 | photo before video before document before text: each is sent, with its file id or text and the caption, exactly when none of the earlier ones is present; no call when none is present; the call goes to the given chat |
| `RewardBot.LargestPhotoIsSent` | bot.js:248-253 | a photo message is broadcast as its largest size, whatever else it carries |
| `RewardBot.DeliveredCount` | bot.js:364-373 | the number of recipients reached never exceeds the number of recipients |
| `RewardBot.SendSlice` | bot.js:363-373 | sending one slice reaches at most its length, and the recipients reached so far grow by exactly those of the slice that are reached |
| `RewardBot.BroadcastInBatches` | bot.js:330-375 | consecutive slices [30k, min(30k+30, n)), ⌈n/30⌉ of them, concatenating to the user list; success counts the recipients reached; success + failed == n |
| `RewardBot.EachRecipientInOneBatch` | bot.js:362-363 | recipient j is in slice j/30 at offset j mod 30, and in no other slice |

## Left out

- Transport and database: platform calls and database queries are not
  modelled; only the answers listed above are inputs.
  - The `getDb` connection code is not part of this model.
  - The `/start` upsert of `send.js` (`saveUser`) is not part of this model.
  - The schema validation of database.js is not part of this model: whether
    a withdrawal save succeeds is an input (see `RewardBot.Bot.OnText`
    below).
- Concurrency: the Bottleneck limiter is an external library, whose point is
  concurrency. Its limits are not modelled. `processBatch` is a sequential
  loop, and each 30-user slice of bot.js is sent one user after the other.
- Interleaving inside a run: in the source, other handlers can run at every
  `await` of the confirm handler (send.js:137-147). The model assumes they run
  only at the first one, between `StartConfirm` and `RunConfirmed`. A cancel
  that resets the counters in the middle of a run is not modelled.
- Clock and timers: the start time is a parameter, and the backoff waits are
  returned, not awaited. The following are not modelled:
  - the `setInterval` progress refresh;
  - the elapsed time;
  - the one-second pause after each slice.
- Rendering: the following are not modelled:
  - progress percentage, speed, success rate and their floating-point
    formatting;
  - the text of the preview, the progress and the final report. The
    estimate is kept as its minutes and seconds.
- Interleaving in bot.js: each bot.js handler is modelled as one atomic
  step, but in the source other handlers can run at every `await`. Two
  properties depend on this:
  - `RewardBot.Bot.Check` rewards a referrer at most once only because the
    read of `joined_channels` (bot.js:126) and its write (bot.js:134) are
    one step. Two overlapping presses of `check` by the same user, both
    between those lines, would both see `false` and both reward the
    referrer.
  - The `balance == TieredBalance(invitedCount)` invariant of
    `RewardBot.Bot.Valid` holds only because `updateUserBalance` reads
    (bot.js:81) and writes (bot.js:89) in one step. Two overlapping
    rewards to the same referrer could write a stale balance.
- Database failures in bot.js: `findOne`, `create` and `updateOne` never
  fail in the model. So the following source behaviours are not modelled:
  - if the `$inc` of bot.js:137 throws after bot.js:134 set
    `joined_channels`, the referrer's reward is lost for good, because every
    later check sees `joined_channels` already true;
  - if the `updateUserBalance` of bot.js:138 throws, the referrer keeps the
    extra invite with a stale balance.
- Reply failures in bot.js: `ctx.reply` never fails in the model. If the
  reply of bot.js:458 throws after a save, the form is not deleted
  (bot.js:469), so the next text saves a second withdrawal.
- RewardBot.Bot.OnText: whether the save succeeds is the `saveOk` input, and
  both outcomes are modelled. As written, the source never succeeds:
  `WithdrawalSchema` requires `user` and `method` (database.js:72-76 and
  database.js:87-91), while the document built at bot.js:451-455 has no
  `user` and spreads `paymentMethod` rather than `method`. So every save is
  rejected, the form keeps the email, and no withdrawal is ever stored; the
  `saveOk = true` branch models the evidently intended behaviour.
- Broadcast.BroadcastState.RunConfirmed: the callback answer is assumed to
  succeed (send.js:140). If it threw, the run would abort before sending.
- Error handling around I/O: the following are not modelled:
  - the 403 deletion of blocked users in the bot.js middleware and its
    `sendMessage` helper (bot.js:24-50). Users are therefore never deleted
    in the model, though the "form but no user" branch of `OnText` is kept;
  - `registerUser` swallowing database errors;
  - `notifyReferrer` and the administrator notification of a new withdrawal,
    which are messages only.
- Routing: the menu labels (`bot.hears`, bot.js:168) and the commands
  `/start`, `/admin` and `/send` (bot.js:103, 215, 279) are consumed by
  earlier handlers. Any other text reaches `bot.on('text')` (bot.js:422),
  including other commands such as `/help`. `OnText` takes any text, so
  such a command is recorded as a form answer, as in the source.
- The `/send`, `confirm_broadcast` and `cancel_broadcast` handlers of bot.js
  are not modelled. They use an undefined `db` and an unimported `Markup`.
  Only their content building and batch loop are modelled, and
  `parse_mode`/`entities` are left out.
- The admin `callback_query` handler of bot.js (statistics and a
  `copyMessage` broadcast) is not part of this model.
- Startup: the keep-alive HTTP server, `bot.launch`, dotenv and the
  `uncaughtException` handler are not modelled.
- Numbers: JavaScript numbers are modelled as unbounded integers. A
  non-numeric start payload (`parseInt` giving NaN) is not modelled: the
  referrer is given as an optional integer.
