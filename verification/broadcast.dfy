/** The broadcast job of send.js: an administrator sends one message, confirms,
    and the bot delivers it to every registered user with a small bounded
    retry, counting successes and failures in one process-wide record. */
module Broadcast {
  import opened Messages

  /** Attempts per recipient (RETRY_COUNT). */
  const RetryCount: nat := 2
  /** Minimal spacing between two sends in milliseconds (MIN_TIME). */
  const MinTimeMs: nat := 50
  /** The wait before attempt k + 1 is k times this many milliseconds. */
  const BackoffStepMs: nat := 500

  // ---------------------------------------------------------------------------
  // Pure helpers: message kind, duration estimate, send dispatch
  // ---------------------------------------------------------------------------

  datatype MessageType = Text | Photo | Video | Unknown

  /** The kind shown in the confirmation preview: text wins over photo, photo
      over video; documents and everything else are "unknown". */
  function GetMessageType(m: Message): (t: MessageType)
    ensures t == Text <==> Truthy(m.text)
    ensures t == Photo <==> !Truthy(m.text) && m.photo.Some?
    ensures t == Video <==> !Truthy(m.text) && m.photo.None? && m.video.Some?
    ensures t == Unknown <==> !Truthy(m.text) && m.photo.None? && m.video.None?
  {
    if Truthy(m.text) then Text
    else if m.photo.Some? then Photo
    else if m.video.Some? then Video
    else Unknown
  }

  datatype Duration = Duration(minutes: nat, seconds: nat)

  /** Math.round(num / den) for non-negative operands: halves round up. */
  function RoundHalfUp(num: nat, den: nat): nat
    requires den > 0
  {
    (2 * num + den) / (2 * den)
  }

  /** The preview's estimate: one send every MinTimeMs, rounded to the nearest
      second (halves up), shown as minutes and seconds. */
  function EstimateBroadcastDuration(userCount: nat): (d: Duration)
    ensures d.seconds < 60
    ensures var s := d.minutes * 60 + d.seconds;
      s * 1000 - 500 <= userCount * MinTimeMs < s * 1000 + 500
  {
    var seconds := RoundHalfUp(userCount * MinTimeMs, 1000);
    Duration(seconds / 60, seconds % 60)
  }

  /** `caption || ''`: a missing caption becomes the empty one, any present
      caption (the empty one included) is kept. */
  function CaptionOrEmpty(caption: Option<string>): (r: string)
    ensures caption.None? ==> r == ""
    ensures caption.Some? ==> r == caption.value
  {
    if Truthy(caption) then caption.value else ""
  }

  /** The kind of message a platform call delivers. */
  function CallType(c: Call): MessageType {
    match c
    case SendText(_, _) => Text
    case SendPhoto(_, _, _) => Photo
    case SendVideo(_, _, _) => Video
    case SendDocument(_, _, _) => Unknown
  }

  /** What sendMessage does before it awaits: make no call, make one call, or
      throw a TypeError (reading a field of a null pending message, or the
      first size of an empty photo list). */
  datatype Dispatch = NoCall | MakeCall(call: Call) | Crash

  function MessageCall(userId: int, pending: Option<Message>): (d: Dispatch)
    ensures d.Crash? <==>
      pending.None? || (GetMessageType(pending.value) == Photo && |pending.value.photo.value| == 0)
    ensures pending.Some? ==> (d.NoCall? <==> GetMessageType(pending.value) == Unknown)
    ensures d.MakeCall? ==>
      d.call.Chat() == userId && CallType(d.call) == GetMessageType(pending.value)
    ensures d.MakeCall? && d.call.SendPhoto? ==>
      d.call.fileId == pending.value.photo.value[0] &&
      d.call.caption == Some(CaptionOrEmpty(pending.value.caption))
    ensures d.MakeCall? && d.call.SendText? ==> d.call.text == pending.value.text.value
    ensures d.MakeCall? && d.call.SendVideo? ==>
      d.call.fileId == pending.value.video.value &&
      d.call.caption == Some(CaptionOrEmpty(pending.value.caption))
  {
    match pending
    case None => Crash
    case Some(m) =>
      if Truthy(m.text) then MakeCall(SendText(userId, m.text.value))
      else if m.photo.Some? then
        if |m.photo.value| == 0 then Crash
        else MakeCall(SendPhoto(userId, m.photo.value[0], Some(CaptionOrEmpty(m.caption))))
      else if m.video.Some? then
        MakeCall(SendVideo(userId, m.video.value, Some(CaptionOrEmpty(m.caption))))
      else NoCall
  }

  datatype Cause = Api(error: ApiError) | TypeError

  /** A settled sendMessage: resolved, or rejected with an error tagged with
      the recipient's id. */
  datatype SendOutcome = Sent | SendFailed(cause: Cause, userId: int)

  /** One sendMessage, where `api` is the platform's answer to the call it makes. */
  function SendMessage(userId: int, pending: Option<Message>, api: ApiResult): (r: SendOutcome)
    ensures r.SendFailed? ==> r.userId == userId
    ensures r.Sent? <==>
      MessageCall(userId, pending).NoCall? ||
      (MessageCall(userId, pending).MakeCall? && api.Delivered?)
    ensures r.SendFailed? && r.cause.Api? ==> api == Rejected(r.cause.error)
    ensures MessageCall(userId, pending).Crash? ==> r == SendFailed(TypeError, userId)
    ensures MessageCall(userId, pending).MakeCall? && api.Rejected? ==>
      r == SendFailed(Api(api.error), userId)
  {
    match MessageCall(userId, pending)
    case NoCall => Sent
    case Crash => SendFailed(TypeError, userId)
    case MakeCall(_) =>
      if api.Delivered? then Sent else SendFailed(Api(api.error), userId)
  }

  // ---------------------------------------------------------------------------
  // Retry
  // ---------------------------------------------------------------------------

  /** The platform's answer to attempt k (k = 1, 2, ...) for one recipient. */
  type AttemptOracle = nat -> ApiResult

  /** Some attempt among the first n succeeds. */
  predicate DeliveredWithin(userId: int, pending: Option<Message>, oracle: AttemptOracle, n: nat) {
    exists k :: 1 <= k <= n && SendMessage(userId, pending, oracle(k)).Sent?
  }

  /** sendWithRetry: attempts until the first success or until RetryCount
      attempts were made, waiting k * BackoffStepMs before attempt k + 1, and
      settles with the last attempt's outcome. Every error kind is retried. */
  method SendWithRetry(userId: int, pending: Option<Message>, oracle: AttemptOracle)
    returns (outcome: SendOutcome, attempts: nat, waits: seq<nat>)
    ensures 1 <= attempts <= RetryCount
    ensures outcome == SendMessage(userId, pending, oracle(attempts))
    ensures forall k :: 1 <= k < attempts ==> SendMessage(userId, pending, oracle(k)).SendFailed?
    ensures outcome.SendFailed? ==> attempts == RetryCount
    ensures |waits| == attempts - 1
    ensures forall i :: 0 <= i < |waits| ==> waits[i] == (i + 1) * BackoffStepMs
    ensures outcome.Sent? <==> DeliveredWithin(userId, pending, oracle, RetryCount)
  {
    attempts, waits := 1, [];
    outcome := SendMessage(userId, pending, oracle(1));
    while outcome.SendFailed? && attempts < RetryCount
      invariant 1 <= attempts <= RetryCount
      invariant outcome == SendMessage(userId, pending, oracle(attempts))
      invariant forall k :: 1 <= k < attempts ==> SendMessage(userId, pending, oracle(k)).SendFailed?
      invariant |waits| == attempts - 1
      invariant forall i :: 0 <= i < |waits| ==> waits[i] == (i + 1) * BackoffStepMs
      decreases RetryCount - attempts
    {
      waits := waits + [attempts * BackoffStepMs];
      attempts := attempts + 1;
      outcome := SendMessage(userId, pending, oracle(attempts));
    }
  }

  /** How many of `ids` end in a success; recipient i answers with oracles(i). */
  function CountSent(ids: seq<int>, pending: Option<Message>, oracles: nat -> AttemptOracle): (n: nat)
    ensures n <= |ids|
  {
    if ids == [] then 0
    else
      var last := |ids| - 1;
      CountSent(ids[..last], pending, oracles) +
        (if DeliveredWithin(ids[last], pending, oracles(last), RetryCount) then 1 else 0)
  }

  /** A message none of whose parts sendMessage knows sends nothing and counts
      as a success for every recipient. */
  lemma {:induction false} UnknownMessageAlwaysSucceeds(ids: seq<int>, m: Message, oracles: nat -> AttemptOracle)
    requires GetMessageType(m) == Unknown
    ensures CountSent(ids, Some(m), oracles) == |ids|
  {
    if ids != [] {
      var last := |ids| - 1;
      UnknownMessageAlwaysSucceeds(ids[..last], m, oracles);
      assert SendMessage(ids[last], Some(m), oracles(last)(1)).Sent?;
    }
  }

  /** With no pending message (cleared by /send or a cancel while the run was
      starting) every send throws, so nobody is reached. */
  lemma {:induction false} ClearedMessageNeverSent(ids: seq<int>, oracles: nat -> AttemptOracle)
    ensures CountSent(ids, None, oracles) == 0
  {
    if ids != [] {
      ClearedMessageNeverSent(ids[..|ids| - 1], oracles);
    }
  }

  /** With every first attempt delivered, a text broadcast reaches everybody. */
  lemma {:induction false} AllDeliveredAllSent(ids: seq<int>, m: Message, oracles: nat -> AttemptOracle)
    requires GetMessageType(m) == Text
    requires forall i :: 0 <= i < |ids| ==> oracles(i)(1).Delivered?
    ensures CountSent(ids, Some(m), oracles) == |ids|
  {
    if ids != [] {
      var last := |ids| - 1;
      AllDeliveredAllSent(ids[..last], m, oracles);
      assert SendMessage(ids[last], Some(m), oracles(last)(1)).Sent?;
    }
  }

  // ---------------------------------------------------------------------------
  // The process-wide broadcast record and its handlers
  // ---------------------------------------------------------------------------

  /** What the administrator is shown before confirming. */
  datatype Preview = Preview(userCount: nat, kind: MessageType, estimate: Duration)

  /** The counters a finished run reports. */
  datatype Report = Report(total: nat, processed: nat, success: nat, failed: nat)

  /** How the rest of a confirmed run ends: it failed before sending (a store
      read threw), or it sent to every id and tried to show the final report. */
  datatype RunOutcome = Aborted | Finished(report: Report, reportShown: bool)

  class BroadcastState {
    var active: bool
    var pendingMessage: Option<Message>
    var totalUsers: nat
    var processed: nat
    var success: nat
    var failed: nat
    var startTime: Option<int>
    var statusMessageId: Option<int>

    /** Every field at the value resetBroadcastState gives it. */
    predicate IsReset()
      reads this
    {
      !active && pendingMessage.None? && totalUsers == 0 && processed == 0 &&
      success == 0 && failed == 0 && startTime.None? && statusMessageId.None?
    }

    /** The state between two handlers: the counters only move inside a run,
        and a run always ends in a reset; a start time and a status message
        exist exactly while a run is active. */
    ghost predicate Valid()
      reads this
    {
      totalUsers == 0 && processed == 0 && success == 0 && failed == 0 &&
      (active <==> startTime.Some?) && (active <==> statusMessageId.Some?)
    }

    constructor ()
      ensures IsReset() && Valid()
    {
      active, pendingMessage := false, None;
      totalUsers, processed, success, failed := 0, 0, 0, 0;
      startTime, statusMessageId := None, None;
    }

    /** resetBroadcastState */
    method Reset()
      modifies this
      ensures IsReset() && Valid()
    {
      active, pendingMessage := false, None;
      totalUsers, processed, success, failed := 0, 0, 0, 0;
      startTime, statusMessageId := None, None;
    }

    /** The /send command: an administrator clears the pending message, even
        while a run is active; anybody else changes nothing. */
    method SendCommand(sender: int, admins: seq<int>)
      requires Valid()
      modifies this`pendingMessage
      ensures Valid()
      ensures pendingMessage == if sender in admins then None else old(pendingMessage)
    {
      if sender in admins {
        pendingMessage := None;
      }
    }

    /** An incoming message: from an administrator, while no run is active and
        nothing is pending, it becomes the pending message and a preview is
        built from the user count (None: the count threw, no preview). */
    method CaptureMessage(sender: int, admins: seq<int>, m: Message, userCount: Option<nat>)
      returns (preview: Option<Preview>)
      requires Valid()
      modifies this`pendingMessage
      ensures Valid()
      ensures var stores := sender in admins && !active && old(pendingMessage).None?;
        && pendingMessage == (if stores then Some(m) else old(pendingMessage))
        && preview == (if stores && userCount.Some?
                       then Some(Preview(userCount.value, GetMessageType(m),
                                         EstimateBroadcastDuration(userCount.value)))
                       else None)
    {
      preview := None;
      if sender !in admins || active {
        return;
      }
      if pendingMessage.None? {
        pendingMessage := Some(m);
        if userCount.Some? {
          preview := Some(Preview(userCount.value, GetMessageType(m),
                                  EstimateBroadcastDuration(userCount.value)));
        }
      }
    }

    /** The cancel button: once the callback is answered and the message edited
        (uiOk), the whole record is reset, whether or not a run is active. */
    method Cancel(uiOk: bool)
      requires Valid()
      modifies this
      ensures Valid()
      ensures uiOk ==> IsReset()
      ensures !uiOk ==> unchanged(this)
    {
      if uiOk {
        Reset();
      }
    }

    /** The synchronous start of the confirm handler, up to its first await:
        ignored while a run is active or nothing is pending. */
    method StartConfirm(now: int, statusId: int) returns (started: bool)
      requires Valid()
      modifies this`active, this`startTime, this`statusMessageId
      ensures Valid()
      ensures started <==> !old(active) && pendingMessage.Some?
      ensures started ==> active && startTime == Some(now) && statusMessageId == Some(statusId)
      ensures !started ==> unchanged(this)
    {
      if active || pendingMessage.None? {
        return false;
      }
      active := true;
      startTime := Some(now);
      statusMessageId := Some(statusId);
      return true;
    }

    /** processBatch, run one recipient after the other: every id contributes
        one increment to success or failed, then one to processed. */
    method ProcessBatch(ids: seq<int>, oracles: nat -> AttemptOracle)
      requires processed == success + failed
      modifies this`success, this`failed, this`processed
      ensures success == old(success) + CountSent(ids, pendingMessage, oracles)
      ensures failed == old(failed) + |ids| - CountSent(ids, pendingMessage, oracles)
      ensures processed == old(processed) + |ids| && processed == success + failed
    {
      var i := 0;
      while i < |ids|
        invariant 0 <= i <= |ids|
        invariant success == old(success) + CountSent(ids[..i], pendingMessage, oracles)
        invariant failed == old(failed) + i - CountSent(ids[..i], pendingMessage, oracles)
        invariant processed == old(processed) + i
      {
        var outcome, _, _ := SendWithRetry(ids[i], pendingMessage, oracles(i));
        if outcome.Sent? {
          success := success + 1;
        } else {
          failed := failed + 1;
        }
        processed := processed + 1;
        assert ids[..i + 1][..i] == ids[..i];
        i := i + 1;
      }
      assert ids[..i] == ids;
    }

    /** The rest of a started confirm handler: read the user count and the user
        ids (None: that read threw), send to every id, report, and in every
        case reset the record. The run sends the message pending at that
        point, which /send or a cancel may have cleared in the meantime. */
    method RunConfirmed(userCount: Option<nat>, ids: Option<seq<int>>,
                        oracles: nat -> AttemptOracle, reportShown: bool)
      returns (outcome: RunOutcome)
      requires Valid()
      modifies this
      ensures IsReset() && Valid()
      ensures outcome.Aborted? <==> userCount.None? || ids.None?
      ensures outcome.Finished? ==>
        var sent := CountSent(ids.value, old(pendingMessage), oracles);
        outcome.report == Report(userCount.value, |ids.value|, sent, |ids.value| - sent) &&
        outcome.reportShown == reportShown
    {
      outcome := Aborted;
      if userCount.Some? {
        totalUsers := userCount.value;
        if ids.Some? {
          ProcessBatch(ids.value, oracles);
          outcome := Finished(Report(totalUsers, processed, success, failed), reportShown);
        }
      }
      Reset();
    }
  }

  /** A whole cycle as the handlers see it: capture, a confirm, a second confirm
      and a late message while the run is active, then the run. */
  method ConfirmCycle(admin: int, m: Message, later: Message, ids: seq<int>,
                      oracles: nat -> AttemptOracle)
  {
    var job := new BroadcastState();
    var preview := job.CaptureMessage(admin, [admin], m, Some(|ids|));
    assert preview == Some(Preview(|ids|, GetMessageType(m), EstimateBroadcastDuration(|ids|)));
    var started := job.StartConfirm(0, 7);
    assert started;
    var again := job.StartConfirm(1, 8);
    assert !again && job.statusMessageId == Some(7);
    preview := job.CaptureMessage(admin, [admin], later, Some(|ids|));
    assert preview.None? && job.pendingMessage == Some(m);
    var outcome := job.RunConfirmed(Some(|ids|), Some(ids), oracles, true);
    assert outcome.report.processed == outcome.report.success + outcome.report.failed == |ids|;
    assert job.IsReset();
  }

  /** A cancel between the two halves of a confirm leaves the record idle:
      a second message is captured and a second run starts while the first
      has not finished. */
  method CancelReopensConfirm(admin: int, m: Message, second: Message, ids: seq<int>)
  {
    var job := new BroadcastState();
    var preview := job.CaptureMessage(admin, [admin], m, Some(|ids|));
    var started := job.StartConfirm(0, 7);
    assert started;
    job.Cancel(true);
    preview := job.CaptureMessage(admin, [admin], second, Some(|ids|));
    assert preview.Some? && job.pendingMessage == Some(second);
    var again := job.StartConfirm(1, 8);
    assert again && job.statusMessageId == Some(8);
  }
}
