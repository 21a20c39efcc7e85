/** The referral bot of bot.js: users register through invite links, unlock
    access by joining two channels (which rewards their referrer once), earn a
    balance tiered on their invite count, and request a withdrawal through a
    four-question form. Also the content dispatch and the 30-per-batch loop
    of its broadcast. */
module RewardBot {
  import opened Messages

  /** The smallest balance that opens the withdrawal form (Fcfa). */
  const MinWithdrawal: nat := 10000
  /** Users per broadcast batch. */
  const BatchSize: nat := 30

  function Min(a: int, b: int): int {
    if a <= b then a else b
  }

  // ---------------------------------------------------------------------------
  // Channel membership
  // ---------------------------------------------------------------------------

  datatype MemberStatus = Creator | Administrator | Member | Restricted | Left | Kicked

  /** The answer to one membership lookup; a lookup that throws is LookupFailed. */
  datatype Lookup = Found(status: MemberStatus) | LookupFailed

  predicate Joined(s: MemberStatus) {
    s == Member || s == Administrator || s == Creator
  }

  /** isUserInChannels: both lookups must succeed with a joined status; an
      error in either one answers false. */
  function IsUserInChannels(first: Lookup, second: Lookup): (r: bool)
    ensures r <==> first.Found? && second.Found? && Joined(first.status) && Joined(second.status)
  {
    match first
    case LookupFailed => false
    case Found(s1) =>
      match second
      case LookupFailed => false
      case Found(s2) => Joined(s1) && Joined(s2)
  }

  // ---------------------------------------------------------------------------
  // Balance tiers
  // ---------------------------------------------------------------------------

  /** The per-invite bonus as coded: the `>= 20` test comes after `>= 10`, so
      400 is never paid and every count from 10 up earns 300. */
  function Bonus(invited: nat): (b: int)
    ensures b == 200 || b == 300
    ensures b == 300 <==> invited >= 10
    ensures b != 400
  {
    if invited >= 10 then 300
    else if invited >= 20 then 400
    else 200
  }

  /** The balance updateUserBalance writes: the invite count times its bonus,
      200 per invite below 10 invites and 300 per invite from 10 on. */
  function TieredBalance(invited: nat): (b: nat)
    ensures invited < 10 ==> b == 200 * invited
    ensures invited >= 10 ==> b == 300 * invited
  {
    var b := Bonus(invited);
    invited * b
  }

  /** One more invite strictly raises the balance (200 * 9 < 300 * 10). */
  lemma TieredBalanceGrows(n: nat)
    ensures TieredBalance(n) < TieredBalance(n + 1)
  {
  }

  /** More invites, more balance. */
  lemma TieredBalanceMonotone(a: nat, b: nat)
    requires a <= b
    ensures TieredBalance(a) <= TieredBalance(b)
  {
  }

  /** The withdrawal form opens from 34 validated invites on (34 * 300 = 10200,
      33 * 300 = 9900). */
  lemma WithdrawalNeedsThirtyFourInvites(n: nat)
    ensures TieredBalance(n) >= MinWithdrawal <==> n >= 34
  {
  }

  // ---------------------------------------------------------------------------
  // Users, forms, withdrawals
  // ---------------------------------------------------------------------------

  datatype User = User(
    id: int,
    username: string,
    referrerId: Option<int>,
    invitedCount: nat,
    tickets: nat,
    balance: nat,
    joinedChannels: bool)

  /** JavaScript truthiness of `referrer_id`: absent and 0 are falsy. */
  predicate HasReferrer(u: User): (r: bool)
    ensures u.referrerId.None? ==> !r
    ensures u.referrerId == Some(0) ==> !r
    ensures u.referrerId.Some? && u.referrerId.value != 0 ==> r
  {
    u.referrerId.Some? && u.referrerId.value != 0
  }

  /** A new user record: every counter at its default 0, channels not joined. */
  function NewUser(id: int, username: string, referrerId: Option<int>): (u: User)
    ensures u.id == id && u.username == username && u.referrerId == referrerId
    ensures u.invitedCount == 0 && u.tickets == 0 && u.balance == 0 && !u.joinedChannels
    ensures u.balance == TieredBalance(u.invitedCount)
  {
    User(id, username, referrerId, 0, 0, 0, false)
  }

  /** A referrer's record after one more validated invite: one more invite,
      one more ticket, and the balance of the new count. */
  function Promoted(u: User): (v: User)
    ensures v.invitedCount == u.invitedCount + 1 && v.tickets == u.tickets + 1
    ensures v.balance == TieredBalance(v.invitedCount)
    ensures v.id == u.id && v.username == u.username && v.referrerId == u.referrerId
    ensures v.joinedChannels == u.joinedChannels
  {
    var n := u.invitedCount + 1;
    u.(invitedCount := n, tickets := u.tickets + 1, balance := TieredBalance(n))
  }

  datatype Step = AwaitingPaymentMethod | AwaitingCountry | AwaitingPhone | AwaitingEmail

  /** One user's entry of the withdrawal form map. */
  datatype Form = Form(
    step: Step,
    paymentMethod: Option<string>,
    country: Option<string>,
    phone: Option<string>,
    email: Option<string>)

  const FreshForm := Form(AwaitingPaymentMethod, None, None, None, None)

  /** The answers recorded so far are exactly those of the steps already passed;
      at the email step the email may already be recorded (a save that threw). */
  predicate WellFormed(f: Form) {
    match f.step
    case AwaitingPaymentMethod =>
      f.paymentMethod.None? && f.country.None? && f.phone.None? && f.email.None?
    case AwaitingCountry =>
      f.paymentMethod.Some? && f.country.None? && f.phone.None? && f.email.None?
    case AwaitingPhone =>
      f.paymentMethod.Some? && f.country.Some? && f.phone.None? && f.email.None?
    case AwaitingEmail =>
      f.paymentMethod.Some? && f.country.Some? && f.phone.Some?
  }

  /** One reply to the form: it is recorded as the answer to the current step,
      and the form moves to the next question (the email step stays put). */
  function Advance(f: Form, text: string): (g: Form)
    requires WellFormed(f)
    ensures WellFormed(g)
    ensures g.step == match f.step
      case AwaitingPaymentMethod => AwaitingCountry
      case AwaitingCountry => AwaitingPhone
      case AwaitingPhone => AwaitingEmail
      case AwaitingEmail => AwaitingEmail
    ensures f.step == AwaitingPaymentMethod ==> g == f.(step := g.step, paymentMethod := Some(text))
    ensures f.step == AwaitingCountry ==> g == f.(step := g.step, country := Some(text))
    ensures f.step == AwaitingPhone ==> g == f.(step := g.step, phone := Some(text))
    ensures f.step == AwaitingEmail ==> g == f.(email := Some(text))
  {
    match f.step
    case AwaitingPaymentMethod => f.(paymentMethod := Some(text), step := AwaitingCountry)
    case AwaitingCountry => f.(country := Some(text), step := AwaitingPhone)
    case AwaitingPhone => f.(phone := Some(text), step := AwaitingEmail)
    case AwaitingEmail => f.(email := Some(text))
  }

  /** Four replies from a fresh form fill it in order. */
  lemma FormRecordsRepliesInOrder(method_: string, country: string, phone: string, email: string)
    ensures Advance(Advance(Advance(Advance(FreshForm, method_), country), phone), email)
         == Form(AwaitingEmail, Some(method_), Some(country), Some(phone), Some(email))
  {
  }

  /** A withdrawal request as the handler builds it. */
  datatype Withdrawal = Withdrawal(
    userId: int,
    amount: nat,
    paymentMethod: string,
    country: string,
    phone: string,
    email: string)

  datatype CheckReply = UserNotFound | JoinChannelsFirst | AccessGranted(adminMenu: bool)
  datatype MenuReply = MenuUserNotFound | AskPaymentMethod | BelowMinimum
  datatype FormReply = Ignored | FormUserNotFound | AskCountry | AskPhone | AskEmail
                     | Saved(withdrawal: Withdrawal) | SaveFailed

  /** The bot's mutable state: the user collection keyed by id, the
      `withdrawalProcess` map and the saved withdrawal requests. */
  class Bot {
    var users: map<int, User>
    var forms: map<int, Form>
    var withdrawals: seq<Withdrawal>

    /** Records are stored under their own id; every balance is the tiered
        balance of its invite count, and tickets follow invites one for one;
        every open form is well formed. */
    ghost predicate Valid()
      reads this
    {
      && (forall id | id in users ::
            users[id].id == id &&
            users[id].balance == TieredBalance(users[id].invitedCount) &&
            users[id].tickets == users[id].invitedCount)
      && (forall id | id in forms :: WellFormed(forms[id]))
    }

    /** Whoever has an open form holds at least the minimum, and every saved
        request is for at least the minimum. */
    ghost predicate Funded()
      reads this
    {
      && (forall id | id in forms :: id in users && users[id].balance >= MinWithdrawal)
      && (forall k | 0 <= k < |withdrawals| :: withdrawals[k].amount >= MinWithdrawal)
    }

    constructor ()
      ensures Valid() && Funded()
      ensures users == map[] && forms == map[] && withdrawals == []
    {
      users, forms, withdrawals := map[], map[], [];
    }

    /** registerUser: create-if-absent; an existing record, its referrer
        included, is left as it is. */
    method RegisterUser(userId: int, username: string, referrerId: Option<int>)
      requires Valid()
      modifies this`users
      ensures Valid()
      ensures old(Funded()) ==> Funded()
      ensures users == if userId in old(users) then old(users)
                       else old(users)[userId := NewUser(userId, username, referrerId)]
    {
      if userId !in users {
        users := users[userId := NewUser(userId, username, referrerId)];
      }
    }

    /** updateUserBalance: the balance is overwritten with the tiered balance of
        the current invite count, so a second call changes nothing. */
    method UpdateUserBalance(userId: int)
      modifies this`users
      ensures userId !in old(users) ==> users == old(users)
      ensures userId in old(users) ==>
        users == old(users)[userId := old(users)[userId].(
          balance := TieredBalance(old(users)[userId].invitedCount))]
      ensures userId in users ==> users[userId].balance == TieredBalance(users[userId].invitedCount)
    {
      if userId in users {
        var user := users[userId];
        users := users[userId := user.(balance := TieredBalance(user.invitedCount))];
      }
    }

    /** The `check` button. A found user who is in both channels is granted
        access; on the first such check (joined_channels false to true) a
        truthy referrer gets one more invite, one more ticket and a recomputed
        balance. A later check rewards nobody. */
    method Check(userId: int, first: Lookup, second: Lookup, adminId: int) returns (reply: CheckReply)
      requires Valid()
      modifies this`users
      ensures Valid()
      ensures old(Funded()) ==> Funded()
      ensures users.Keys == old(users).Keys
      ensures userId !in old(users) ==> reply == UserNotFound && users == old(users)
      ensures userId in old(users) && !IsUserInChannels(first, second) ==>
        reply == JoinChannelsFirst && users == old(users)
      ensures userId in old(users) && IsUserInChannels(first, second) ==>
        reply == AccessGranted(userId == adminId)
      ensures userId in old(users) && old(users)[userId].joinedChannels ==> users == old(users)
      ensures var rewarded := userId in old(users) && IsUserInChannels(first, second) &&
                              !old(users)[userId].joinedChannels && HasReferrer(old(users)[userId]);
        forall id | id in users ::
          && users[id].invitedCount == old(users)[id].invitedCount +
               (if rewarded && id == old(users)[userId].referrerId.value then 1 else 0)
          && users[id].joinedChannels ==
               (old(users)[id].joinedChannels || (id == userId && IsUserInChannels(first, second)))
          && users[id].username == old(users)[id].username
          && users[id].referrerId == old(users)[id].referrerId
    {
      if userId !in users {
        return UserNotFound;
      }
      var user := users[userId];
      if !IsUserInChannels(first, second) {
        return JoinChannelsFirst;
      }
      if !user.joinedChannels {
        users := users[userId := user.(joinedChannels := true)];
        if HasReferrer(user) {
          RewardReferrer(user.referrerId.value);
        }
      }
      reply := AccessGranted(userId == adminId);
    }

    /** The referrer's reward: invites and tickets incremented together (an
        unknown id matches nothing), then updateUserBalance. */
    method RewardReferrer(ref: int)
      requires Valid()
      modifies this`users
      ensures Valid()
      ensures old(Funded()) ==> Funded()
      ensures ref !in old(users) ==> users == old(users)
      ensures ref in old(users) ==> users == old(users)[ref := Promoted(old(users)[ref])]
    {
      if ref in users {
        var r := users[ref];
        TieredBalanceGrows(r.invitedCount);
        users := users[ref := r.(invitedCount := r.invitedCount + 1, tickets := r.tickets + 1)];
      }
      UpdateUserBalance(ref);
    }

    /** The withdrawal button: from the minimum balance on it (re)starts the
        form at the payment-method question. */
    method OpenWithdrawal(userId: int) returns (reply: MenuReply)
      requires Valid()
      modifies this`forms
      ensures Valid()
      ensures old(Funded()) ==> Funded()
      ensures userId !in users ==> reply == MenuUserNotFound && forms == old(forms)
      ensures userId in users && users[userId].balance >= MinWithdrawal ==>
        reply == AskPaymentMethod && forms == old(forms)[userId := FreshForm]
      ensures userId in users && users[userId].balance < MinWithdrawal ==>
        reply == BelowMinimum && forms == old(forms)
    {
      if userId !in users {
        return MenuUserNotFound;
      }
      if users[userId].balance >= MinWithdrawal {
        forms := forms[userId := FreshForm];
        reply := AskPaymentMethod;
      } else {
        reply := BelowMinimum;
      }
    }

    /** A text message. With no open form it is ignored; with a form but no
        user record the form is dropped. Otherwise the reply is recorded and
        the next question asked; the email reply builds a request for the
        current balance, and once it is saved (saveOk) the form is dropped. */
    method OnText(userId: int, text: string, saveOk: bool) returns (reply: FormReply)
      requires Valid()
      modifies this`forms, this`withdrawals
      ensures Valid()
      ensures old(Funded()) ==> Funded()
      ensures userId !in old(forms) ==>
        reply == Ignored && forms == old(forms) && withdrawals == old(withdrawals)
      ensures userId in old(forms) && userId !in users ==>
        reply == FormUserNotFound && forms == old(forms) - {userId} && withdrawals == old(withdrawals)
      ensures userId in old(forms) && userId in users && old(forms)[userId].step != AwaitingEmail ==>
        && forms == old(forms)[userId := Advance(old(forms)[userId], text)]
        && withdrawals == old(withdrawals)
        && reply == match old(forms)[userId].step
             case AwaitingPaymentMethod => AskCountry
             case AwaitingCountry => AskPhone
             case _ => AskEmail
      ensures userId in old(forms) && userId in users && old(forms)[userId].step == AwaitingEmail ==>
        var f := old(forms)[userId];
        var w := Withdrawal(userId, users[userId].balance, f.paymentMethod.value,
                            f.country.value, f.phone.value, text);
        if saveOk then
          reply == Saved(w) && withdrawals == old(withdrawals) + [w] && forms == old(forms) - {userId}
        else
          reply == SaveFailed && withdrawals == old(withdrawals) &&
          forms == old(forms)[userId := f.(email := Some(text))]
    {
      if userId !in forms {
        return Ignored;
      }
      if userId !in users {
        forms := forms - {userId};
        return FormUserNotFound;
      }
      var f := forms[userId];
      var g := Advance(f, text);
      forms := forms[userId := g];
      match f.step
      case AwaitingPaymentMethod =>
        reply := AskCountry;
      case AwaitingCountry =>
        reply := AskPhone;
      case AwaitingPhone =>
        reply := AskEmail;
      case AwaitingEmail =>
        var w := Withdrawal(userId, users[userId].balance, g.paymentMethod.value,
                            g.country.value, g.phone.value, g.email.value);
        if saveOk {
          withdrawals := withdrawals + [w];
          forms := forms - {userId};
          reply := Saved(w);
        } else {
          reply := SaveFailed;
        }
    }
  }

  /** A referral as the handlers see it: the referrer and the newcomer
      register, the newcomer checks twice while in both channels, and the
      referrer is rewarded once. */
  method ReferralRewardedOnce(referrer: int, newcomer: int, adminId: int)
    requires referrer != newcomer && referrer != 0
  {
    var bot := new Bot();
    bot.RegisterUser(referrer, "parrain", None);
    bot.RegisterUser(newcomer, "filleul", Some(referrer));
    bot.RegisterUser(newcomer, "filleul", Some(newcomer));
    assert bot.users[newcomer].referrerId == Some(referrer);
    var reply := bot.Check(newcomer, Found(Member), Found(Creator), adminId);
    assert reply == AccessGranted(newcomer == adminId);
    assert bot.users[referrer].invitedCount == 1 && bot.users[referrer].balance == 200;
    reply := bot.Check(newcomer, Found(Member), Found(Member), adminId);
    assert bot.users[referrer].invitedCount == 1 && bot.users[referrer].tickets == 1;
  }

  // ---------------------------------------------------------------------------
  // Broadcast content and the batch loop
  // ---------------------------------------------------------------------------

  /** The content record the /send command builds from the replied-to message. */
  datatype Content = Content(
    text: Option<string>,
    caption: Option<string>,
    photo: Option<string>,
    video: Option<string>,
    document: Option<string>)

  /** The content of a message: the photo is the file id of its last (largest)
      size. An empty size list throws (None). */
  function ContentOf(m: Message): (r: Option<Content>)
    ensures r.Some? <==> m.photo.None? || |m.photo.value| > 0
    ensures r.Some? ==>
      && r.value.photo == (if m.photo.Some? then Some(m.photo.value[|m.photo.value| - 1]) else None)
      && r.value.text == m.text && r.value.caption == m.caption
      && r.value.video == m.video && r.value.document == m.document
  {
    if m.photo.Some? && |m.photo.value| == 0 then None
    else
      var photo := if m.photo.Some? then Some(m.photo.value[|m.photo.value| - 1]) else None;
      Some(Content(m.text, m.caption, photo, m.video, m.document))
  }

  /** sendContent's choice of call: photo, then video, then document, then
      text; no call when the content has none of them. */
  function ContentCall(chatId: int, c: Content): (r: Option<Call>)
    ensures r.Some? ==> r.value.Chat() == chatId
    ensures r.None? <==>
      !Truthy(c.photo) && c.video.None? && c.document.None? && !Truthy(c.text)
    ensures Truthy(c.photo) ==> r == Some(SendPhoto(chatId, c.photo.value, c.caption))
    ensures !Truthy(c.photo) && c.video.Some? ==> r == Some(SendVideo(chatId, c.video.value, c.caption))
    ensures !Truthy(c.photo) && c.video.None? && c.document.Some? ==>
      r == Some(SendDocument(chatId, c.document.value, c.caption))
    ensures !Truthy(c.photo) && c.video.None? && c.document.None? && Truthy(c.text) ==>
      r == Some(SendText(chatId, c.text.value))
  {
    if Truthy(c.photo) then Some(SendPhoto(chatId, c.photo.value, c.caption))
    else if c.video.Some? then Some(SendVideo(chatId, c.video.value, c.caption))
    else if c.document.Some? then Some(SendDocument(chatId, c.document.value, c.caption))
    else if Truthy(c.text) then Some(SendText(chatId, c.text.value))
    else None
  }

  /** A photo message is broadcast as its largest size, whatever else it carries. */
  lemma LargestPhotoIsSent(chatId: int, m: Message)
    requires m.photo.Some? && |m.photo.value| > 0 && m.photo.value[|m.photo.value| - 1] != ""
    ensures ContentOf(m).Some?
    ensures ContentCall(chatId, ContentOf(m).value) ==
      Some(SendPhoto(chatId, m.photo.value[|m.photo.value| - 1], m.caption))
  {
  }

  /** sendContent settles successfully when it makes no call or the call is delivered. */
  predicate ContentSucceeds(chatId: int, c: Content, api: ApiResult) {
    ContentCall(chatId, c).None? || api.Delivered?
  }

  /** How many of `chatIds` are reached; recipient i answers with outcomes(i). */
  function DeliveredCount(chatIds: seq<int>, c: Content, outcomes: nat -> ApiResult): (n: nat)
    ensures n <= |chatIds|
  {
    if chatIds == [] then 0
    else
      var last := |chatIds| - 1;
      DeliveredCount(chatIds[..last], c, outcomes) +
        (if ContentSucceeds(chatIds[last], c, outcomes(last)) then 1 else 0)
  }

  function Flatten(batches: seq<seq<int>>): seq<int> {
    if batches == [] then []
    else Flatten(batches[..|batches| - 1]) + batches[|batches| - 1]
  }

  lemma FlattenSnoc(batches: seq<seq<int>>, b: seq<int>)
    ensures Flatten(batches + [b]) == Flatten(batches) + b
  {
  }

  /** One slice `Promise.all`-ed, one recipient after the other: how many of
      chatIds[lo..hi] are reached. */
  method SendSlice(chatIds: seq<int>, lo: nat, hi: nat, c: Content, outcomes: nat -> ApiResult)
    returns (reached: nat)
    requires lo <= hi <= |chatIds|
    ensures reached <= hi - lo
    ensures DeliveredCount(chatIds[..hi], c, outcomes) ==
            DeliveredCount(chatIds[..lo], c, outcomes) + reached
  {
    reached := 0;
    var j := lo;
    while j < hi
      invariant lo <= j <= hi
      invariant reached <= j - lo
      invariant DeliveredCount(chatIds[..j], c, outcomes) ==
                DeliveredCount(chatIds[..lo], c, outcomes) + reached
    {
      assert chatIds[..j + 1][..j] == chatIds[..j];
      if ContentSucceeds(chatIds[j], c, outcomes(j)) {
        reached := reached + 1;
      }
      j := j + 1;
    }
  }

  /** The number of slices of BatchSize that cover n recipients. */
  lemma SliceCount(n: nat, count: nat)
    requires count > 0 ==> (count - 1) * BatchSize < n
    requires n <= count * BatchSize
    ensures count == (n + BatchSize - 1) / BatchSize
  {
  }

  lemma PrefixSplit(s: seq<int>, i: nat, j: nat)
    requires i <= j <= |s|
    ensures s[..i] + s[i..j] == s[..j]
  {
  }

  /** Slice k of `batches` is chatIds[k * BatchSize .. min((k + 1) * BatchSize, n)]. */
  predicate Slices(chatIds: seq<int>, batches: seq<seq<int>>) {
    forall k :: 0 <= k < |batches| ==>
      k * BatchSize < |chatIds| &&
      batches[k] == chatIds[k * BatchSize .. Min((k + 1) * BatchSize, |chatIds|)]
  }

  lemma SlicesSnoc(chatIds: seq<int>, batches: seq<seq<int>>)
    requires Slices(chatIds, batches)
    requires |batches| * BatchSize < |chatIds|
    ensures var i := |batches| * BatchSize;
      Slices(chatIds, batches + [chatIds[i .. Min(i + BatchSize, |chatIds|)]])
  {
  }

  /** The broadcast loop: consecutive slices of BatchSize recipients, each
      recipient sent to once, successes and failures counted. A one-second
      pause follows every slice. */
  method BroadcastInBatches(chatIds: seq<int>, c: Content, outcomes: nat -> ApiResult)
    returns (success: nat, failed: nat, batches: seq<seq<int>>)
    ensures success == DeliveredCount(chatIds, c, outcomes)
    ensures success + failed == |chatIds|
    ensures |batches| == (|chatIds| + BatchSize - 1) / BatchSize
    ensures Slices(chatIds, batches)
    ensures Flatten(batches) == chatIds
  {
    var n := |chatIds|;
    success, failed, batches := 0, 0, [];
    var i := 0;
    while i < n
      invariant i <= n && i <= |batches| * BatchSize
      invariant i < n ==> i == |batches| * BatchSize
      invariant batches != [] ==> (|batches| - 1) * BatchSize < n
      invariant Slices(chatIds, batches)
      invariant Flatten(batches) == chatIds[..i]
      invariant success == DeliveredCount(chatIds[..i], c, outcomes)
      invariant success + failed == i
    {
      var hi := Min(i + BatchSize, n);
      var reached := SendSlice(chatIds, i, hi, c, outcomes);
      success, failed := success + reached, failed + (hi - i - reached);
      FlattenSnoc(batches, chatIds[i..hi]);
      PrefixSplit(chatIds, i, hi);
      SlicesSnoc(chatIds, batches);
      batches := batches + [chatIds[i..hi]];
      i := hi;
    }
    SliceCount(n, |batches|);
    assert chatIds[..n] == chatIds;
  }

  /** Every recipient lies in exactly one slice: slice j / BatchSize, at
      offset j % BatchSize. */
  lemma EachRecipientInOneBatch(chatIds: seq<int>, batches: seq<seq<int>>, j: nat)
    requires Slices(chatIds, batches)
    requires |batches| == (|chatIds| + BatchSize - 1) / BatchSize
    requires j < |chatIds|
    ensures j / BatchSize < |batches| && j % BatchSize < |batches[j / BatchSize]|
    ensures batches[j / BatchSize][j % BatchSize] == chatIds[j]
    ensures forall k :: 0 <= k < |batches| && k * BatchSize <= j < k * BatchSize + |batches[k]| ==>
      k == j / BatchSize
  {
    var q := j / BatchSize;
    assert q * BatchSize <= j < q * BatchSize + BatchSize;
    assert q < |batches|;
    assert |batches[q]| == Min((q + 1) * BatchSize, |chatIds|) - q * BatchSize;
    forall k | 0 <= k < |batches| && k * BatchSize <= j < k * BatchSize + |batches[k]|
      ensures k == q
    {
      assert |batches[k]| == Min((k + 1) * BatchSize, |chatIds|) - k * BatchSize;
    }
  }
}
