/**
 * The global subscriber table and the two handlers that change it: the
 * payment webhook and the expiry sweep. The network calls they make are
 * given as inputs (what the provider or Telegram answered) and reported as
 * outputs (what was asked of them).
 */
module Lifecycle {
  import opened Wrappers
  import opened PyText
  import opened Webhook
  import opened Subscribers

  /** A call the payment handler makes to Telegram. */
  datatype Call =
    | CreateInvite(expireDate: int, memberLimit: int)   // createChatInviteLink
    | SendMessage(chatId: int, link: Option<string>)     // the "payment successful" message carrying the invite

  /** The table after a confirmation: only an accepted one whose invite creation did not raise writes. */
  function ConfirmTable(db: Table, d: Decision, invite: InviteResult, now: int, subsDays: int): (r: Table)
    ensures d.Reject? || invite.Raised? ==> r == db
    ensures d.Accept? && invite.Returned? ==>
      && r.Keys == db.Keys + {d.tg}
      && r[d.tg] == Activated(now, subsDays)
      && forall k | k in db && k != d.tg :: r[k] == db[k]
  {
    if d.Accept? && invite.Returned? then Renew(db, d.tg, now, subsDays) else db
  }

  /** The same confirmation delivered `n` times in a row at the same `now`. */
  function Redeliver(db: Table, d: Decision, invite: InviteResult, now: int, subsDays: int, n: nat): Table {
    if n == 0 then db else ConfirmTable(Redeliver(db, d, invite, now, subsDays, n - 1), d, invite, now, subsDays)
  }

  /** A rejected confirmation (no id, failed verification, ignored status, metadata that is not an object, no user) is a no-op however often it comes. */
  lemma {:induction false} RejectedRedeliveryIsNoOp(db: Table, d: Decision, invite: InviteResult, now: int, subsDays: int, n: nat)
    requires d.Reject?
    ensures Redeliver(db, d, invite, now, subsDays, n) == db
  {
    if n > 0 {
      RejectedRedeliveryIsNoOp(db, d, invite, now, subsDays, n - 1);
    }
  }

  /**
   * No payment-reference deduplication: every delivery of an accepted
   * confirmation renews again, and `n` of them leave what one leaves.
   */
  lemma {:induction false} AcceptedRedeliveryRenewsOnce(db: Table, d: Decision, invite: InviteResult, now: int, subsDays: int, n: nat)
    requires d.Accept? && invite.Returned? && n > 0
    ensures Redeliver(db, d, invite, now, subsDays, n) == Renew(db, d.tg, now, subsDays)
  {
    if n > 1 {
      AcceptedRedeliveryRenewsOnce(db, d, invite, now, subsDays, n - 1);
      var once := Renew(db, d.tg, now, subsDays);
      assert Renew(once, d.tg, now, subsDays) == once;
    }
  }

  /** A replayed success at a later time renews from that time, as though the first never happened. */
  lemma ReplayRenewsFromLatest(db: Table, d: Decision, invite: InviteResult, first: int, second: int, subsDays: int)
    requires d.Accept? && invite.Returned?
    ensures ConfirmTable(ConfirmTable(db, d, invite, first, subsDays), d, invite, second, subsDays)
         == ConfirmTable(db, d, invite, second, subsDays)
  {
  }

  /**
   * A non-OK invite response reads as a missing link without raising, so an
   * accepted confirmation is still written as active.
   */
  lemma NonOkInviteStillActivates(db: Table, d: Decision, link: Option<string>, now: int, subsDays: int)
    requires d.Accept?
    ensures var r := ConfirmTable(db, d, InviteOutcomeOf(Http(false, link)), now, subsDays);
      d.tg in r && r[d.tg].status == Active
  {
  }

  /**
   * The in-memory `DB` together with what was last written to the
   * subscribers file (`save_db`), and the configured period and invite TTL.
   */
  class SubscriberStore {
    var table: Table
    ghost var saved: Table
    ghost var saves: nat
    const subsDays: int
    const inviteTtl: int

    /** `DB = load_db()`, with `SUBSCRIPTION_DAYS` and `INVITE_LINK_TTL_SECONDS`. */
    constructor Load(initial: Table, subsDays: int, inviteTtl: int)
      ensures table == initial && saved == initial && saves == 0
      ensures this.subsDays == subsDays && this.inviteTtl == inviteTtl
    {
      table := initial;
      saved := initial;
      saves := 0;
      this.subsDays := subsDays;
      this.inviteTtl := inviteTtl;
    }

    /**
     * `instamojo_webhook`. `verification` is the provider's answer for the
     * request id, `inviteResponse` Telegram's answer to the invite request,
     * `parse` the JSON decoder and `now` the time of the call.
     */
    method ConfirmPayment(form: map<string, string>, verification: Verification, inviteResponse: InviteResponse,
                          now: int, parse: string -> Option<Json>)
      returns (reply: Reply, calls: seq<Call>)
      modifies this
      ensures var d := Decide(form, verification, parse);
        var invite := InviteOutcomeOf(inviteResponse);
        && reply == ReplyOf(d)
        && table == ConfirmTable(old(table), d, invite, now, subsDays)
        && (d.Reject? ==> calls == [])
        && (d.Accept? ==> calls == [CreateInvite(InviteExpiry(now, inviteTtl), 1)]
                                   + (if invite.Returned? && |d.tg| <= MaxIntDigits then [SendMessage(DecimalValue(d.tg), invite.link)] else []))
        && (d.Accept? && invite.Returned? ==> saved == table && saves == old(saves) + 1)
        && (!(d.Accept? && invite.Returned?) ==> saved == old(saved) && saves == old(saves))
    {
      calls := [];
      ghost var d := Decide(form, verification, parse);
      var reqId := RequestId(form);
      if reqId == "" {
        assert d == Reject(NoId);
        return NoId, calls;
      }
      if verification.VerifyError? {
        assert d == Reject(VerifyFailed);
        return VerifyFailed, calls;
      }
      if !IsAcceptedStatus(verification.status) {
        assert d == Reject(Ignored);
        return Ignored, calls;
      }
      var user := UserIdOf(verification.metadata, parse);
      if user.MetadataNotObject? {
        // `meta.get` raises outside any try block: Flask answers 500
        assert d == Reject(ServerError);
        return ServerError, calls;
      }
      if user.UserMissing? {
        assert d == Reject(NoUser);
        return NoUser, calls;
      }
      var tg := user.id;
      assert d == Accept(tg);
      calls := [CreateInvite(InviteExpiry(now, inviteTtl), 1)];
      var invite := InviteOutcomeOf(inviteResponse);
      if invite.Raised? {
        // the exception is swallowed: nothing is written and the answer is still "ok"
        return Ok, calls;
      }
      table := table[tg := Activated(now, subsDays)];
      saved := table;
      saves := saves + 1;
      if |tg| <= MaxIntDigits {
        // a longer id makes `int(tg)` raise after the save; the handler swallows it
        calls := calls + [SendMessage(DecimalValue(tg), invite.link)];
      }
      reply := Ok;
    }

    /**
     * `run_expiry` at `now`: every lapsed active record becomes expired,
     * `expired` counts them and `revoked` lists the ids whose removal from the
     * channel was attempted. The file is written only when something changed.
     */
    method RunExpiry(now: int) returns (expired: nat, revoked: seq<string>)
      modifies this
      ensures table == Sweep(old(table), now)
      ensures expired == |LapsedKeys(old(table), now)| == |revoked|
      ensures forall u :: u in revoked <==> u in LapsedKeys(old(table), now)
      ensures expired > 0 ==> saved == table && saves == old(saves) + 1
      ensures expired == 0 ==> saved == old(saved) && saves == old(saves) && table == old(table)
    {
      ghost var start := table;
      var pending := table.Keys;
      expired := 0;
      revoked := [];
      while pending != {}
        invariant SweepProgress(start, now, pending, table, revoked, expired)
        invariant saved == old(saved) && saves == old(saves)
        decreases pending
      {
        var uid :| uid in pending;
        var rec := table[uid];
        SweepStep(start, now, pending, table, revoked, expired, uid);
        if rec.status == Active && ExpiryOf(rec) <= now {
          revoked := revoked + [uid];   // tg_remove_user: best effort, errors swallowed
          table := table[uid := rec.(status := Expired, expiredAt := Some(now))];
          expired := expired + 1;
        }
        pending := pending - {uid};
      }
      SweepDone(start, now, table, revoked, expired);
      if expired > 0 {
        saved := table;
        saves := saves + 1;
      }
    }
  }

  /**
   * The state of `run_expiry` with the ids in `pending` still to visit: the
   * visited records are swept, the others as they were, and the lapsed ones
   * among the visited were revoked and counted.
   */
  ghost predicate SweepProgress(start: Table, now: int, pending: set<string>, table: Table, revoked: seq<string>, expired: nat) {
    && pending <= start.Keys
    && table.Keys == start.Keys
    && (forall k | k in start :: table[k] == if k in pending then start[k] else SweepRecord(start[k], now))
    && (forall u :: u in revoked <==> u in LapsedKeys(start, now) && u !in pending)
    && expired == |revoked| == |LapsedKeys(start, now) - pending|
  }

  /** Visiting one pending id keeps SweepProgress, whether or not its record lapsed. */
  lemma SweepStep(start: Table, now: int, pending: set<string>, table: Table, revoked: seq<string>, expired: nat, uid: string)
    requires SweepProgress(start, now, pending, table, revoked, expired) && uid in pending
    ensures Lapsed(table[uid], now) ==>
      SweepProgress(start, now, pending - {uid}, table[uid := SweepRecord(table[uid], now)], revoked + [uid], expired + 1)
    ensures !Lapsed(table[uid], now) ==> SweepProgress(start, now, pending - {uid}, table, revoked, expired)
  {
    var lapsed := LapsedKeys(start, now);
    assert table[uid] == start[uid];
    if uid in lapsed {
      assert lapsed - (pending - {uid}) == (lapsed - pending) + {uid};
    } else {
      assert lapsed - (pending - {uid}) == lapsed - pending;
    }
  }

  /** With nothing pending, the table is the swept table and everything lapsed was revoked and counted. */
  lemma SweepDone(start: Table, now: int, table: Table, revoked: seq<string>, expired: nat)
    requires SweepProgress(start, now, {}, table, revoked, expired)
    ensures table == Sweep(start, now)
    ensures expired == |LapsedKeys(start, now)| == |revoked|
    ensures forall u :: u in revoked <==> u in LapsedKeys(start, now)
    ensures expired == 0 ==> table == start
  {
  }

  /** User "42" pays at t = 1000 with a 30-day period and a 600-second invite. */
  method FirstPaymentScenario() {
    var store := new SubscriberStore.Load(map[], 30, 600);
    var metadata := Some(JObj(map[UserIdKey := JStr("42")]));
    assert Truthy(metadata.value) by { assert UserIdKey in metadata.value.fields; }
    StripKeepsDigitString("42");
    var reply, calls := store.ConfirmPayment(map["payment_request_id" := "MOJO1"], Verified("Completed", metadata),
                                             Http(true, Some("https://t.me/+invite")), 1000, s => None);
    assert reply == Ok;
    assert store.table == map["42" := Record(Some(1000 + 2592000), 1000, Active, None)];
    assert calls[0] == CreateInvite(1600, 1);
    assert DecimalValue("42") == 42;
    assert calls == [CreateInvite(1600, 1), SendMessage(42, Some("https://t.me/+invite"))];
  }

  /** The sweep one second after that expiry revokes "42"; a second sweep finds nothing. */
  method LapseScenario() {
    var store := new SubscriberStore.Load(map["42" := Activated(1000, 30)], 30, 600);
    var now := 1000 + 2592000 + 1;
    ghost var initial := store.table;
    assert LapsedKeys(initial, now) == {"42"};
    var expired, revoked := store.RunExpiry(now);
    assert expired == 1 && revoked == ["42"];
    assert store.table["42"].status == Expired && store.table["42"].expiredAt == Some(now);
    SweepIdempotent(initial, now);
    var again, _ := store.RunExpiry(now);
    assert again == 0;
  }
}
