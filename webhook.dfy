/**
 * The decision half of the payment webhook: which inbound confirmations may
 * change the subscriber table, and for which Telegram user. Every step here is
 * a pure expression of the handler; the state change lives in Lifecycle.
 */
module Webhook {
  import opened Wrappers
  import opened PyText

  /** A decoded JSON value, as Instamojo's metadata may carry it (floats are not modelled). */
  datatype Json =
    | JNull
    | JBool(b: bool)
    | JInt(i: int)
    | JStr(s: string)
    | JArr(items: seq<Json>)
    | JObj(fields: map<string, Json>)

  /** Outcome of the provider's verification request for a payment request id. */
  datatype Verification =
    | VerifyError                                        // the GET raised, returned a non-2xx status, or was not JSON
    | Verified(status: string, metadata: Option<Json>)   // `pr["status"]` (missing reads as "") and `pr.get("metadata")`

  /** What the handler answers. Every answer but ServerError is an HTTP 200 with that text. */
  datatype Reply = NoId | VerifyFailed | Ignored | NoUser | ServerError | Ok

  /** Either the handler stops with a reply, or it goes on to grant access to `tg`. */
  datatype Decision = Reject(reply: Reply) | Accept(tg: string)

  datatype UserLookup = UserFound(id: string) | UserMissing | MetadataNotObject

  /** What `requests.post(createChatInviteLink)` and `r.json()` did. */
  datatype InviteResponse = Threw | Http(ok: bool, link: Option<string>)

  /** What `tg_create_invite_link` gave its caller: an exception, or a link that may be None. */
  datatype InviteResult = Raised | Returned(link: Option<string>)

  const AcceptedStatuses: set<string> := {"Completed", "Credit", "Success"}
  const UserIdKey: string := "telegram_user_id"
  const MinInviteSeconds: int := 60

  /** `form.get("payment_request_id") or form.get("payment_request") or ""`. */
  function RequestId(form: map<string, string>): (id: string)
    ensures id == "" <==>
      && ("payment_request_id" !in form || form["payment_request_id"] == "")
      && ("payment_request" !in form || form["payment_request"] == "")
    ensures "payment_request_id" in form && form["payment_request_id"] != "" ==> id == form["payment_request_id"]
    ensures id != "" && !("payment_request_id" in form && form["payment_request_id"] != "") ==>
      "payment_request" in form && id == form["payment_request"]
  {
    if "payment_request_id" in form && form["payment_request_id"] != "" then form["payment_request_id"]
    else if "payment_request" in form && form["payment_request"] != "" then form["payment_request"]
    else ""
  }

  predicate IsAcceptedStatus(status: string) {
    status in AcceptedStatuses
  }

  /** Python truthiness of a JSON value, as used by `pr.get("metadata") or {}`. */
  predicate Truthy(j: Json) {
    match j
    case JNull => false
    case JBool(b) => b
    case JInt(i) => i != 0
    case JStr(s) => s != ""
    case JArr(items) => items != []
    case JObj(fields) => fields != map[]
  }

  /**
   * `str(v)` of a decoded JSON value. Lists and objects are abbreviated to their
   * opening bracket: what matters is that their text is never a digit string.
   */
  function PyStr(j: Json): (r: string)
    ensures j.JStr? ==> r == j.s
    ensures j.JInt? ==> r == IntToDecimal(j.i)
    ensures IsDigitString(r) ==> j.JStr? || (j.JInt? && j.i >= 0)
    ensures j.JInt? ==> (IsDigitString(r) <==> j.i >= 0)
  {
    var r := match j
      case JNull => "None"
      case JBool(b) => if b then "True" else "False"
      case JInt(i) => IntToDecimal(i)
      case JStr(s) => s
      case JArr(_) => "[...]"
      case JObj(_) => "{...}";
    assert !j.JStr? && !j.JInt? ==> !IsDigit(r[0]);
    r
  }

  /**
   * The metadata after `or {}` and, for a string, `json.loads`; `parse` is the
   * JSON decoder, returning None where `json.loads` raises.
   */
  function MetadataValue(metadata: Option<Json>, parse: string -> Option<Json>): (m: Json)
    ensures metadata == None || !Truthy(metadata.value) ==> m == JObj(map[])
    ensures metadata.Some? && Truthy(metadata.value) && !metadata.value.JStr? ==> m == metadata.value
    ensures metadata.Some? && metadata.value.JStr? && metadata.value.s != "" ==>
      m == (if parse(metadata.value.s).Some? then parse(metadata.value.s).value else JObj(map[]))
  {
    var m := if metadata.Some? && Truthy(metadata.value) then metadata.value else JObj(map[]);
    if m.JStr? then
      match parse(m.s)
      case None => JObj(map[])
      case Some(v) => v
    else m
  }

  /**
   * `str(meta.get("telegram_user_id", "")).strip()` checked with `isdigit()`.
   * When the metadata is not an object `meta.get` raises, which the handler
   * does not catch.
   */
  function UserIdOf(metadata: Option<Json>, parse: string -> Option<Json>): (u: UserLookup)
    ensures u.UserFound? ==> IsDigitString(u.id)
    ensures u.MetadataNotObject? <==> !MetadataValue(metadata, parse).JObj?
    ensures var m := MetadataValue(metadata, parse);
      m.JObj? ==>
        var raw := if UserIdKey in m.fields then m.fields[UserIdKey] else JStr("");
        && (u.UserFound? <==> IsDigitString(Strip(PyStr(raw))))
        && (u.UserFound? ==> u.id == Strip(PyStr(raw)))
    ensures u.UserFound? ==> UserIdKey in MetadataValue(metadata, parse).fields
  {
    var m := MetadataValue(metadata, parse);
    if !m.JObj? then MetadataNotObject
    else
      var raw := if UserIdKey in m.fields then m.fields[UserIdKey] else JStr("");
      var tg := Strip(PyStr(raw));
      if IsDigitString(tg) then UserFound(tg) else UserMissing
  }

  /** The four checks of the handler, in order; only a confirmation passing all four is accepted. */
  function Decide(form: map<string, string>, verification: Verification, parse: string -> Option<Json>): (d: Decision)
    ensures d.Accept? <==>
      && RequestId(form) != ""
      && verification.Verified?
      && IsAcceptedStatus(verification.status)
      && UserIdOf(verification.metadata, parse).UserFound?
    ensures d.Accept? ==> IsDigitString(d.tg) && d.tg == UserIdOf(verification.metadata, parse).id
    ensures d == Reject(NoId) <==> RequestId(form) == ""
    ensures d == Reject(VerifyFailed) <==> RequestId(form) != "" && verification.VerifyError?
    ensures d == Reject(Ignored) <==>
      RequestId(form) != "" && verification.Verified? && !IsAcceptedStatus(verification.status)
    ensures d == Reject(NoUser) <==>
      && RequestId(form) != "" && verification.Verified? && IsAcceptedStatus(verification.status)
      && UserIdOf(verification.metadata, parse) == UserMissing
    ensures d == Reject(ServerError) <==>
      && RequestId(form) != "" && verification.Verified? && IsAcceptedStatus(verification.status)
      && UserIdOf(verification.metadata, parse) == MetadataNotObject
    ensures d.Reject? ==> d.reply != Ok
  {
    if RequestId(form) == "" then Reject(NoId)
    else if verification.VerifyError? then Reject(VerifyFailed)
    else if !IsAcceptedStatus(verification.status) then Reject(Ignored)
    else
      match UserIdOf(verification.metadata, parse)
      case MetadataNotObject => Reject(ServerError)
      case UserMissing => Reject(NoUser)
      case UserFound(tg) => Accept(tg)
  }

  /** The handler's answer for a decision: an accepted confirmation always answers "ok". */
  function ReplyOf(d: Decision): (r: Reply)
    ensures d.Accept? ==> r == Ok
    ensures d.Reject? ==> r == d.reply
  {
    match d
    case Reject(r) => r
    case Accept(_) => Ok
  }

  /** `int(time.time()) + max(60, int(expire_seconds))`: the invite lives at least a minute. */
  function InviteExpiry(now: int, ttl: int): (t: int)
    ensures t - now >= MinInviteSeconds && t - now >= ttl
    ensures t - now == MinInviteSeconds || t - now == ttl
  {
    now + if ttl < MinInviteSeconds then MinInviteSeconds else ttl
  }

  /** `r.json() if r.ok else {}` and then `.get("result", {}).get("invite_link")`. */
  function InviteOutcomeOf(resp: InviteResponse): (r: InviteResult)
    ensures r.Raised? <==> resp.Threw?
    ensures resp.Http? && !resp.ok ==> r == Returned(None)
    ensures resp.Http? && resp.ok ==> r == Returned(resp.link)
  {
    match resp
    case Threw => Raised
    case Http(ok, link) => Returned(if ok then link else None)
  }

  /** A numeric user id in the metadata is accepted exactly when it is non-negative. */
  lemma NumericUserId(n: int, parse: string -> Option<Json>)
    ensures var u := UserIdOf(Some(JObj(map[UserIdKey := JInt(n)])), parse);
      (u.UserFound? <==> n >= 0) && (n >= 0 ==> u.id == NatToDecimal(n))
  {
    var fields := map[UserIdKey := JInt(n)];
    assert Truthy(JObj(fields)) by { assert UserIdKey in fields; }
    assert MetadataValue(Some(JObj(fields)), parse) == JObj(fields);
    if n >= 0 {
      StripKeepsDigitString(NatToDecimal(n));
    } else {
      NegativeDecimalStaysSigned(n);
    }
  }

  /** `str(n).strip()` of a negative integer keeps its minus sign, so it is no user id. */
  lemma NegativeDecimalStaysSigned(n: int)
    requires n < 0
    ensures Strip(IntToDecimal(n)) == IntToDecimal(n)
    ensures !IsDigitString(Strip(IntToDecimal(n)))
  {
    var digits := NatToDecimal(-n);
    var text := "-" + digits;
    assert text[|text| - 1] == digits[|digits| - 1];
    assert !IsSpace(text[0]) && !IsSpace(text[|text| - 1]);
  }

  /**
   * For object metadata whose `telegram_user_id` is a string, the user is
   * found exactly when that string, stripped, is a digit string, and the id
   * is the stripped string.
   */
  lemma StringUserId(fields: map<string, Json>, s: string, parse: string -> Option<Json>)
    requires UserIdKey in fields && fields[UserIdKey] == JStr(s)
    ensures UserIdOf(Some(JObj(fields)), parse) ==
      if IsDigitString(Strip(s)) then UserFound(Strip(s)) else UserMissing
  {
    assert Truthy(JObj(fields)) by { assert UserIdKey in fields; }
  }

  /** Object metadata without a `telegram_user_id` gives no user. */
  lemma MissingUserIdKey(fields: map<string, Json>, parse: string -> Option<Json>)
    requires UserIdKey !in fields
    ensures UserIdOf(Some(JObj(fields)), parse) == UserMissing
  {
    assert Strip("") == "";
  }

  /**
   * The metadata that the checkout page attaches, `json.dumps({"telegram_user_id": tg})`,
   * comes back as the same user id once the decoder reads it as that object.
   */
  lemma PayMetadataRoundTrip(tg: string, text: string, parse: string -> Option<Json>)
    requires IsDigitString(tg) && text != ""
    requires parse(text) == Some(JObj(map[UserIdKey := JStr(tg)]))
    ensures UserIdOf(Some(JStr(text)), parse) == UserFound(tg)
  {
    assert MetadataValue(Some(JStr(text)), parse) == JObj(map[UserIdKey := JStr(tg)]);
    StripKeepsDigitString(tg);
  }

  /** Any status outside the accepted set stops the handler before the metadata is looked at. */
  lemma OnlyAcceptedStatusesAccept(form: map<string, string>, verification: Verification, parse: string -> Option<Json>)
    ensures Decide(form, verification, parse).Accept? ==>
      verification.Verified? && verification.status in {"Completed", "Credit", "Success"}
  {
  }
}
