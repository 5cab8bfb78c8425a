/**
 * The subscriber table `DB`: a map from a Telegram id string to its record,
 * the record a confirmed payment writes, and the expiry sweep as a function
 * of the table and the sweep time.
 */
module Subscribers {
  import opened Wrappers

  const SecondsPerDay: int := 86400

  /** A status text other than the two the code compares against. */
  type OtherStatus = s: string | s != "active" && s != "expired" witness ""

  /** `"active"`, `"expired"`, or whatever else a record read back from the file holds. */
  datatype Status = Active | Expired | Other(raw: OtherStatus)

  /**
   * `{"expiry_ts", "last_payment", "status", "expired_at"?}`; the two ISO
   * timestamps are kept as epoch seconds.
   */
  datatype Record = Record(expiryTs: Option<int>, lastPayment: int, status: Status, expiredAt: Option<int>)

  type Table = map<string, Record>

  /** The record a confirmed payment at `now` writes. */
  function Activated(now: int, subsDays: int): (r: Record)
    ensures r.status == Active && r.lastPayment == now && r.expiredAt == None
    ensures r.expiryTs == Some(now + subsDays * SecondsPerDay)
    ensures ExpiryOf(r) == now + subsDays * SecondsPerDay
    ensures Lapsed(r, now) <==> subsDays <= 0
  {
    Record(Some(now + subsDays * SecondsPerDay), now, Active, None)
  }

  /** `DB[tg] = {...}`: the user's record is replaced outright, every other key is untouched. */
  function Renew(db: Table, tg: string, now: int, subsDays: int): (r: Table)
    ensures r.Keys == db.Keys + {tg}
    ensures r[tg].status == Active && r[tg].expiryTs == Some(now + subsDays * SecondsPerDay)
    ensures r[tg].lastPayment == now && r[tg].expiredAt == None
    ensures forall k | k in db && k != tg :: r[k] == db[k]
  {
    db[tg := Activated(now, subsDays)]
  }

  /** `int(rec.get("expiry_ts", 0))`. */
  function ExpiryOf(r: Record): int {
    match r.expiryTs
    case Some(t) => t
    case None => 0
  }

  /** An active record whose expiry is not after `now`. */
  predicate Lapsed(r: Record, now: int) {
    r.status == Active && ExpiryOf(r) <= now
  }

  /** What one step of the sweep does to one record. */
  function SweepRecord(r: Record, now: int): (s: Record)
    ensures !Lapsed(s, now)
    ensures Lapsed(r, now) ==>
      s.status == Expired && s.expiredAt == Some(now) && s.expiryTs == r.expiryTs && s.lastPayment == r.lastPayment
    ensures !Lapsed(r, now) ==> s == r
  {
    if Lapsed(r, now) then r.(status := Expired, expiredAt := Some(now)) else r
  }

  /** The table after `run_expiry` at `now`. */
  function Sweep(db: Table, now: int): (r: Table)
    ensures r.Keys == db.Keys
    ensures forall k | k in db && Lapsed(db[k], now) ::
      && r[k].status == Expired && r[k].expiredAt == Some(now)
      && r[k].expiryTs == db[k].expiryTs && r[k].lastPayment == db[k].lastPayment
    ensures forall k | k in db && !Lapsed(db[k], now) :: r[k] == db[k]
    ensures forall k | k in r :: !Lapsed(r[k], now)
    ensures forall k | k in r :: r[k].status == Active ==> db[k].status == Active && ExpiryOf(db[k]) > now
  {
    map k | k in db :: SweepRecord(db[k], now)
  }

  /** The ids the sweep at `now` moves to expired. */
  function LapsedKeys(db: Table, now: int): set<string> {
    set k | k in db && Lapsed(db[k], now)
  }

  /** The keys whose record the sweep changes are exactly the lapsed ones, so the count is theirs. */
  lemma SweepChangesExactlyLapsed(db: Table, now: int)
    ensures (set k | k in db && Sweep(db, now)[k] != db[k]) == LapsedKeys(db, now)
    ensures |set k | k in db && Sweep(db, now)[k] != db[k]| == |LapsedKeys(db, now)|
  {
  }

  /** Sweeping again at the same time changes nothing and finds nothing to expire. */
  lemma SweepIdempotent(db: Table, now: int)
    ensures Sweep(Sweep(db, now), now) == Sweep(db, now)
    ensures LapsedKeys(Sweep(db, now), now) == {}
  {
  }

  /**
   * A renewal resets the expiry from `now`: the new record does not depend on
   * the previous one, whatever it was.
   */
  lemma RenewalIgnoresPreviousRecord(db1: Table, db2: Table, tg: string, now: int, subsDays: int)
    ensures Renew(db1, tg, now, subsDays)[tg] == Renew(db2, tg, now, subsDays)[tg]
  {
  }

  /**
   * A second confirmation at a later time, with the same period, moves the
   * expiry of the record the first one wrote strictly later.
   */
  lemma LaterRenewalExtends(db: Table, tg: string, first: int, second: int, subsDays: int)
    requires first < second
    ensures ExpiryOf(Renew(Renew(db, tg, first, subsDays), tg, second, subsDays)[tg])
          > ExpiryOf(Renew(db, tg, first, subsDays)[tg])
  {
  }

  /**
   * A grant written at `now` survives every sweep
   * before its expiry and is expired by the first sweep at or after it.
   */
  lemma GrantLapsesExactlyAtExpiry(db: Table, tg: string, now: int, subsDays: int, t: int)
    ensures var granted := Renew(db, tg, now, subsDays);
      && (t < now + subsDays * SecondsPerDay ==> Sweep(granted, t)[tg] == granted[tg])
      && (t >= now + subsDays * SecondsPerDay ==>
            Sweep(granted, t)[tg].status == Expired && Sweep(granted, t)[tg].expiredAt == Some(t))
  {
  }
}
