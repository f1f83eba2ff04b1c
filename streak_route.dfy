/**
  The streak routes: fetch-or-create the caller's record, redeem one voucher, and
  spend one free impulse purchase. Each is a guarded update of one record in the
  store, which maps a user id to that user's record.
 */
module StreakRoute {
  import opened Common
  import opened StreakModel

  datatype StreakError =
    | RecordNotFound
    | VoucherNotFound
    | VoucherAlreadyUsed
    | VoucherExpired
    | NoFreeImpulsePurchases

  function StatusCode(e: StreakError): (code: int)
    ensures code == 404 <==> e == RecordNotFound || e == VoucherNotFound
    ensures code == 400 <==> !(e == RecordNotFound || e == VoucherNotFound)
  {
    match e
    case RecordNotFound => 404
    case VoucherNotFound => 404
    case VoucherAlreadyUsed => 400
    case VoucherExpired => 400
    case NoFreeImpulsePurchases => 400
  }

  function Lookup(records: map<string, StreakRecord>, userId: string): Option<StreakRecord> {
    if userId in records then Some(records[userId]) else None
  }

  /** `findIndex(v => v._id.toString() === voucherId)`: the first index holding the
      id, or -1 when no voucher has it. */
  function FindVoucher(vs: seq<Voucher>, voucherId: string): (k: int)
    ensures -1 <= k < |vs|
    ensures k == -1 <==> forall i :: 0 <= i < |vs| ==> vs[i].id != voucherId
    ensures k >= 0 ==> vs[k].id == voucherId && forall i :: 0 <= i < k ==> vs[i].id != voucherId
  {
    FirstIndex(vs, (v: Voucher) => v.id == voucherId)
  }

  /** `/mystreak`: the stored record when there is one, otherwise a new default
      record, which is then stored. */
  function GetOrCreate(records: map<string, StreakRecord>, userId: string, now: int): (r: (map<string, StreakRecord>, StreakRecord))
    ensures userId in r.0 && r.0[userId] == r.1
    ensures r.0.Keys == records.Keys + {userId}
    ensures forall u :: u in records && u != userId ==> r.0[u] == records[u]
    ensures userId in records ==> r.0 == records
    ensures userId !in records ==> r.1 == NewStreakRecord(userId, now)
  {
    if userId in records then (records, records[userId])
    else (records[userId := NewStreakRecord(userId, now)], NewStreakRecord(userId, now))
  }

  /** `/use-voucher/:voucherId`: the checks in the route's order, then the record
      with exactly that voucher marked used. */
  function RedeemVoucher(rec: Option<StreakRecord>, voucherId: string, now: int): (r: Result<StreakRecord, StreakError>)
    ensures rec.None? ==> r == Err(RecordNotFound)
    ensures rec.Some? ==> var vs := rec.value.vouchersEarned; var k := FindVoucher(vs, voucherId);
      && (k == -1 ==> r == Err(VoucherNotFound))
      && (k >= 0 && vs[k].used ==> r == Err(VoucherAlreadyUsed))
      && (k >= 0 && !vs[k].used && IsExpired(vs[k], now) ==> r == Err(VoucherExpired))
      && (r.Ok? <==> k >= 0 && !vs[k].used && !IsExpired(vs[k], now))
      && (r.Ok? ==>
            && |r.value.vouchersEarned| == |vs|
            && r.value.vouchersEarned[k] == vs[k].(used := true)
            && (forall i :: 0 <= i < |vs| && i != k ==> r.value.vouchersEarned[i] == vs[i])
            && r.value.(vouchersEarned := vs) == rec.value)
  {
    match rec
    case None => Err(RecordNotFound)
    case Some(s) =>
      var k := FindVoucher(s.vouchersEarned, voucherId);
      if k == -1 then Err(VoucherNotFound)
      else if s.vouchersEarned[k].used then Err(VoucherAlreadyUsed)
      else if IsExpired(s.vouchersEarned[k], now) then Err(VoucherExpired)
      else Ok(s.(vouchersEarned := s.vouchersEarned[k := s.vouchersEarned[k].(used := true)]))
  }

  /** `/use-free-impulse`: a missing record or an empty balance is refused, otherwise
      the balance goes down by one and nothing else changes. */
  function SpendFreeImpulse(rec: Option<StreakRecord>): (r: Result<StreakRecord, StreakError>)
    ensures rec.None? ==> r == Err(RecordNotFound)
    ensures rec.Some? && rec.value.freeImpulsePurchases <= 0 ==> r == Err(NoFreeImpulsePurchases)
    ensures r.Ok? <==> rec.Some? && rec.value.freeImpulsePurchases > 0
    ensures r.Ok? ==>
      && r.value.freeImpulsePurchases == rec.value.freeImpulsePurchases - 1
      && r.value.freeImpulsePurchases >= 0
      && r.value.(freeImpulsePurchases := rec.value.freeImpulsePurchases) == rec.value
  {
    match rec
    case None => Err(RecordNotFound)
    case Some(s) =>
      if s.freeImpulsePurchases <= 0 then Err(NoFreeImpulsePurchases)
      else Ok(s.(freeImpulsePurchases := s.freeImpulsePurchases - 1))
  }

  /** Asking twice creates nothing new: the second call returns the record the first
      one produced and leaves the store as the first call left it. */
  lemma GetOrCreateIdempotent(records: map<string, StreakRecord>, userId: string, now: int, later: int)
    ensures var first := GetOrCreate(records, userId, now);
      GetOrCreate(first.0, userId, later) == first
  {
  }

  /** A voucher that was just redeemed cannot be redeemed again. */
  lemma RedeemTwiceFails(rec: StreakRecord, voucherId: string, now: int, later: int)
    requires RedeemVoucher(Some(rec), voucherId, now).Ok?
    ensures RedeemVoucher(Some(RedeemVoucher(Some(rec), voucherId, now).value), voucherId, later) == Err(VoucherAlreadyUsed)
  {
    var vs := rec.vouchersEarned;
    var k := FindVoucher(vs, voucherId);
    var vs' := RedeemVoucher(Some(rec), voucherId, now).value.vouchersEarned;
    assert forall i :: 0 <= i < k ==> vs'[i] == vs[i];
    assert FindVoucher(vs', voucherId) == k;
  }

  /** The expiry check is strict: a voucher is still redeemable at the very
      millisecond it expires, and refused one millisecond later. */
  lemma ExpiryBoundary(rec: StreakRecord, voucherId: string, expiresAt: int)
    requires var k := FindVoucher(rec.vouchersEarned, voucherId);
      k >= 0 && !rec.vouchersEarned[k].used && rec.vouchersEarned[k].expiresAt == Some(expiresAt)
    ensures RedeemVoucher(Some(rec), voucherId, expiresAt).Ok?
    ensures RedeemVoucher(Some(rec), voucherId, expiresAt + 1) == Err(VoucherExpired)
  {
  }

  /** Spending from a non-negative balance never drives it below zero, however many
      times the route is called: a run of calls stops at the first refusal. */
  lemma {:induction false} SpendingNeverGoesNegative(rec: StreakRecord, calls: nat)
    requires rec.freeImpulsePurchases >= 0
    decreases calls
    ensures SpendRepeatedly(rec, calls).freeImpulsePurchases >= 0
    ensures SpendRepeatedly(rec, calls).freeImpulsePurchases == if calls <= rec.freeImpulsePurchases then rec.freeImpulsePurchases - calls else 0
  {
    if calls > 0 {
      var r := SpendFreeImpulse(Some(rec));
      if r.Ok? {
        SpendingNeverGoesNegative(r.value, calls - 1);
      } else {
        SpendingNeverGoesNegative(rec, calls - 1);
      }
    }
  }

  /** The record after `calls` consecutive `/use-free-impulse` requests; a refused
      request leaves it as it is. */
  function SpendRepeatedly(rec: StreakRecord, calls: nat): StreakRecord
    decreases calls
  {
    if calls == 0 then rec
    else match SpendFreeImpulse(Some(rec))
      case Ok(next) => SpendRepeatedly(next, calls - 1)
      case Err(_) => SpendRepeatedly(rec, calls - 1)
  }

  /** The store of streak records, keyed by `User_ID`. */
  class StreakStore {
    var records: map<string, StreakRecord>

    constructor ()
      ensures records == map[]
    {
      records := map[];
    }

    /** `GET /mystreak` */
    method MyStreak(userId: string, now: int) returns (streak: StreakRecord)
      modifies this
      ensures (records, streak) == GetOrCreate(old(records), userId, now)
    {
      if userId in records {
        streak := records[userId];
      } else {
        streak := NewStreakRecord(userId, now);
        records := records[userId := streak];
      }
    }

    /** `POST /use-voucher/:voucherId`: on success the updated voucher is returned
        and the record saved; on failure nothing is written. */
    method UseVoucher(userId: string, voucherId: string, now: int) returns (r: Result<Voucher, StreakError>)
      modifies this
      ensures var outcome := RedeemVoucher(Lookup(old(records), userId), voucherId, now);
        && r.Ok? == outcome.Ok?
        && (r.Err? ==> r.error == outcome.error && records == old(records))
        && (r.Ok? ==>
              && records == old(records)[userId := outcome.value]
              && r.value == outcome.value.vouchersEarned[FindVoucher(outcome.value.vouchersEarned, voucherId)])
    {
      if userId !in records {
        return Err(RecordNotFound);
      }
      var streak := records[userId];
      var i := FindVoucher(streak.vouchersEarned, voucherId);
      if i == -1 {
        return Err(VoucherNotFound);
      }
      if streak.vouchersEarned[i].used {
        return Err(VoucherAlreadyUsed);
      }
      if IsExpired(streak.vouchersEarned[i], now) {
        return Err(VoucherExpired);
      }
      var vouchers := streak.vouchersEarned[i := streak.vouchersEarned[i].(used := true)];
      assert FindVoucher(vouchers, voucherId) == i by {
        assert forall j :: 0 <= j < i ==> vouchers[j] == streak.vouchersEarned[j];
        assert vouchers[i].id == voucherId;
      }
      streak := streak.(vouchersEarned := vouchers);
      records := records[userId := streak];
      r := Ok(vouchers[i]);
    }

    /** `POST /use-free-impulse`: on success the remaining balance is returned. */
    method UseFreeImpulse(userId: string) returns (r: Result<int, StreakError>)
      modifies this
      ensures var outcome := SpendFreeImpulse(Lookup(old(records), userId));
        && r.Ok? == outcome.Ok?
        && (r.Err? ==> r.error == outcome.error && records == old(records))
        && (r.Ok? ==>
              && records == old(records)[userId := outcome.value]
              && r.value == outcome.value.freeImpulsePurchases)
    {
      if userId !in records {
        return Err(RecordNotFound);
      }
      var streak := records[userId];
      if streak.freeImpulsePurchases <= 0 {
        return Err(NoFreeImpulsePurchases);
      }
      streak := streak.(freeImpulsePurchases := streak.freeImpulsePurchases - 1);
      records := records[userId := streak];
      r := Ok(streak.freeImpulsePurchases);
    }
  }
}
