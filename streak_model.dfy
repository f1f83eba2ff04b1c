/**
  The per-user streak record and its vouchers, with the schema's defaults and
  enumerations. Times are milliseconds since the epoch.
 */
module StreakModel {
  import opened Common

  datatype VoucherType = Weekly | Monthly

  /** One entry of `vouchersEarned`. The schema restricts `voucherType` to the two
      values when it is set but does not require it; `expiresAt` has no default. */
  datatype Voucher = Voucher(
    id: string,
    voucherType: Option<VoucherType>,
    earnedAt: int,
    used: bool,
    expiresAt: Option<int>)

  /** One streak document. `User_ID` is indexed but not unique; the stores of this
      model keep one record per user id. */
  datatype StreakRecord = StreakRecord(
    userId: string,
    currentStreak: int,
    longestStreak: int,
    lastNonImpulseDate: Option<int>,
    completedStreaks: int,
    freeImpulsePurchases: int,
    streakResetDate: Option<int>,
    vouchersEarned: seq<Voucher>,
    createdAt: int,
    updatedAt: int)

  /** The document the store creates when only `User_ID` is given: every counter
      defaults to 0, both dates to null, the voucher list to empty, the
      timestamps to the creation time. */
  function NewStreakRecord(userId: string, now: int): StreakRecord {
    StreakRecord(userId, 0, 0, None, 0, 0, None, [], now, now)
  }

  /** A voucher sub-document created with a type and an optional expiry: `used`
      defaults to false and `earnedAt` to the creation time. */
  function NewVoucher(id: string, voucherType: VoucherType, expiresAt: Option<int>, now: int): Voucher {
    Voucher(id, Some(voucherType), now, false, expiresAt)
  }

  /** `new Date() > voucher.expiresAt`. A voucher without an expiry compares against
      `undefined`, which is false, so it never expires. */
  predicate IsExpired(v: Voucher, now: int) {
    v.expiresAt.Some? && now > v.expiresAt.value
  }

  /** The record's schema defaults: all four counters start at 0 and both optional
      dates at null, whoever the user is. */
  lemma NewStreakRecordDefaults(userId: string, now: int)
    ensures var r := NewStreakRecord(userId, now);
      && r.currentStreak == 0 && r.longestStreak == 0
      && r.completedStreaks == 0 && r.freeImpulsePurchases == 0
      && r.lastNonImpulseDate == None && r.streakResetDate == None
      && r.vouchersEarned == [] && r.userId == userId
  {
  }

  /** A freshly created voucher is unused and earned now; it counts as expired at
      that moment exactly when its expiry already lies in the past, and one
      without an expiry never expires. */
  lemma NewVoucherDefaults(id: string, t: VoucherType, expiresAt: Option<int>, now: int)
    ensures !NewVoucher(id, t, expiresAt, now).used
    ensures NewVoucher(id, t, expiresAt, now).earnedAt == now
    ensures IsExpired(NewVoucher(id, t, expiresAt, now), now) <==> expiresAt.Some? && expiresAt.value < now
    ensures expiresAt.None? ==> forall later :: !IsExpired(NewVoucher(id, t, expiresAt, now), later)
  {
  }
}
