/**
  A challenge document: its progress update, the pre-save hook that derives the
  percentage from the amounts, and the two time virtuals. The persistence layer
  validates a document before it runs the document's own pre-save hooks. So the
  schema's bounds apply to the percentage `updateProgress` set, not to the one
  the hook stores. Times are milliseconds since the epoch.
 */
module ChallengeModel {
  import opened Common

  datatype ChallengeStatus = NotStarted | Active | Paused | Completed | Failed

  datatype ProgressEntry = ProgressEntry(date: int, percentComplete: real, amount: Option<real>, note: string)

  /** The fields progress tracking reads or writes. */
  datatype ChallengeState = ChallengeState(
    title: string,
    points: real,
    percentComplete: real,
    status: ChallengeStatus,
    endDate: Option<int>,
    completedDate: Option<int>,
    targetAmount: Option<real>,
    currentAmount: real,
    progressHistory: seq<ProgressEntry>)

  const DayMs: int := 86400000

  /** A new challenge with the schema's defaults. */
  function NewChallengeState(title: string, points: real, endDate: Option<int>, targetAmount: Option<real>): ChallengeState {
    ChallengeState(title, points, 0.0, Active, endDate, None, targetAmount, 0.0, [])
  }

  /** The validators a save runs: `title` required, `points` at least 0, and
      `percentComplete` within [0, 100]. */
  predicate Validates(s: ChallengeState) {
    s.title != "" && s.points >= 0.0 && 0.0 <= s.percentComplete <= 100.0
  }

  /** A new challenge starts active at 0 percent with an empty history, and saves
      exactly when its title and points are acceptable. */
  lemma NewChallengeDefaults(title: string, points: real, endDate: Option<int>, targetAmount: Option<real>)
    ensures var s := NewChallengeState(title, points, endDate, targetAmount);
      && s.status == Active && s.percentComplete == 0.0 && s.currentAmount == 0.0
      && s.completedDate.None? && s.progressHistory == []
      && (Validates(s) <==> title != "" && points >= 0.0)
  {
  }

  /** The in-memory part of `updateProgress`. `amount` is `None` for `null`. */
  function AfterUpdate(s: ChallengeState, newPercentage: real, amount: Option<real>, note: string, now: int): ChallengeState {
    var logged := s.(progressHistory := s.progressHistory + [ProgressEntry(now, newPercentage, amount, note)]);
    var moved := logged.(percentComplete := newPercentage,
                         currentAmount := if amount.Some? then amount.value else s.currentAmount);
    if newPercentage >= 100.0 then moved.(status := Completed, completedDate := Some(now)) else moved
  }

  /** `pre('save')`: with a positive target the percentage is recomputed from the
      amounts and capped at 100. */
  function PreSaveClamp(s: ChallengeState): (r: ChallengeState)
    ensures r == s.(percentComplete := r.percentComplete)
    ensures s.targetAmount.Some? && s.targetAmount.value > 0.0 ==>
      r.percentComplete <= 100.0
      && r.percentComplete * s.targetAmount.value == Min(100.0 * s.targetAmount.value, s.currentAmount * 100.0)
    ensures !(s.targetAmount.Some? && s.targetAmount.value > 0.0) ==> r == s
  {
    if s.targetAmount.Some? && s.targetAmount.value > 0.0 then
      var t := s.targetAmount.value;
      var p := Min(100.0, s.currentAmount / t * 100.0);
      assert p * t == Min(100.0 * t, s.currentAmount * 100.0);
      s.(percentComplete := p)
    else s
  }

  /** `save()`: validation first, then the hook. The result is the state that is
      stored, or `None` when validation rejects the document. */
  function Save(s: ChallengeState): (r: Option<ChallengeState>)
    ensures r.Some? <==> Validates(s)
    ensures r.Some? ==> r.value == PreSaveClamp(s)
  {
    if Validates(s) then Some(PreSaveClamp(s)) else None
  }

  /** One history entry is appended, holding exactly the arguments; the percentage
      becomes the given one and the amount changes only when one is given. */
  lemma UpdateRecordsProgress(s: ChallengeState, newPercentage: real, amount: Option<real>, note: string, now: int)
    ensures var u := AfterUpdate(s, newPercentage, amount, note, now);
      && u.progressHistory == s.progressHistory + [ProgressEntry(now, newPercentage, amount, note)]
      && u.progressHistory[..|s.progressHistory|] == s.progressHistory
      && u.percentComplete == newPercentage
      && (u.currentAmount != s.currentAmount ==> amount.Some?)
      && (amount.Some? ==> u.currentAmount == amount.value)
      && u.title == s.title && u.points == s.points && u.targetAmount == s.targetAmount && u.endDate == s.endDate
  {
    var u := AfterUpdate(s, newPercentage, amount, note, now);
    assert u.progressHistory[..|s.progressHistory|] == s.progressHistory;
  }

  /** Reaching 100 completes the challenge at `now`; anything less leaves status and
      completion date alone, so a completed challenge is never reverted, neither
      by an update nor by the hook. */
  lemma CompletionIsSticky(s: ChallengeState, newPercentage: real, amount: Option<real>, note: string, now: int)
    ensures var u := AfterUpdate(s, newPercentage, amount, note, now);
      && (newPercentage >= 100.0 ==> u.status == Completed && u.completedDate == Some(now))
      && (newPercentage < 100.0 ==> u.status == s.status && u.completedDate == s.completedDate)
      && (s.status == Completed ==> u.status == Completed)
      && PreSaveClamp(u).status == u.status
  {
  }

  /** A stored percentage never exceeds 100: validation bounds it without a target,
      the hook's cap with one. */
  lemma StoredPercentAtMost100(s: ChallengeState)
    requires Save(s).Some?
    ensures Save(s).value.percentComplete <= 100.0
  {
  }

  /** A percentage above 100 is refused even when the target would have capped it,
      because validation runs before the hook. */
  lemma OverHundredRefused(s: ChallengeState, newPercentage: real, amount: Option<real>, note: string, now: int)
    requires newPercentage > 100.0
    ensures Save(AfterUpdate(s, newPercentage, amount, note, now)).None?
  {
  }

  /** With a positive target the hook overrides the percentage just set: reporting
      100 without an amount on a challenge with nothing saved yet stores 0 percent
      on a completed challenge, and a negative amount stores a negative percentage
      that the schema's minimum was meant to exclude. */
  lemma HookOverridesPercentage(now: int)
    ensures var s := NewChallengeState("Save", 10.0, None, Some(50.0));
      && Save(AfterUpdate(s, 100.0, None, "", now)).Some?
      && Save(AfterUpdate(s, 100.0, None, "", now)).value.status == Completed
      && Save(AfterUpdate(s, 100.0, None, "", now)).value.percentComplete == 0.0
      && Save(AfterUpdate(s, 50.0, Some(-10.0), "", now)).Some?
      && Save(AfterUpdate(s, 50.0, Some(-10.0), "", now)).value.percentComplete == -20.0
  {
  }

  /** The `timeRemaining` virtual: `end − now`, negative once the end has passed. */
  function TimeRemaining(endDate: Option<int>, now: int): (r: Option<int>)
    ensures r.None? <==> endDate.None?
    ensures r.Some? ==> now + r.value == endDate.value
  {
    if endDate.None? then None else Some(endDate.value - now)
  }

  /** The `daysRemaining` virtual: whole days, rounded up, between now and the end,
      whichever comes first. */
  function DaysRemaining(endDate: Option<int>, now: int): (r: Option<nat>)
    ensures r.None? <==> endDate.None?
    ensures r.Some? ==>
      var diff := AbsInt(endDate.value - now);
      && diff <= r.value * DayMs
      && (r.value == 0 || (r.value - 1) * DayMs < diff)
  {
    if endDate.None? then None
    else
      var diff := AbsInt(endDate.value - now);
      var days := (diff + DayMs - 1) / DayMs;
      CeilingDivision(diff, DayMs);
      Some(days)
  }

  lemma CeilingDivision(n: nat, d: int)
    requires d > 0
    ensures var q := (n + d - 1) / d;
      && q >= 0 && n <= q * d && (q == 0 || (q - 1) * d < n)
  {
    var q := (n + d - 1) / d;
    var rem := (n + d - 1) % d;
    assert n + d - 1 == q * d + rem;
    assert 0 <= rem < d;
  }

  /** A deadline a day in the past and one a day in the future both read as one day
      remaining; only `timeRemaining` tells them apart. */
  lemma DaysRemainingIgnoresDirection(now: int)
    ensures DaysRemaining(Some(now - DayMs), now) == DaysRemaining(Some(now + DayMs), now) == Some(1)
    ensures TimeRemaining(Some(now - DayMs), now).value < 0 < TimeRemaining(Some(now + DayMs), now).value
  {
    CeilingDivision(DayMs, DayMs);
  }

  /** A challenge document: the in-memory copy `updateProgress` mutates, and the
      copy last stored. */
  class Challenge {
    var title: string
    var points: real
    var percentComplete: real
    var status: ChallengeStatus
    var endDate: Option<int>
    var completedDate: Option<int>
    var targetAmount: Option<real>
    var currentAmount: real
    var progressHistory: seq<ProgressEntry>
    var stored: Option<ChallengeState>

    function State(): ChallengeState
      reads this
    {
      ChallengeState(title, points, percentComplete, status, endDate, completedDate,
        targetAmount, currentAmount, progressHistory)
    }

    /** `new Challenge({...})`, not yet saved. */
    constructor (title: string, points: real, endDate: Option<int>, targetAmount: Option<real>)
      ensures State() == NewChallengeState(title, points, endDate, targetAmount)
      ensures stored.None?
    {
      this.title := title;
      this.points := points;
      percentComplete := 0.0;
      status := Active;
      this.endDate := endDate;
      completedDate := None;
      this.targetAmount := targetAmount;
      currentAmount := 0.0;
      progressHistory := [];
      stored := None;
    }

    /** `updateProgress(newPercentage, amount, note)` followed by its `save()`.
        Returns whether the save succeeded; a rejected save keeps the in-memory
        changes but stores nothing. */
    method UpdateProgress(newPercentage: real, amount: Option<real>, note: string, now: int) returns (saved: bool)
      modifies this
      ensures var u := AfterUpdate(old(State()), newPercentage, amount, note, now);
        && saved == Validates(u)
        && State() == (if saved then PreSaveClamp(u) else u)
        && stored == (if saved then Some(State()) else old(stored))
    {
      progressHistory := progressHistory + [ProgressEntry(now, newPercentage, amount, note)];
      percentComplete := newPercentage;
      if amount.Some? {
        currentAmount := amount.value;
      }
      if newPercentage >= 100.0 {
        status := Completed;
        completedDate := Some(now);
      }
      saved := title != "" && points >= 0.0 && 0.0 <= percentComplete <= 100.0;
      if saved {
        if targetAmount.Some? && targetAmount.value > 0.0 {
          percentComplete := Min(100.0, currentAmount / targetAmount.value * 100.0);
        }
        stored := Some(State());
      }
    }
  }
}
