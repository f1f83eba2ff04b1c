/**
  The challenge routes over a table of user-challenge records: list the caller's
  active challenges, join a challenge, and report progress on one. A record
  refers to its challenge by id, and `populate` looks the id up in the challenge
  collection. Records are kept in collection order, so `findOne` returns the
  first match. The user-challenge schema is not part of this model; its fields
  are the ones the routes use.
 */
module ChallengeRoute {
  import opened Common

  datatype ChallengeInfo = ChallengeInfo(title: string, description: string, points: real, endDate: Option<int>)

  datatype UserChallenge = UserChallenge(
    userId: string,
    challengeId: string,
    progress: real,
    isActive: bool,
    startDate: int,
    endDate: Option<int>,
    completedDate: Option<int>)

  datatype ChallengeError =
    | ChallengeNotFound
    | AlreadyJoined
    | ProgressOutOfRange
    | NotActive
    | ServerError

  function StatusCode(e: ChallengeError): (code: int)
    ensures code == 404 <==> e == ChallengeNotFound || e == NotActive
    ensures code == 500 <==> e == ServerError
    ensures code in {400, 404, 500}
  {
    match e
    case ChallengeNotFound => 404
    case AlreadyJoined => 400
    case ProgressOutOfRange => 400
    case NotActive => 404
    case ServerError => 500
  }

  /** One entry of the listing. `completed` is `status === 'completed'`. */
  datatype ListedChallenge = ListedChallenge(
    id: string, title: string, description: string, points: real,
    progress: real, completed: bool, startDate: int, endDate: Option<int>)

  /** The response body of a join or a progress update. */
  datatype ChallengeView = ChallengeView(id: string, title: string, points: real, progress: real, completed: bool)

  /** `UserChallenge.find({ userId, isActive: true })`, in collection order. */
  function ActiveFor(ucs: seq<UserChallenge>, userId: string): (r: seq<UserChallenge>)
    ensures forall uc :: uc in r <==> uc in ucs && uc.userId == userId && uc.isActive
  {
    if ucs == [] then []
    else
      var last := ucs[|ucs| - 1];
      ActiveFor(ucs[..|ucs| - 1], userId) + (if last.userId == userId && last.isActive then [last] else [])
  }

  /** The listing entry of one record. The end date is the record's, or else the
      challenge's. */
  function Listed(uc: UserChallenge, c: ChallengeInfo): (l: ListedChallenge)
    ensures l.completed <==> uc.progress == 100.0
    ensures l.endDate == if uc.endDate.Some? then uc.endDate else c.endDate
  {
    ListedChallenge(uc.challengeId, c.title, c.description, c.points, uc.progress,
      uc.progress == 100.0, uc.startDate, if uc.endDate.Some? then uc.endDate else c.endDate)
  }

  /** Maps the records; one whose challenge no longer exists makes the handler throw. */
  function ListEntries(active: seq<UserChallenge>, challenges: map<string, ChallengeInfo>): (r: Result<seq<ListedChallenge>, ChallengeError>)
    ensures r.Err? <==> exists i :: 0 <= i < |active| && active[i].challengeId !in challenges
    ensures r.Err? ==> r.error == ServerError
    ensures r.Ok? ==>
      && |r.value| == |active|
      && forall i :: 0 <= i < |active| ==> r.value[i] == Listed(active[i], challenges[active[i].challengeId])
  {
    if active == [] then Ok([])
    else
      var init := active[..|active| - 1];
      var last := active[|active| - 1];
      var rest := ListEntries(init, challenges);
      assert forall i :: 0 <= i < |init| ==> init[i] == active[i];
      if rest.Err? then
        var i :| 0 <= i < |init| && init[i].challengeId !in challenges;
        assert active[i].challengeId !in challenges;
        Err(ServerError)
      else if last.challengeId !in challenges then Err(ServerError)
      else Ok(rest.value + [Listed(last, challenges[last.challengeId])])
  }

  /** `GET /api/challenges` */
  function ListChallenges(ucs: seq<UserChallenge>, challenges: map<string, ChallengeInfo>, userId: string)
    : (r: Result<seq<ListedChallenge>, ChallengeError>)
    ensures r.Err? <==> exists uc :: uc in ucs && uc.userId == userId && uc.isActive && uc.challengeId !in challenges
    ensures r.Err? ==> r.error == ServerError
    ensures r.Ok? ==> |r.value| == |ActiveFor(ucs, userId)|
  {
    MissingChallengeOfActive(ucs, challenges, userId);
    ListEntries(ActiveFor(ucs, userId), challenges)
  }

  lemma MissingChallengeOfActive(ucs: seq<UserChallenge>, challenges: map<string, ChallengeInfo>, userId: string)
    ensures (exists uc :: uc in ucs && uc.userId == userId && uc.isActive && uc.challengeId !in challenges)
      ==> (exists i :: 0 <= i < |ActiveFor(ucs, userId)| && ActiveFor(ucs, userId)[i].challengeId !in challenges)
    ensures (exists i :: 0 <= i < |ActiveFor(ucs, userId)| && ActiveFor(ucs, userId)[i].challengeId !in challenges)
      ==> (exists uc :: uc in ucs && uc.userId == userId && uc.isActive && uc.challengeId !in challenges)
  {
    var active := ActiveFor(ucs, userId);
    if exists uc :: uc in ucs && uc.userId == userId && uc.isActive && uc.challengeId !in challenges {
      var uc :| uc in ucs && uc.userId == userId && uc.isActive && uc.challengeId !in challenges;
      assert uc in active;
      var i :| 0 <= i < |active| && active[i] == uc;
      assert active[i].challengeId !in challenges;
    } else {
      forall i | 0 <= i < |active| ensures active[i].challengeId in challenges {
        assert active[i] in active;
      }
    }
  }

  /** The listing shows the caller's active records and nothing else, marking a
      challenge completed exactly at progress 100. */
  lemma ListingShowsActiveOnly(ucs: seq<UserChallenge>, challenges: map<string, ChallengeInfo>, userId: string)
    requires ListChallenges(ucs, challenges, userId).Ok?
    ensures var r := ListChallenges(ucs, challenges, userId).value;
      var active := ActiveFor(ucs, userId);
      && |r| == |active|
      && (forall i :: 0 <= i < |r| ==>
            && active[i] in ucs && active[i].userId == userId && active[i].isActive
            && r[i].id == active[i].challengeId
            && (r[i].completed <==> active[i].progress == 100.0))
  {
    var active := ActiveFor(ucs, userId);
    forall i | 0 <= i < |active| ensures active[i] in ucs && active[i].userId == userId && active[i].isActive {
      assert active[i] in active;
    }
  }

  /** `UserChallenge.findOne({ userId, challengeId })`, active or not. */
  function FindRecord(ucs: seq<UserChallenge>, userId: string, challengeId: string): (k: int)
    ensures -1 <= k < |ucs|
    ensures k == -1 <==> forall i :: 0 <= i < |ucs| ==> !(ucs[i].userId == userId && ucs[i].challengeId == challengeId)
    ensures k >= 0 ==> ucs[k].userId == userId && ucs[k].challengeId == challengeId
  {
    FirstIndex(ucs, (uc: UserChallenge) => uc.userId == userId && uc.challengeId == challengeId)
  }

  /** The same with `isActive: true`. */
  function FindActiveRecord(ucs: seq<UserChallenge>, userId: string, challengeId: string): (k: int)
    ensures -1 <= k < |ucs|
    ensures k == -1 <==> forall i :: 0 <= i < |ucs| ==> !(ucs[i].userId == userId && ucs[i].challengeId == challengeId && ucs[i].isActive)
    ensures k >= 0 ==> ucs[k].userId == userId && ucs[k].challengeId == challengeId && ucs[k].isActive
  {
    FirstIndex(ucs, (uc: UserChallenge) => uc.userId == userId && uc.challengeId == challengeId && uc.isActive)
  }

  /** `POST /api/challenges/:id/join` */
  function Join(ucs: seq<UserChallenge>, challenges: map<string, ChallengeInfo>, userId: string, challengeId: string, now: int)
    : (r: (seq<UserChallenge>, Result<ChallengeView, ChallengeError>))
    ensures challengeId !in challenges ==> r == (ucs, Err(ChallengeNotFound))
    ensures challengeId in challenges && FindRecord(ucs, userId, challengeId) >= 0 ==> r == (ucs, Err(AlreadyJoined))
    ensures r.1.Ok? <==> challengeId in challenges && FindRecord(ucs, userId, challengeId) == -1
    ensures r.1.Ok? ==>
      && r.0 == ucs + [UserChallenge(userId, challengeId, 0.0, true, now, None, None)]
      && r.1.value.progress == 0.0 && !r.1.value.completed
  {
    if challengeId !in challenges then (ucs, Err(ChallengeNotFound))
    else if FindRecord(ucs, userId, challengeId) >= 0 then (ucs, Err(AlreadyJoined))
    else
      var c := challenges[challengeId];
      (ucs + [UserChallenge(userId, challengeId, 0.0, true, now, None, None)],
       Ok(ChallengeView(challengeId, c.title, c.points, 0.0, false)))
  }

  /** A user joins a challenge at most once: a second join is refused, even after
      the first record was deactivated. */
  lemma JoinTwiceFails(ucs: seq<UserChallenge>, challenges: map<string, ChallengeInfo>, userId: string, challengeId: string, now: int, later: int)
    requires Join(ucs, challenges, userId, challengeId, now).1.Ok?
    ensures var ucs' := Join(ucs, challenges, userId, challengeId, now).0;
      && Join(ucs', challenges, userId, challengeId, later) == (ucs', Err(AlreadyJoined))
      && Join(ucs'[|ucs| := ucs'[|ucs|].(isActive := false)], challenges, userId, challengeId, later).1 == Err(AlreadyJoined)
  {
    var ucs' := Join(ucs, challenges, userId, challengeId, now).0;
    assert ucs'[|ucs|].userId == userId && ucs'[|ucs|].challengeId == challengeId;
    var off := ucs'[|ucs| := ucs'[|ucs|].(isActive := false)];
    assert off[|ucs|].userId == userId && off[|ucs|].challengeId == challengeId;
  }

  /** Both tables after a progress update, and the response. */
  datatype ProgressOutcome = ProgressOutcome(
    userChallenges: seq<UserChallenge>,
    userPoints: map<string, real>,
    response: Result<ChallengeView, ChallengeError>)

  /** `PUT /api/challenges/:id/progress` as written. `User` is not imported in the
      route module, so the completion branch throws a reference error before
      anything is saved. A record whose challenge is gone is saved, and the
      response then throws while reading the challenge. */
  function ProgressAsWritten(ucs: seq<UserChallenge>, challenges: map<string, ChallengeInfo>, userPoints: map<string, real>,
                             userId: string, challengeId: string, progress: real, now: int): (o: ProgressOutcome)
    ensures progress < 0.0 || progress > 100.0 ==> o == ProgressOutcome(ucs, userPoints, Err(ProgressOutOfRange))
    ensures 0.0 <= progress <= 100.0 && FindActiveRecord(ucs, userId, challengeId) == -1 ==>
      o == ProgressOutcome(ucs, userPoints, Err(NotActive))
    ensures o.userPoints == userPoints
    ensures o.response.Ok? <==>
      0.0 <= progress < 100.0 && FindActiveRecord(ucs, userId, challengeId) >= 0 && challengeId in challenges
  {
    if progress < 0.0 || progress > 100.0 then ProgressOutcome(ucs, userPoints, Err(ProgressOutOfRange))
    else
      var k := FindActiveRecord(ucs, userId, challengeId);
      if k == -1 then ProgressOutcome(ucs, userPoints, Err(NotActive))
      else if progress == 100.0 then ProgressOutcome(ucs, userPoints, Err(ServerError))
      else
        var ucs' := ucs[k := ucs[k].(progress := progress)];
        if challengeId !in challenges then ProgressOutcome(ucs', userPoints, Err(ServerError))
        else
          var c := challenges[challengeId];
          ProgressOutcome(ucs', userPoints, Ok(ChallengeView(challengeId, c.title, c.points, progress, false)))
  }

  /** As written, completing a challenge can never succeed and never persists. */
  lemma CompletionAlwaysFailsAsWritten(ucs: seq<UserChallenge>, challenges: map<string, ChallengeInfo>, userPoints: map<string, real>,
                                       userId: string, challengeId: string, now: int)
    requires FindActiveRecord(ucs, userId, challengeId) >= 0
    ensures ProgressAsWritten(ucs, challenges, userPoints, userId, challengeId, 100.0, now)
      == ProgressOutcome(ucs, userPoints, Err(ServerError))
  {
  }

  /** The same route with `User` imported. At exactly 100 it stamps the completion
      date and adds the challenge's points to the user, on every such update. A
      missing user or challenge makes the handler throw before either save. */
  function ProgressCorrected(ucs: seq<UserChallenge>, challenges: map<string, ChallengeInfo>, userPoints: map<string, real>,
                             userId: string, challengeId: string, progress: real, now: int): (o: ProgressOutcome)
    ensures progress < 0.0 || progress > 100.0 ==> o == ProgressOutcome(ucs, userPoints, Err(ProgressOutOfRange))
    ensures 0.0 <= progress <= 100.0 && FindActiveRecord(ucs, userId, challengeId) == -1 ==>
      o == ProgressOutcome(ucs, userPoints, Err(NotActive))
    ensures o.response.Ok? ==>
      var k := FindActiveRecord(ucs, userId, challengeId);
      && 0.0 <= progress <= 100.0 && k >= 0 && challengeId in challenges
      && o.userChallenges == ucs[k := ucs[k].(progress := progress,
                                              completedDate := if progress == 100.0 then Some(now) else ucs[k].completedDate)]
      && (o.response.value.completed <==> progress == 100.0)
      && o.response.value.progress == progress
    ensures progress != 100.0 ==> o.userPoints == userPoints
    ensures 0.0 <= progress < 100.0 && FindActiveRecord(ucs, userId, challengeId) >= 0 ==>
      var k := FindActiveRecord(ucs, userId, challengeId);
      && o.userChallenges == ucs[k := ucs[k].(progress := progress)]
      && (o.response.Ok? <==> challengeId in challenges)
    ensures progress == 100.0 && FindActiveRecord(ucs, userId, challengeId) >= 0 ==>
      && (o.response.Ok? <==> userId in userPoints && challengeId in challenges)
      && (o.response.Ok? ==> o.userPoints == userPoints[userId := userPoints[userId] + challenges[challengeId].points])
      && (o.response.Err? ==> o.userChallenges == ucs && o.userPoints == userPoints)
  {
    if progress < 0.0 || progress > 100.0 then ProgressOutcome(ucs, userPoints, Err(ProgressOutOfRange))
    else
      var k := FindActiveRecord(ucs, userId, challengeId);
      if k == -1 then ProgressOutcome(ucs, userPoints, Err(NotActive))
      else if progress == 100.0 then
        if userId !in userPoints || challengeId !in challenges then ProgressOutcome(ucs, userPoints, Err(ServerError))
        else
          var c := challenges[challengeId];
          var points' := userPoints[userId := userPoints[userId] + c.points];
          var ucs' := ucs[k := ucs[k].(progress := progress, completedDate := Some(now))];
          ProgressOutcome(ucs', points', Ok(ChallengeView(challengeId, c.title, c.points, progress, true)))
      else
        var ucs' := ucs[k := ucs[k].(progress := progress)];
        if challengeId !in challenges then ProgressOutcome(ucs', userPoints, Err(ServerError))
        else
          var c := challenges[challengeId];
          ProgressOutcome(ucs', userPoints, Ok(ChallengeView(challengeId, c.title, c.points, progress, false)))
  }

  /** Below 100 the corrected route behaves exactly as written. */
  lemma CorrectionOnlyTouchesCompletion(ucs: seq<UserChallenge>, challenges: map<string, ChallengeInfo>, userPoints: map<string, real>,
                                        userId: string, challengeId: string, progress: real, now: int)
    requires progress != 100.0
    ensures ProgressCorrected(ucs, challenges, userPoints, userId, challengeId, progress, now)
      == ProgressAsWritten(ucs, challenges, userPoints, userId, challengeId, progress, now)
  {
  }

  /** Completing credits the challenge's points; completing again, which the still
      active record allows, credits them a second time. */
  lemma CompletionCreditsEachTime(ucs: seq<UserChallenge>, challenges: map<string, ChallengeInfo>, userPoints: map<string, real>,
                                  userId: string, challengeId: string, now: int, later: int)
    requires FindActiveRecord(ucs, userId, challengeId) >= 0
    requires userId in userPoints && challengeId in challenges
    ensures var first := ProgressCorrected(ucs, challenges, userPoints, userId, challengeId, 100.0, now);
      var second := ProgressCorrected(first.userChallenges, challenges, first.userPoints, userId, challengeId, 100.0, later);
      && first.response.Ok? && first.response.value.completed
      && first.userPoints == userPoints[userId := userPoints[userId] + challenges[challengeId].points]
      && second.response.Ok?
      && second.userPoints[userId] == userPoints[userId] + 2.0 * challenges[challengeId].points
  {
    var k := FindActiveRecord(ucs, userId, challengeId);
    var first := ProgressCorrected(ucs, challenges, userPoints, userId, challengeId, 100.0, now);
    assert first.userChallenges[k].userId == userId && first.userChallenges[k].challengeId == challengeId
      && first.userChallenges[k].isActive;
  }

  /** The challenge collection, the user-challenge records and the users' points. */
  class ChallengeBoard {
    var challenges: map<string, ChallengeInfo>
    var userChallenges: seq<UserChallenge>
    var userPoints: map<string, real>

    constructor (challenges: map<string, ChallengeInfo>, userPoints: map<string, real>)
      ensures this.challenges == challenges && userChallenges == [] && this.userPoints == userPoints
    {
      this.challenges := challenges;
      userChallenges := [];
      this.userPoints := userPoints;
    }

    method JoinChallenge(userId: string, challengeId: string, now: int) returns (r: Result<ChallengeView, ChallengeError>)
      modifies this
      ensures (userChallenges, r) == Join(old(userChallenges), challenges, userId, challengeId, now)
      ensures challenges == old(challenges) && userPoints == old(userPoints)
    {
      if challengeId !in challenges {
        return Err(ChallengeNotFound);
      }
      if FindRecord(userChallenges, userId, challengeId) >= 0 {
        return Err(AlreadyJoined);
      }
      var c := challenges[challengeId];
      userChallenges := userChallenges + [UserChallenge(userId, challengeId, 0.0, true, now, None, None)];
      r := Ok(ChallengeView(challengeId, c.title, c.points, 0.0, false));
    }

    /** The progress route, with `User` imported. */
    method UpdateProgress(userId: string, challengeId: string, progress: real, now: int) returns (r: Result<ChallengeView, ChallengeError>)
      modifies this
      ensures ProgressOutcome(userChallenges, userPoints, r)
        == ProgressCorrected(old(userChallenges), challenges, old(userPoints), userId, challengeId, progress, now)
      ensures challenges == old(challenges)
    {
      if progress < 0.0 || progress > 100.0 {
        return Err(ProgressOutOfRange);
      }
      var k := FindActiveRecord(userChallenges, userId, challengeId);
      if k == -1 {
        return Err(NotActive);
      }
      var record := userChallenges[k].(progress := progress);
      if progress == 100.0 {
        record := record.(completedDate := Some(now));
        if userId !in userPoints || challengeId !in challenges {
          return Err(ServerError);
        }
        userPoints := userPoints[userId := userPoints[userId] + challenges[challengeId].points];
      }
      userChallenges := userChallenges[k := record];
      if challengeId !in challenges {
        return Err(ServerError);
      }
      var c := challenges[challengeId];
      r := Ok(ChallengeView(challengeId, c.title, c.points, record.progress, record.progress == 100.0));
    }
  }
}
