/** The match lifecycle (routes/matches.js): listing a user's matches,
    requesting a match between two dogs, and owner-gated status updates. */
module Matches {
  import opened Common
  import opened Store

  /** `m` joins dogs `a` and `b`, in either orientation. */
  predicate Between(m: Match, a: DogId, b: DogId)
  {
    (m.dog1 == a && m.dog2 == b) || (m.dog1 == b && m.dog2 == a)
  }

  /** The rows found by the either-orientation lookup of a request (a, b). */
  function Existing(ms: map<MatchId, Match>, a: DogId, b: DogId): set<MatchId>
  {
    set id | id in ms && Between(ms[id], a, b)
  }

  /** The rows found by the reverse-pending lookup of a request (a, b): a
      pending request from `b` towards `a`. */
  function ReversePending(ms: map<MatchId, Match>, a: DogId, b: DogId): set<MatchId>
  {
    set id | id in ms && ms[id].dog1 == b && ms[id].dog2 == a && ms[id].status == Pending
  }

  /** At most one row per unordered pair of dogs. */
  ghost predicate PairUnique(ms: map<MatchId, Match>)
  {
    forall i, j :: i in ms && j in ms && i != j ==> !Between(ms[i], ms[j].dog1, ms[j].dog2)
  }

  /** No row has reached mutual status `matched`. */
  ghost predicate NoneMatched(ms: map<MatchId, Match>)
  {
    forall id :: id in ms ==> ms[id].status != Matched
  }

  /** GET /: the matches in which the requester owns dog1 or dog2. */
  function ListMatches(dogs: map<DogId, Dog>, ms: map<MatchId, Match>, user: UserId)
    : (r: map<MatchId, Match>)
    ensures forall id :: id in r <==> id in ms && Involves(ms[id], OwnedDogs(dogs, user))
    ensures forall id :: id in r ==> r[id] == ms[id]
  {
    var owned := OwnedDogs(dogs, user);
    map id | id in ms && Involves(ms[id], owned) :: ms[id]
  }

  /** A reverse pending request is itself a row between the two dogs, so the
      either-orientation lookup always finds whatever the reverse lookup finds. */
  lemma ReversePendingIsExisting(ms: map<MatchId, Match>, a: DogId, b: DogId)
    ensures ReversePending(ms, a, b) <= Existing(ms, a, b)
  {
  }

  /** Under pair uniqueness the either-orientation lookup finds at most one
      row, so its `maybeSingle()` never fails on several rows. */
  lemma ExistingAtMostOne(ms: map<MatchId, Match>, a: DogId, b: DogId)
    requires PairUnique(ms)
    ensures |Existing(ms, a, b)| <= 1
  {
    var found := Existing(ms, a, b);
    if found != {} {
      var i :| i in found;
      assert found == {i} by {
        forall j | j in found ensures j == i {
          assert Between(ms[j], ms[i].dog1, ms[i].dog2);
        }
      }
    }
  }

  /** Inserting a row for a pair that no row joins yet keeps pair uniqueness. */
  lemma InsertKeepsPairUnique(ms: map<MatchId, Match>, id: MatchId, row: Match)
    requires PairUnique(ms) && id !in ms && Existing(ms, row.dog1, row.dog2) == {}
    ensures PairUnique(ms[id := row])
  {
    var ms' := ms[id := row];
    forall i, j | i in ms' && j in ms' && i != j
      ensures !Between(ms'[i], ms'[j].dog1, ms'[j].dog2)
    {
      if i == id {
        assert j !in Existing(ms, row.dog1, row.dog2);
      } else if j == id {
        assert i !in Existing(ms, row.dog1, row.dog2);
      }
    }
  }

  /** A set with exactly one element is that element's singleton. */
  lemma SingletonOf<T>(s: set<T>, x: T)
    requires |s| == 1 && x in s
    ensures s == {x}
  {
    assert |s - {x}| == 0;
  }

  /** The store accepts a new match row: its id is fresh, and `dog1_id` and
      `dog2_id`, which reference `dogs`, both name a dog. */
  predicate InsertAccepted(ms: map<MatchId, Match>, dogs: map<DogId, Dog>, dog1: DogId, dog2: DogId, newId: MatchId)
  {
    newId !in ms && dog1 in dogs && dog2 in dogs
  }

  /** POST /: request a match from `dog1` towards `dog2`, as the code is
      written. 403 unless the requester owns one of the dogs; 409 with the
      existing row when one joins the two dogs in either orientation; else a
      new `pending` row (201). The reverse-pending lookup that would upgrade a
      row to `matched` (200) comes after the either-orientation lookup, which
      already answered 409 for any such row, so the upgrade is never reached. */
  method RequestMatch(db: Db, user: UserId, dog1: DogId, dog2: DogId, now: Time, newId: MatchId)
    returns (res: Reply<(MatchId, Match)>)
    modifies db`matches
    ensures var owned := OwnedDogs(db.dogs, user);
            var found := Existing(old(db.matches), dog1, dog2);
            && (res.code == Forbidden403 <==> dog1 !in owned && dog2 !in owned)
            && (res.code == Conflict409 <==> (dog1 in owned || dog2 in owned) && |found| == 1)
            && (res.code == Created201 <==>
                  (dog1 in owned || dog2 in owned) && found == {} && InsertAccepted(old(db.matches), db.dogs, dog1, dog2, newId))
            && (res.code == StoreError500 <==>
                  (dog1 in owned || dog2 in owned) &&
                  (|found| > 1 || (found == {} && !InsertAccepted(old(db.matches), db.dogs, dog1, dog2, newId))))
    ensures res.code == Conflict409 ==>
              exists id :: Existing(old(db.matches), dog1, dog2) == {id} &&
                           res.body == Some((id, old(db.matches)[id]))
    ensures res.code == Created201 ==>
              && res.body == Some((newId, Match(dog1, dog2, Pending, now, now)))
              && db.matches == old(db.matches)[newId := Match(dog1, dog2, Pending, now, now)]
    ensures res.code != Created201 ==> db.matches == old(db.matches)
    ensures res.code != Ok200
    ensures PairUnique(old(db.matches)) ==> PairUnique(db.matches)
    ensures NoneMatched(old(db.matches)) ==> NoneMatched(db.matches)
  {
    var owned := OwnedDogs(db.dogs, user);
    if dog1 !in owned && dog2 !in owned {
      return Fail(Forbidden403);
    }
    var found := Existing(db.matches, dog1, dog2);
    if |found| > 1 {
      // maybeSingle() reports an error when several rows match
      return Fail(StoreError500);
    }
    if found != {} {
      var id :| id in found;
      SingletonOf(found, id);
      return Answer(Conflict409, (id, db.matches[id]));
    }
    // The reverse-pending lookup (matches.js:87-113) finds nothing here, so
    // the branch that would set status `matched` is not taken.
    var reverse := ReversePending(db.matches, dog1, dog2);
    assert reverse == {} by { ReversePendingIsExisting(db.matches, dog1, dog2); }
    if !InsertAccepted(db.matches, db.dogs, dog1, dog2, newId) {
      // the insert violates the primary key or a foreign key to `dogs`
      return Fail(StoreError500);
    }
    var row := Match(dog1, dog2, Pending, now, now);
    if PairUnique(db.matches) { InsertKeepsPairUnique(db.matches, newId, row); }
    db.matches := db.matches[newId := row];
    res := Answer(Created201, (newId, row));
  }

  /** POST / as evidently intended: a reverse pending request is upgraded to
      `matched` (200) before the duplicate check, so the second of two
      reciprocal requests completes the match instead of being refused. */
  method RequestMatchIntended(db: Db, user: UserId, dog1: DogId, dog2: DogId, now: Time, newId: MatchId)
    returns (res: Reply<(MatchId, Match)>)
    modifies db`matches
    ensures var owned := OwnedDogs(db.dogs, user);
            var reverse := ReversePending(old(db.matches), dog1, dog2);
            var found := Existing(old(db.matches), dog1, dog2);
            && (res.code == Forbidden403 <==> dog1 !in owned && dog2 !in owned)
            && (res.code == Ok200 <==> (dog1 in owned || dog2 in owned) && |reverse| == 1)
            && (res.code == Conflict409 <==>
                  (dog1 in owned || dog2 in owned) && reverse == {} && |found| == 1)
            && (res.code == Created201 <==>
                  (dog1 in owned || dog2 in owned) && reverse == {} && found == {} &&
                  InsertAccepted(old(db.matches), db.dogs, dog1, dog2, newId))
            && (res.code == StoreError500 <==>
                  (dog1 in owned || dog2 in owned) &&
                  (|reverse| > 1 ||
                   (reverse == {} &&
                    (|found| > 1 || (found == {} && !InsertAccepted(old(db.matches), db.dogs, dog1, dog2, newId))))))
    ensures res.code == Ok200 ==>
              exists id :: ReversePending(old(db.matches), dog1, dog2) == {id} &&
                           db.matches == old(db.matches)[id := old(db.matches)[id].(status := Matched, updatedAt := now)] &&
                           res.body == Some((id, db.matches[id]))
    ensures res.code == Created201 ==>
              && res.body == Some((newId, Match(dog1, dog2, Pending, now, now)))
              && db.matches == old(db.matches)[newId := Match(dog1, dog2, Pending, now, now)]
    ensures res.code !in {Ok200, Created201} ==> db.matches == old(db.matches)
    ensures PairUnique(old(db.matches)) ==> PairUnique(db.matches)
  {
    var owned := OwnedDogs(db.dogs, user);
    if dog1 !in owned && dog2 !in owned {
      return Fail(Forbidden403);
    }
    var reverse := ReversePending(db.matches, dog1, dog2);
    if |reverse| > 1 {
      return Fail(StoreError500);
    }
    if reverse != {} {
      var id :| id in reverse;
      SingletonOf(reverse, id);
      var row := db.matches[id].(status := Matched, updatedAt := now);
      db.matches := db.matches[id := row];
      return Answer(Ok200, (id, row));
    }
    var found := Existing(db.matches, dog1, dog2);
    if |found| > 1 {
      return Fail(StoreError500);
    }
    if found != {} {
      var id :| id in found;
      return Answer(Conflict409, (id, db.matches[id]));
    }
    if !InsertAccepted(db.matches, db.dogs, dog1, dog2, newId) {
      return Fail(StoreError500);
    }
    var row := Match(dog1, dog2, Pending, now, now);
    if PairUnique(db.matches) { InsertKeepsPairUnique(db.matches, newId, row); }
    db.matches := db.matches[newId := row];
    res := Answer(Created201, (newId, row));
  }

  /** The accepted target statuses of PATCH /:matchId. */
  function ParseTargetStatus(s: string): (r: Option<MatchStatus>)
    ensures r.Some? <==> s in {"accepted", "rejected", "blocked"}
    ensures r.Some? ==> r.value in {Accepted, Rejected, Blocked} && StatusName(r.value) == s
  {
    match s
    case "accepted" => Some(Accepted)
    case "rejected" => Some(Rejected)
    case "blocked" => Some(Blocked)
    case _ => None
  }

  /** The stored spelling of a status. */
  function StatusName(st: MatchStatus): string
  {
    match st
    case Pending => "pending"
    case Matched => "matched"
    case Accepted => "accepted"
    case Rejected => "rejected"
    case Blocked => "blocked"
  }

  /** Each accepted status is read back from its own spelling, and `pending`
      and `matched` cannot be set through PATCH. */
  lemma ParseStatusName(st: MatchStatus)
    ensures ParseTargetStatus(StatusName(st)) == (if st in {Accepted, Rejected, Blocked} then Some(st) else None)
  {
  }

  /** PATCH /:matchId: 400 for a status outside {accepted, rejected, blocked};
      404 for an unknown match; 403 unless the requester owns dog1 or dog2;
      otherwise the row's status and `updated_at` are overwritten, whatever
      the previous status was, and nothing else changes. */
  method UpdateStatus(db: Db, user: UserId, matchId: MatchId, status: string, now: Time)
    returns (res: Reply<(MatchId, Match)>)
    modifies db`matches
    ensures var target := ParseTargetStatus(status);
            var owned := OwnedDogs(db.dogs, user);
            && (res.code == BadRequest400 <==> target.None?)
            && (res.code == NotFound404 <==> target.Some? && matchId !in old(db.matches))
            && (res.code == Forbidden403 <==>
                  target.Some? && matchId in old(db.matches) && !Involves(old(db.matches)[matchId], owned))
            && (res.code == Ok200 <==>
                  target.Some? && matchId in old(db.matches) && Involves(old(db.matches)[matchId], owned))
            && (res.code == Ok200 ==>
                  && db.matches == old(db.matches)[matchId := old(db.matches)[matchId].(status := target.value, updatedAt := now)]
                  && res.body == Some((matchId, db.matches[matchId])))
    ensures res.code != Ok200 ==> db.matches == old(db.matches)
    ensures PairUnique(old(db.matches)) ==> PairUnique(db.matches)
    ensures NoneMatched(old(db.matches)) ==> NoneMatched(db.matches)
  {
    var target := ParseTargetStatus(status);
    if target.None? {
      return Fail(BadRequest400);
    }
    if matchId !in db.matches {
      return Fail(NotFound404);
    }
    var m := db.matches[matchId];
    var owned := OwnedDogs(db.dogs, user);
    if !Involves(m, owned) {
      return Fail(Forbidden403);
    }
    var row := m.(status := target.value, updatedAt := now);
    db.matches := db.matches[matchId := row];
    res := Answer(Ok200, (matchId, row));
  }

  /** The lifecycle as written: the owner of `b` answering a request from `a`
      with a request towards `a` is refused with 409, the first request stays
      `pending`, and still no row is `matched`. */
  method ReverseRequestConflicts(db: Db, u1: UserId, u2: UserId, a: DogId, b: DogId,
                                 t1: Time, t2: Time, id1: MatchId, id2: MatchId)
    returns (first: Reply<(MatchId, Match)>, second: Reply<(MatchId, Match)>)
    requires a in db.dogs && db.dogs[a].owner == u1
    requires b in db.dogs && db.dogs[b].owner == u2
    requires Existing(db.matches, a, b) == {} && id1 !in db.matches
    modifies db`matches
    ensures first == Answer(Created201, (id1, Match(a, b, Pending, t1, t1)))
    ensures second == Answer(Conflict409, (id1, Match(a, b, Pending, t1, t1)))
    ensures db.matches == old(db.matches)[id1 := Match(a, b, Pending, t1, t1)]
    ensures NoneMatched(old(db.matches)) ==> NoneMatched(db.matches)
  {
    first := RequestMatch(db, u1, a, b, t1, id1);
    assert Existing(db.matches, b, a) == {id1};
    second := RequestMatch(db, u2, b, a, t2, id2);
  }

  /** The lifecycle as intended: the same two requests leave exactly one row
      between the dogs, now `matched`. */
  method ReciprocalRequestsMatch(db: Db, u1: UserId, u2: UserId, a: DogId, b: DogId,
                                 t1: Time, t2: Time, id1: MatchId, id2: MatchId)
    returns (first: Reply<(MatchId, Match)>, second: Reply<(MatchId, Match)>)
    requires a in db.dogs && db.dogs[a].owner == u1
    requires b in db.dogs && db.dogs[b].owner == u2
    requires Existing(db.matches, a, b) == {} && id1 !in db.matches
    modifies db`matches
    ensures first == Answer(Created201, (id1, Match(a, b, Pending, t1, t1)))
    ensures second == Answer(Ok200, (id1, Match(a, b, Matched, t1, t2)))
    ensures db.matches == old(db.matches)[id1 := Match(a, b, Matched, t1, t2)]
    ensures Existing(db.matches, a, b) == {id1}
  {
    assert ReversePending(db.matches, a, b) == {} by { ReversePendingIsExisting(db.matches, a, b); }
    first := RequestMatchIntended(db, u1, a, b, t1, id1);
    assert ReversePending(db.matches, b, a) == {id1};
    second := RequestMatchIntended(db, u2, b, a, t2, id2);
  }
}
