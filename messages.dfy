/** The message gate and the conversation projection (routes/messages.js):
    sending into a mutual match, fetching a conversation (which marks the
    inbound messages read), marking messages read, and the per-match
    conversation summaries. */
module Messages {
  import opened Common
  import opened Store
  import Matches

  /** The ids of the messages of match `mid`. */
  function MessagesOf(msgs: map<MessageId, Message>, mid: MatchId): (ids: set<MessageId>)
    ensures ids <= msgs.Keys
  {
    set id | id in msgs && msgs[id].matchId == mid
  }

  /** A message `user` has not read yet: sent by someone else, `read_at` null. */
  predicate Unread(m: Message, user: UserId)
  {
    m.readAt.None? && m.sender != user
  }

  /** The ids of the messages of match `mid` that are unread for `user`. */
  function UnreadOf(msgs: map<MessageId, Message>, mid: MatchId, user: UserId): (ids: set<MessageId>)
    ensures ids <= MessagesOf(msgs, mid)
  {
    set id | id in msgs && msgs[id].matchId == mid && Unread(msgs[id], user)
  }

  /** The store update `update({read_at: now}).in('id', ids).is('read_at', null)`:
      each listed message that was unread gets `read_at = now`; every other
      field, and every other message, stays as it was. */
  function MarkAsRead(msgs: map<MessageId, Message>, ids: set<MessageId>, now: Time)
    : (r: map<MessageId, Message>)
    ensures r.Keys == msgs.Keys
    ensures forall id :: id in msgs && id in ids && msgs[id].readAt.None? ==>
              r[id] == msgs[id].(readAt := Some(now))
    ensures forall id :: id in msgs && (id !in ids || msgs[id].readAt.Some?) ==> r[id] == msgs[id]
  {
    map id | id in msgs ::
      if id in ids && msgs[id].readAt.None? then msgs[id].(readAt := Some(now)) else msgs[id]
  }

  /** Marking the same messages a second time changes nothing. */
  lemma MarkAsReadIdempotent(msgs: map<MessageId, Message>, ids: set<MessageId>, t1: Time, t2: Time)
    ensures MarkAsRead(MarkAsRead(msgs, ids, t1), ids, t2) == MarkAsRead(msgs, ids, t1)
  {
  }

  /** Marking nothing changes nothing. */
  lemma MarkNothing(msgs: map<MessageId, Message>, now: Time)
    ensures MarkAsRead(msgs, {}, now) == msgs
  {
  }

  /** After the inbound messages of a match are marked, none of its messages
      is unread for that user any more. */
  lemma MarkingClearsUnread(msgs: map<MessageId, Message>, mid: MatchId, user: UserId, now: Time)
    ensures UnreadOf(MarkAsRead(msgs, UnreadOf(msgs, mid, user), now), mid, user) == {}
  {
  }

  /** A non-empty set of messages has one created no later than any other. */
  lemma {:induction false} EarliestExists(msgs: map<MessageId, Message>, s: set<MessageId>)
    requires s != {} && s <= msgs.Keys
    ensures exists e :: e in s && forall x :: x in s ==> msgs[e].createdAt <= msgs[x].createdAt
    decreases s
  {
    var y :| y in s;
    if s != {y} {
      EarliestExists(msgs, s - {y});
      var e :| e in s - {y} && forall x :: x in s - {y} ==> msgs[e].createdAt <= msgs[x].createdAt;
      if msgs[y].createdAt < msgs[e].createdAt {
        assert forall x :: x in s ==> msgs[y].createdAt <= msgs[x].createdAt;
      } else {
        assert forall x :: x in s ==> msgs[e].createdAt <= msgs[x].createdAt;
      }
    } else {
      assert forall x :: x in s ==> x == y;
    }
  }

  /** `order('created_at', { ascending: true })`: the given messages, each
      exactly once, from the earliest to the latest. */
  method SortByCreation(msgs: map<MessageId, Message>, ids: set<MessageId>)
    returns (order: seq<MessageId>)
    requires ids <= msgs.Keys
    ensures |order| == |ids|
    ensures forall id :: id in order <==> id in ids
    ensures forall i, j :: 0 <= i < j < |order| ==> order[i] != order[j]
    ensures forall i, j :: 0 <= i < j < |order| ==> msgs[order[i]].createdAt <= msgs[order[j]].createdAt
  {
    order := [];
    var rest := ids;
    while rest != {}
      invariant rest <= ids
      invariant |order| + |rest| == |ids|
      invariant forall id :: id in order <==> id in ids && id !in rest
      invariant forall i, j :: 0 <= i < j < |order| ==> order[i] != order[j]
      invariant forall i, j :: 0 <= i < j < |order| ==> msgs[order[i]].createdAt <= msgs[order[j]].createdAt
      invariant forall i, x :: 0 <= i < |order| && x in rest ==> msgs[order[i]].createdAt <= msgs[x].createdAt
      decreases |rest|
    {
      EarliestExists(msgs, rest);
      var e :| e in rest && forall x :: x in rest ==> msgs[e].createdAt <= msgs[x].createdAt;
      order := order + [e];
      rest := rest - {e};
    }
  }

  /** GET /match/:matchId: 404 unless the match exists and the requester owns
      one of its dogs; otherwise the match's messages from the earliest to the
      latest, after every message of the match that was unread for the
      requester has been marked read. */
  method FetchConversation(db: Db, user: UserId, matchId: MatchId, now: Time)
    returns (res: Reply<seq<(MessageId, Message)>>)
    modifies db`messages
    ensures var owned := OwnedDogs(db.dogs, user);
            res.code == NotFound404 <==> matchId !in db.matches || !Involves(db.matches[matchId], owned)
    ensures res.code == NotFound404 ==> db.messages == old(db.messages)
    ensures res.code != NotFound404 ==>
              && res.code == Ok200
              && db.messages == MarkAsRead(old(db.messages), UnreadOf(old(db.messages), matchId, user), now)
              && UnreadOf(db.messages, matchId, user) == {}
              && res.body.Some?
              && var out := res.body.value;
                 && |out| == |MessagesOf(old(db.messages), matchId)|
                 && (forall k :: 0 <= k < |out| ==>
                       out[k].0 in MessagesOf(old(db.messages), matchId) && out[k].1 == db.messages[out[k].0])
                 && (forall i, j :: 0 <= i < j < |out| ==> out[i].0 != out[j].0)
                 && (forall i, j :: 0 <= i < j < |out| ==> out[i].1.createdAt <= out[j].1.createdAt)
    ensures forall id :: id in old(db.messages) ==>
              var m := old(db.messages)[id];
              && (m.matchId != matchId || m.sender == user || m.readAt.Some? ==> db.messages[id] == m)
              && (res.code == Ok200 && m.matchId == matchId && m.sender != user ==> db.messages[id].readAt.Some?)
  {
    var owned := OwnedDogs(db.dogs, user);
    if matchId !in db.matches || !Involves(db.matches[matchId], owned) {
      return Fail(NotFound404);
    }
    var ids := MessagesOf(db.messages, matchId);
    var order := SortByCreation(db.messages, ids);
    var unread := UnreadOf(db.messages, matchId, user);
    MarkingClearsUnread(db.messages, matchId, user, now);
    if unread != {} {
      db.messages := MarkAsRead(db.messages, unread, now);
    } else {
      MarkNothing(db.messages, now);
    }
    var msgs := db.messages;
    var out := seq(|order|, k requires 0 <= k < |order| => (order[k], msgs[order[k]]));
    res := Answer(Ok200, out);
  }

  /** POST /: 400 when the content is blank; 404 unless the match exists and
      the requester owns one of its dogs; 400 unless the match is `matched`;
      otherwise one new unread message from the requester, with the trimmed
      content (201). */
  method Send(db: Db, user: UserId, matchId: MatchId, content: string, now: Time, newId: MessageId)
    returns (res: Reply<(MessageId, Message)>)
    modifies db`messages
    ensures var involved := matchId in db.matches && Involves(db.matches[matchId], OwnedDogs(db.dogs, user));
            && (res.code == BadRequest400 <==>
                  Blank(content) || (involved && db.matches[matchId].status != Matched))
            && (res.code == NotFound404 <==> !Blank(content) && !involved)
            && (res.code == Created201 <==>
                  !Blank(content) && involved && db.matches[matchId].status == Matched &&
                  newId !in old(db.messages))
            && (res.code == StoreError500 <==>
                  !Blank(content) && involved && db.matches[matchId].status == Matched &&
                  newId in old(db.messages))
    ensures res.code == Created201 ==>
              && res.body == Some((newId, Message(matchId, user, Trim(content), now, None)))
              && db.messages == old(db.messages)[newId := Message(matchId, user, Trim(content), now, None)]
    ensures res.code != Created201 ==> db.messages == old(db.messages)
    ensures Matches.NoneMatched(db.matches) ==> res.code != Created201
  {
    TrimEmptyIffBlank(content);
    var text := Trim(content);
    if text == [] {
      return Fail(BadRequest400);
    }
    var owned := OwnedDogs(db.dogs, user);
    if matchId !in db.matches || !Involves(db.matches[matchId], owned) {
      return Fail(NotFound404);
    }
    if db.matches[matchId].status != Matched {
      return Fail(BadRequest400);
    }
    if newId in db.messages {
      return Fail(StoreError500);
    }
    var row := Message(matchId, user, text, now, None);
    db.messages := db.messages[newId := row];
    res := Answer(Created201, (newId, row));
  }

  /** A listed message whose match row is gone: reading `message.match.dog1_id`
      throws, and the handler answers 500. */
  predicate Dangling(msgs: map<MessageId, Message>, ms: map<MatchId, Match>, id: MessageId)
  {
    id in msgs && msgs[id].matchId !in ms
  }

  /** A listed message of a match in which the requester owns neither dog. */
  predicate Foreign(msgs: map<MessageId, Message>, ms: map<MatchId, Match>, owned: set<DogId>, id: MessageId)
  {
    id in msgs && msgs[id].matchId in ms && !Involves(ms[msgs[id].matchId], owned)
  }

  datatype Verdict = Authorized | DanglingMatch | NotAuthorized

  /** The authorization filter of POST /mark-read over the listed messages that
      exist: any dangling one makes the handler fail, otherwise any one of a
      foreign match forbids the request. Ids that name no message are skipped. */
  method CheckListed(msgs: map<MessageId, Message>, ms: map<MatchId, Match>, owned: set<DogId>,
                     ids: seq<MessageId>)
    returns (v: Verdict)
    ensures v == DanglingMatch <==> exists id :: id in ids && Dangling(msgs, ms, id)
    ensures v == NotAuthorized <==>
              (forall id :: id in ids ==> !Dangling(msgs, ms, id)) &&
              (exists id :: id in ids && Foreign(msgs, ms, owned, id))
  {
    v := Authorized;
    var i := 0;
    while i < |ids|
      invariant 0 <= i <= |ids|
      invariant v != DanglingMatch
      invariant forall k :: 0 <= k < i ==> !Dangling(msgs, ms, ids[k])
      invariant v == NotAuthorized <==> exists k :: 0 <= k < i && Foreign(msgs, ms, owned, ids[k])
    {
      var id := ids[i];
      if id in msgs {
        var mid := msgs[id].matchId;
        if mid !in ms {
          assert ids[i] in ids;
          return DanglingMatch;
        }
        if !Involves(ms[mid], owned) {
          v := NotAuthorized;
        }
      }
      i := i + 1;
    }
  }

  /** POST /mark-read: 500 if a listed message has lost its match, 403 if a
      listed message belongs to a match in which the requester owns neither
      dog, otherwise every listed message that was unread gets `read_at = now`
      (204). Being the recipient is not required. */
  method MarkRead(db: Db, user: UserId, ids: seq<MessageId>, now: Time)
    returns (res: Reply<()>)
    modifies db`messages
    ensures var owned := OwnedDogs(db.dogs, user);
            && (res.code == StoreError500 <==> exists id :: id in ids && Dangling(old(db.messages), db.matches, id))
            && (res.code == Forbidden403 <==>
                  (forall id :: id in ids ==> !Dangling(old(db.messages), db.matches, id)) &&
                  (exists id :: id in ids && Foreign(old(db.messages), db.matches, owned, id)))
            && (res.code == NoContent204 <==>
                  forall id :: id in ids ==>
                    !Dangling(old(db.messages), db.matches, id) && !Foreign(old(db.messages), db.matches, owned, id))
    ensures res.code == NoContent204 ==> db.messages == MarkAsRead(old(db.messages), (set id | id in ids), now)
    ensures res.code != NoContent204 ==> db.messages == old(db.messages)
  {
    var owned := OwnedDogs(db.dogs, user);
    var verdict := CheckListed(db.messages, db.matches, owned, ids);
    if verdict == DanglingMatch {
      return Fail(StoreError500);
    }
    if verdict == NotAuthorized {
      return Fail(Forbidden403);
    }
    db.messages := MarkAsRead(db.messages, (set id | id in ids), now);
    res := Reply(NoContent204, None);
  }

  /** Marking the same messages read twice: the second call answers as the
      first did and changes nothing. */
  method MarkReadTwice(db: Db, user: UserId, ids: seq<MessageId>, t1: Time, t2: Time)
    returns (first: Reply<()>, second: Reply<()>)
    modifies db`messages
    ensures second.code == first.code
    ensures first.code == NoContent204 ==> db.messages == MarkAsRead(old(db.messages), (set id | id in ids), t1)
    ensures first.code != NoContent204 ==> db.messages == old(db.messages)
  {
    first := MarkRead(db, user, ids, t1);
    second := MarkRead(db, user, ids, t2);
    if first.code == NoContent204 {
      MarkAsReadIdempotent(old(db.messages), (set id | id in ids), t1, t2);
    }
  }

  // ---- GET /conversations -------------------------------------------------

  datatype UserCard = UserCard(id: UserId, firstName: string, lastName: string, profileImageUrl: Option<string>)

  datatype DogCard = DogCard(id: DogId, name: string, breed: string, age: int, imageUrl: Option<string>)

  datatype MyDogCard = MyDogCard(id: DogId, name: string)

  datatype LastMessage = LastMessage(id: MessageId, content: string, sentAt: Time, isFromMe: bool, read: bool)

  datatype Summary = Summary(
    matchId: MatchId,
    status: MatchStatus,
    otherUser: UserCard,
    otherDog: DogCard,
    myDog: MyDogCard,
    lastMessage: Option<LastMessage>,
    unreadCount: nat)

  /** The message that heads the list ordered by `created_at` descending: one
      created no earlier than any other of `ids` (among equal timestamps the
      store's order is unspecified). */
  ghost function Latest(msgs: map<MessageId, Message>, ids: set<MessageId>): (r: Option<MessageId>)
    requires ids <= msgs.Keys
    ensures r.None? <==> ids == {}
    ensures r.Some? ==> r.value in ids && forall j :: j in ids ==> msgs[j].createdAt <= msgs[r.value].createdAt
    decreases ids
  {
    if ids == {} then None
    else
      var x :| x in ids;
      var rest := Latest(msgs, ids - {x});
      if rest.None? || msgs[rest.value].createdAt < msgs[x].createdAt then Some(x) else rest
  }

  /** The embedded rows a summary dereferences are present: both dogs, the
      owner profile of dog1 and, when dog1 is the requester's, that of dog2.
      Without them the mapping throws and the handler answers 500. */
  predicate Presentable(profiles: map<UserId, Profile>, dogs: map<DogId, Dog>, m: Match, user: UserId)
  {
    && m.dog1 in dogs && m.dog2 in dogs
    && dogs[m.dog1].owner in profiles
    && (dogs[m.dog1].owner == user ==> dogs[m.dog2].owner in profiles)
  }

  /** The first image of a dog, if it has any. */
  function FirstImage(urls: Option<seq<string>>): Option<string>
  {
    if urls.Some? && |urls.value| > 0 then Some(urls.value[0]) else None
  }

  /** One conversation summary: the other side is dog2 when the requester owns
      dog1 and dog1 otherwise, the last message is the latest one, and the
      unread count counts the messages unread for the requester. */
  ghost function Summarize(profiles: map<UserId, Profile>, dogs: map<DogId, Dog>,
                           msgs: map<MessageId, Message>, user: UserId, id: MatchId, m: Match)
    : (s: Summary)
    requires Presentable(profiles, dogs, m, user)
    ensures s.matchId == id && s.status == m.status
    ensures dogs[m.dog1].owner == user ==> s.otherDog.id == m.dog2 && s.myDog.id == m.dog1
    ensures dogs[m.dog1].owner != user ==> s.otherDog.id == m.dog1 && s.myDog.id == m.dog2
    ensures s.otherUser.id == dogs[s.otherDog.id].owner
    ensures s.lastMessage.None? <==> MessagesOf(msgs, id) == {}
    ensures s.lastMessage.Some? ==>
              var l := s.lastMessage.value;
              && l.id in MessagesOf(msgs, id)
              && l.content == msgs[l.id].content && l.sentAt == msgs[l.id].createdAt
              && (forall j :: j in MessagesOf(msgs, id) ==> msgs[j].createdAt <= l.sentAt)
              && l.isFromMe == (msgs[l.id].sender == user)
              && l.read == msgs[l.id].readAt.Some?
    ensures s.unreadCount == |UnreadOf(msgs, id, user)|
  {
    var mine := dogs[m.dog1].owner == user;
    var otherId := if mine then m.dog2 else m.dog1;
    var myId := if mine then m.dog1 else m.dog2;
    var other := dogs[otherId];
    var owner := profiles[other.owner];
    var last := Latest(msgs, MessagesOf(msgs, id));
    Summary(
      id,
      m.status,
      UserCard(other.owner, owner.firstName, owner.lastName, owner.profileImageUrl),
      DogCard(otherId, other.name, other.breed, other.age, FirstImage(other.imageUrls)),
      MyDogCard(myId, dogs[myId].name),
      if last.None? then None
      else
        var l := msgs[last.value];
        Some(LastMessage(last.value, l.content, l.createdAt, l.sender == user, l.readAt.Some?)),
      |UnreadOf(msgs, id, user)|)
  }

  /** GET /conversations: one summary per match in which the requester owns a
      dog, or 500 when one of those matches lacks a row its summary reads. */
  ghost function Conversations(profiles: map<UserId, Profile>, dogs: map<DogId, Dog>,
                               ms: map<MatchId, Match>, msgs: map<MessageId, Message>, user: UserId)
    : (r: Reply<map<MatchId, Summary>>)
    ensures var listed := Matches.ListMatches(dogs, ms, user);
            && (r.code == Ok200 <==> forall id :: id in listed ==> Presentable(profiles, dogs, ms[id], user))
            && (r.code != Ok200 ==> r == Fail(StoreError500))
            && (r.code == Ok200 ==>
                  && r.body.Some?
                  && r.body.value.Keys == listed.Keys
                  && forall id :: id in listed ==> r.body.value[id] == Summarize(profiles, dogs, msgs, user, id, ms[id]))
  {
    var listed := Matches.ListMatches(dogs, ms, user);
    if forall id :: id in listed ==> Presentable(profiles, dogs, ms[id], user) then
      Answer(Ok200, map id | id in listed :: Summarize(profiles, dogs, msgs, user, id, ms[id]))
    else
      Fail(StoreError500)
  }

  /** When the requester owns exactly one dog of a match, `my_dog` is that dog
      and `other_dog` is the other one. */
  lemma MyDogIsOwned(profiles: map<UserId, Profile>, dogs: map<DogId, Dog>,
                     msgs: map<MessageId, Message>, user: UserId, id: MatchId, m: Match)
    requires Presentable(profiles, dogs, m, user)
    requires (m.dog1 in OwnedDogs(dogs, user)) != (m.dog2 in OwnedDogs(dogs, user))
    ensures var s := Summarize(profiles, dogs, msgs, user, id, m);
            s.myDog.id in OwnedDogs(dogs, user) && s.otherDog.id !in OwnedDogs(dogs, user)
  {
  }

  /** Right after the requester fetches a conversation, its summary shows no
      unread message. */
  lemma FetchedConversationHasNoUnread(profiles: map<UserId, Profile>, dogs: map<DogId, Dog>,
                                       msgs: map<MessageId, Message>, user: UserId, id: MatchId, m: Match, now: Time)
    requires Presentable(profiles, dogs, m, user)
    ensures Summarize(profiles, dogs, MarkAsRead(msgs, UnreadOf(msgs, id, user), now), user, id, m).unreadCount == 0
  {
  }
}
