/** User profiles (routes/profiles.js): the requester's own profile, the
    create-or-update upsert, the public view of another user, and PATCH. */
module Profiles {
  import opened Common
  import opened Store

  /** The fields of a POST or PATCH body, each possibly absent. */
  datatype ProfileBody = ProfileBody(
    firstName: Option<string>,
    lastName: Option<string>,
    phone: Option<string>,
    bio: Option<string>,
    profileImageUrl: Option<string>,
    neighborhood: Option<string>,
    isWalker: Option<bool>)

  /** The POST validators: first name, last name and phone present and not
      blank, and a profile image URL, when given, accepted by `isURL`
      (`urlOk` is that check's outcome, computed outside this model). */
  predicate ValidNewProfile(b: ProfileBody, urlOk: bool)
  {
    && (b.profileImageUrl.Some? ==> urlOk)
    && b.firstName.Some? && !Blank(b.firstName.value)
    && b.lastName.Some? && !Blank(b.lastName.value)
    && b.phone.Some? && !Blank(b.phone.value)
  }

  /** The PATCH validators: the same three fields, when present, not blank,
      and the same URL check. */
  predicate ValidProfileChanges(b: ProfileBody, urlOk: bool)
  {
    && (b.profileImageUrl.Some? ==> urlOk)
    && (b.firstName.Some? ==> !Blank(b.firstName.value))
    && (b.lastName.Some? ==> !Blank(b.lastName.value))
    && (b.phone.Some? ==> !Blank(b.phone.value))
  }

  /** The stored profile after writing the body over `p`: each field present
      in the body replaces the stored one, trimmed where the validators trim. */
  function ApplyProfile(p: Profile, b: ProfileBody, now: Time): (r: Profile)
    ensures r.email == p.email && r.createdAt == p.createdAt && r.updatedAt == now
    ensures r.firstName == Or(TrimOpt(b.firstName), p.firstName)
    ensures r.lastName == Or(TrimOpt(b.lastName), p.lastName)
    ensures r.phone == Or(TrimOpt(b.phone), p.phone)
    ensures b.bio.Some? ==> r.bio == Some(Trim(b.bio.value))
    ensures b.bio.None? ==> r.bio == p.bio
    ensures b.profileImageUrl.Some? ==> r.profileImageUrl == b.profileImageUrl
    ensures b.profileImageUrl.None? ==> r.profileImageUrl == p.profileImageUrl
    ensures b.neighborhood.Some? ==> r.neighborhood == Some(Trim(b.neighborhood.value))
    ensures b.neighborhood.None? ==> r.neighborhood == p.neighborhood
    ensures b.isWalker.Some? ==> r.isWalker == b.isWalker
    ensures b.isWalker.None? ==> r.isWalker == p.isWalker
  {
    Profile(p.email,
            Or(TrimOpt(b.firstName), p.firstName),
            Or(TrimOpt(b.lastName), p.lastName),
            Or(TrimOpt(b.phone), p.phone),
            if b.bio.Some? then TrimOpt(b.bio) else p.bio,
            if b.profileImageUrl.Some? then b.profileImageUrl else p.profileImageUrl,
            if b.neighborhood.Some? then TrimOpt(b.neighborhood) else p.neighborhood,
            if b.isWalker.Some? then b.isWalker else p.isWalker,
            p.createdAt,
            now)
  }

  /** The row an insert starts from: only the email and timestamps are set. */
  function BlankProfile(email: string, now: Time): Profile
  {
    Profile(email, "", "", "", None, None, None, None, now, now)
  }

  /** GET /me: the requester's own profile, or 404 when there is none. */
  function GetMe(profiles: map<UserId, Profile>, user: UserId): (r: Reply<Profile>)
    ensures r.code == NotFound404 <==> user !in profiles
    ensures r.code == Ok200 <==> user in profiles
    ensures r.code == Ok200 ==> r.body == Some(profiles[user])
  {
    if user in profiles then Answer(Ok200, profiles[user]) else Fail(NotFound404)
  }

  /** POST /: 400 unless first name, last name and phone are present and not
      blank; otherwise the requester's row is updated (200) when it exists
      and inserted with `created_at` (201) when it does not. The email always
      comes from the requester's identity. No other row changes, so a user
      never has two profiles. */
  method UpsertProfile(db: Db, user: UserId, email: string, b: ProfileBody, urlOk: bool, now: Time)
    returns (res: Reply<Profile>)
    modifies db`profiles
    ensures res.code == BadRequest400 <==> !ValidNewProfile(b, urlOk)
    ensures res.code == Ok200 <==> ValidNewProfile(b, urlOk) && user in old(db.profiles)
    ensures res.code == Created201 <==> ValidNewProfile(b, urlOk) && user !in old(db.profiles)
    ensures res.code == BadRequest400 ==> db.profiles == old(db.profiles)
    ensures res.code != BadRequest400 ==>
              && db.profiles.Keys == old(db.profiles).Keys + {user}
              && (forall u :: u in old(db.profiles) && u != user ==> db.profiles[u] == old(db.profiles)[u])
              && var p := db.profiles[user];
                 && p.email == email && p.updatedAt == now
                 && p.firstName == Trim(b.firstName.value) && !Blank(p.firstName)
                 && p.lastName == Trim(b.lastName.value) && !Blank(p.lastName)
                 && p.phone == Trim(b.phone.value) && !Blank(p.phone)
                 && p.createdAt == (if user in old(db.profiles) then old(db.profiles)[user].createdAt else now)
                 && res.body == Some(p)
    ensures res.code == Ok200 ==>
              db.profiles[user] == ApplyProfile(old(db.profiles)[user].(email := email), b, now)
    ensures res.code == Created201 ==>
              db.profiles[user] == ApplyProfile(BlankProfile(email, now), b, now)
  {
    if !ValidNewProfile(b, urlOk) {
      return Fail(BadRequest400);
    }
    NonBlankTrimKeepsText(b.firstName.value);
    NonBlankTrimKeepsText(b.lastName.value);
    NonBlankTrimKeepsText(b.phone.value);
    var p: Profile;
    var code: Code;
    if user in db.profiles {
      p := ApplyProfile(db.profiles[user].(email := email), b, now);
      code := Ok200;
    } else {
      p := ApplyProfile(BlankProfile(email, now), b, now);
      code := Created201;
    }
    db.profiles := db.profiles[user := p];
    res := Answer(code, p);
  }

  /** A profile without its private contact fields. */
  datatype PublicProfile = PublicProfile(
    id: UserId,
    firstName: string,
    lastName: string,
    bio: Option<string>,
    profileImageUrl: Option<string>,
    neighborhood: Option<string>,
    isWalker: Option<bool>,
    createdAt: Time,
    updatedAt: Time)

  /** `const { phone, email, ...publicProfile } = profile`. */
  function Publicize(id: UserId, p: Profile): PublicProfile
  {
    PublicProfile(id, p.firstName, p.lastName, p.bio, p.profileImageUrl, p.neighborhood, p.isWalker,
                  p.createdAt, p.updatedAt)
  }

  /** GET /:userId: 404 when the user has no profile; otherwise the profile
      with `phone` and `email` removed and every other field as stored. */
  function GetPublicProfile(profiles: map<UserId, Profile>, userId: UserId): (r: Reply<PublicProfile>)
    ensures r.code == NotFound404 <==> userId !in profiles
    ensures r.code == Ok200 <==> userId in profiles
    ensures r.code == Ok200 ==>
              && r.body.Some?
              && var v := r.body.value;
                 var p := profiles[userId];
                 && v.id == userId
                 && p == Profile(p.email, v.firstName, v.lastName, p.phone, v.bio, v.profileImageUrl,
                                 v.neighborhood, v.isWalker, v.createdAt, v.updatedAt)
  {
    if userId in profiles then Answer(Ok200, Publicize(userId, profiles[userId])) else Fail(NotFound404)
  }

  /** The public view reveals nothing of the phone number or email: two
      profiles that differ only there look the same. */
  lemma PublicViewHidesContact(profiles: map<UserId, Profile>, userId: UserId, phone: string, email: string)
    requires userId in profiles
    ensures GetPublicProfile(profiles, userId) ==
            GetPublicProfile(profiles[userId := profiles[userId].(phone := phone, email := email)], userId)
  {
  }

  /** PATCH /:userId: 403 when the path names another user, checked before
      the body; 400 for an invalid body; 500 when the requester has no row to
      update; otherwise only the requester's row changes (200). */
  method PatchProfile(db: Db, user: UserId, pathUser: UserId, b: ProfileBody, urlOk: bool, now: Time)
    returns (res: Reply<Profile>)
    modifies db`profiles
    ensures res.code == Forbidden403 <==> pathUser != user
    ensures res.code == BadRequest400 <==> pathUser == user && !ValidProfileChanges(b, urlOk)
    ensures res.code == StoreError500 <==>
              pathUser == user && ValidProfileChanges(b, urlOk) && user !in old(db.profiles)
    ensures res.code == Ok200 <==>
              pathUser == user && ValidProfileChanges(b, urlOk) && user in old(db.profiles)
    ensures res.code == Ok200 ==>
              && db.profiles == old(db.profiles)[user := ApplyProfile(old(db.profiles)[user], b, now)]
              && res.body == Some(db.profiles[user])
    ensures res.code != Ok200 ==> db.profiles == old(db.profiles)
  {
    if pathUser != user {
      return Fail(Forbidden403);
    }
    if !ValidProfileChanges(b, urlOk) {
      return Fail(BadRequest400);
    }
    if user !in db.profiles {
      // the update matches no row and `.single()` reports an error
      return Fail(StoreError500);
    }
    var p := ApplyProfile(db.profiles[user], b, now);
    db.profiles := db.profiles[user := p];
    res := Answer(Ok200, p);
  }
}
