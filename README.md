# PawPals API route logic in Dafny

PawPals is a dog-socialising service. Owners register dogs, request matches
between dogs, chat once two dogs are mutually matched, schedule playdates and
rate dogs after completed playdates. This project models the REST route
handlers of its API (`api/src/routes/*.js`). Each handler is modelled as an
operation on an in-memory copy of the six store tables (profiles, dogs,
matches, messages, playdates, ratings). The model proves each handler's
status codes, and the new table state, against that copy.

Layout, one module per route file:

- `common.dfy` (`Common`): status codes and the reply shape. It also holds
  the `trim()` sanitizer over the exact JavaScript `\s` whitespace set, and
  the `value || null` coercion.
- `store.dfy` (`Store`): the row types. Class `Db` holds the six tables as
  maps from row id to row. It also defines the ownership resolver
  `getUserDogIds` as `OwnedDogs`.
- `matches.dfy` (`Matches`): listing matches, match requests (as written
  and as intended) and owner-gated status updates. It also carries the two
  table invariants, one row per pair of dogs and no row `matched`.
- `messages.dfy` (`Messages`):
  - the send gate, which requires a `matched` match;
  - fetching a conversation, which sorts by creation time and marks inbound
    messages read;
  - mark-read, with its authorization filter;
  - the per-match conversation summaries.
- `ratings.dfy` (`Ratings`): rating eligibility (a completed playdate, the
  rated dog in the match, the rater owning the other dog), one rating per
  playdate, rater and dog, and rater-only update and delete.
- `playdates.dfy` (`Playdates`): coordinate ranges, creation gated on match
  participation, and field-wise updates.
- `dogs.dfy` (`Dogs`): the dog validators and owner-gated CRUD. The owner
  of a created dog is always the requester. A PATCH body's `owner_id` is
  spread into the update, so it hands the dog to another user. It can never
  take another user's dog.
- `profiles.dfy` (`Profiles`): the upsert (200 when updating, 201 when
  inserting), the public view without `phone` and `email`, and the
  self-only PATCH.

External values are inputs to the operations:

- the requester's identity, taken from the verified bearer token;
- the clock (`now`);
- the id the store assigns to a new row (`newId`). An id already present
  stands for the store's primary-key failure and gives 500.

Any store error gives 500, as in the shared error handler.

## Model

| member | source | states |
|---|---|---|
| Common.Trim | api/src/routes/dogs.js:37-38 | the sanitized value is a contiguous piece of the input with no whitespace at either end, and everything cut off before and after it is whitespace |
| Common.TrimIsUnique | api/src/routes/dogs.js:37-38 | those properties determine the sanitized value: any piece of the input that has them is `Trim` of the input |
| Common.TrimEmptyIffBlank | api/src/routes/messages.js:169 | `trim().notEmpty()` rejects a string exactly when every character of it is whitespace |
| Common.NonBlankTrimKeepsText | api/src/routes/dogs.js:37-38 | a value accepted by `trim().notEmpty()` is stored non-empty and still contains a non-space character |
| Common.EmptyAsNull | api/src/routes/ratings.js:127 | an omitted or empty review is stored as null, any other review as given |
| Store.OwnedDogs | api/src/routes/matches.js:189-197 | the ownership resolver yields only ids of existing dogs |
| Store.OwnedDogsDisjoint | api/src/routes/matches.js:189-197 | two different users never own the same dog |
| Matches.ListMatches | api/src/routes/matches.js:18-36 | a match is listed exactly when the requester owns its dog1 or its dog2, and is listed unchanged |
| Matches.ReversePendingIsExisting | api/src/routes/matches.js:62-94 | every row the reverse-pending lookup finds is also found by the earlier either-orientation lookup |
| Matches.ExistingAtMostOne | api/src/routes/matches.js:62-69 | while each pair of dogs has at most one row, the either-orientation `maybeSingle()` lookup finds at most one row |
| Matches.InsertKeepsPairUnique | api/src/routes/matches.js:78-85 | inserting a row for a pair no row joins keeps at most one row per pair |
| Matches.RequestMatch | api/src/routes/matches.js:39-130 | as written: 403 iff the requester owns neither dog; 409 with the existing row iff one joins the dogs in either orientation; otherwise a new `pending` row (201), or 500 when a dog id names no dog, since both reference `dogs`. It never answers 200, and it preserves both one row per pair and no row `matched` |
| Matches.RequestMatchIntended | api/src/routes/matches.js:87-125 | as intended: a reverse pending request is upgraded to `matched` with a 200 before the duplicate check, and only that row changes; otherwise 403, 409, 201 and 500 (several reverse or existing rows, or a rejected insert) as in the written handler |
| Matches.ParseTargetStatus | api/src/routes/matches.js:137 | a PATCH status is accepted iff it is `accepted`, `rejected` or `blocked`, and it is read back as the status with that spelling |
| Matches.ParseStatusName | api/src/routes/matches.js:137 | `pending` and `matched` cannot be set through PATCH; each of the other three can |
| Matches.UpdateStatus | api/src/routes/matches.js:133-186 | 400 iff the status is not accepted; 404 iff the match is unknown; 403 iff the requester owns neither dog; otherwise only that row's status and `updated_at` change (200). It preserves both match invariants |
| Matches.ReverseRequestConflicts | api/src/routes/matches.js:62-76 | as written, the reciprocal request of the other dog's owner is refused with 409 and the first request stays `pending` |
| Matches.ReciprocalRequestsMatch | api/src/routes/matches.js:87-113 | as intended, two reciprocal requests leave exactly one row between the dogs, and that row is `matched` |
| Messages.MarkAsRead | api/src/routes/messages.js:270-274 | each listed message whose `read_at` is null gets `read_at = now`; every other message and field is unchanged |
| Messages.MarkAsReadIdempotent | api/src/routes/messages.js:270-274 | marking the same messages read again changes nothing, whatever the second clock reading |
| Messages.MarkNothing | api/src/routes/messages.js:140-155 | with no unread message the store is left as it was |
| Messages.MarkingClearsUnread | api/src/routes/messages.js:135-155 | after the marking, no message of the match is unread for the requester |
| Messages.EarliestExists | api/src/routes/messages.js:127-131 | a non-empty set of messages has one created no later than all the others |
| Messages.SortByCreation | api/src/routes/messages.js:127-131 | the match's messages, each exactly once, in ascending `created_at` order |
| Messages.FetchConversation | api/src/routes/messages.js:97-162 | 404 iff the match is unknown or the requester owns neither dog. Otherwise it returns the match's messages, sorted and without duplicates. Exactly the messages unread for the requester are marked read. The requester's own messages and other matches' messages are unchanged |
| Messages.Send | api/src/routes/messages.js:165-228 | 400 iff the content is blank, or the match is the requester's and not `matched`; 404 iff the match is unknown or not the requester's; otherwise one new unread message with the trimmed content (201). While no match is `matched`, it never answers 201 |
| Messages.CheckListed | api/src/routes/messages.js:247-267 | the filter fails iff a listed message has lost its match; otherwise it forbids iff a listed message belongs to a match where the requester owns neither dog |
| Messages.MarkRead | api/src/routes/messages.js:231-283 | 500, 403 and 204 under exactly those conditions. On 204 every listed unread message is marked read, whether or not the requester received it |
| Messages.MarkReadTwice | api/src/routes/messages.js:270-278 | repeating a mark-read answers the same code and changes nothing more |
| Messages.Latest | api/src/routes/messages.js:40-53 | the head of the list ordered by `created_at` descending is a message created no earlier than any other; there is none iff the match has no messages |
| Messages.Summarize | api/src/routes/messages.js:45-88 | the other dog is dog2 iff the requester owns dog1. The other user owns the other dog. The last message is a message of the match created no earlier than any other, with that message's content and creation time. `is_from_me` and `read` follow that message. The unread count is the number of messages unread for the requester |
| Messages.Conversations | api/src/routes/messages.js:18-94 | one summary per match involving the requester's dogs; 500 when a listed match lacks a row the summary dereferences |
| Messages.MyDogIsOwned | api/src/routes/messages.js:47-48 | when the requester owns exactly one dog of a match, `my_dog` is theirs and `other_dog` is not |
| Messages.FetchedConversationHasNoUnread | api/src/routes/messages.js:135-155 | right after the requester fetches a conversation, its summary's unread count is 0 |
| Ratings.RatingsForDog | api/src/routes/ratings.js:18-45 | exactly the ratings of the given dog, unchanged |
| Ratings.OtherDogIsPartner | api/src/routes/ratings.js:94-98 | the other dog and the rated dog are together the two dogs of the match |
| Ratings.InsertKeepsUnique | api/src/routes/ratings.js:104-140 | inserting a rating for a triple (playdate, rater, rated dog) that has none keeps each triple unique |
| Ratings.CreateRating | api/src/routes/ratings.js:48-145 | in order: 400 for a score outside 1..5; 404 unless the playdate is completed; 500 without its match row; 400 unless the rated dog is in the match; 403 unless the requester owns the other dog; 409 on a repeat; 500 when the requester has no profile for `rater_id` to reference; otherwise one new rating with an empty review stored as null (201). Ratings stay unique |
| Ratings.UpdateRating | api/src/routes/ratings.js:148-202 | 400 for a supplied score outside 1..5; 404 for an unknown rating; 403 unless the requester wrote it; otherwise only its score, review and `updated_at` change (200) |
| Ratings.DeleteRating | api/src/routes/ratings.js:205-244 | 404, 403 or 204 under exactly those conditions; on 204 exactly that rating is removed |
| Playdates.ParsePlaydateStatus | api/src/routes/playdates.js:122 | a status is accepted iff it is `scheduled`, `completed` or `cancelled`, and it is read back under its own spelling |
| Playdates.ParsePlaydateStatusName | api/src/routes/playdates.js:122 | every playdate status can be set by its own spelling |
| Playdates.ListPlaydates | api/src/routes/playdates.js:18-41 | a playdate is listed exactly when its match involves one of the requester's dogs |
| Playdates.CreatePlaydate | api/src/routes/playdates.js:44-109 | 400 iff a coordinate is out of range; 404 iff the match is unknown; 403 iff the requester owns neither dog, whatever the match's status; otherwise one new `scheduled` playdate created by the requester, with empty notes stored as null (201) |
| Playdates.UpdatePlaydate | api/src/routes/playdates.js:112-172 | 400, 404, 500 (missing match row), 403 and 200 under exactly those conditions. On 200 each supplied field replaces the stored one, with any status transition allowed, and nothing else changes |
| Dogs.ParseSize | api/src/routes/dogs.js:40 | a size is accepted iff it is one of the four spellings, and it is read back under its own spelling |
| Dogs.ParseVaccination | api/src/routes/dogs.js:46-47 | a vaccination status is accepted iff it is one of the three spellings, and it is read back under its own spelling |
| Dogs.ParseNames | api/src/routes/dogs.js:40-47 | every size and vaccination status is read back from its own spelling |
| Dogs.NewDogIsValidChange | api/src/routes/dogs.js:119-128 | every body accepted on creation is also accepted as an update |
| Dogs.ListDogs | api/src/routes/dogs.js:18-31 | the listed dogs are exactly those the requester owns |
| Dogs.GetDog | api/src/routes/dogs.js:79-112 | 404 iff the dog is unknown; 403 iff someone else owns it; otherwise the dog (200) |
| Dogs.NewDog | api/src/routes/dogs.js:55-60 | the inserted dog is owned by the requester, whatever `owner_id` the body carries; its name and breed are trimmed and non-blank, its bio is trimmed, and every range holds |
| Dogs.CreateDog | api/src/routes/dogs.js:34-76 | 400 iff a validator fails; 500 iff the requester has no profile for `owner_id` to reference (or the id is taken); otherwise exactly that new dog is added (201), and the requester owns one more dog |
| Dogs.ApplyDogChanges | api/src/routes/dogs.js:152-160 | each field present in the body, `owner_id` included, replaces the stored one; absent fields and `created_at` stay |
| Dogs.ChangesKeepRanges | api/src/routes/dogs.js:119-128 | a valid update keeps the age non-negative, the energy level in 1..5, and the name and breed non-blank |
| Dogs.UpdateOnlyGivesAway | api/src/routes/dogs.js:152-160 | after an update the owner has no dog they lacked before. They lose this dog iff the body names another owner, and nobody else loses a dog |
| Dogs.UpdateDog | api/src/routes/dogs.js:115-171 | 400, 404, 403, 500 (a body `owner_id` naming a user without a profile) and 200 under exactly those conditions. On 200 only that dog changes, and the requester gains no dog |
| Dogs.DeleteDog | api/src/routes/dogs.js:174-213 | 404, 403 or 204 under exactly those conditions; on 204 exactly that dog is removed |
| Profiles.ApplyProfile | api/src/routes/profiles.js:163-166 | each field present in the body replaces the stored one, trimmed where the validators trim; absent fields, `email` and `created_at` stay |
| Profiles.GetMe | api/src/routes/profiles.js:18-35 | the requester's own profile, or 404 when they have none |
| Profiles.UpsertProfile | api/src/routes/profiles.js:38-103 | 400 unless the first name, last name and phone are non-blank. Otherwise it updates the requester's row (200) or inserts it with `created_at = now` (201), with the email from the requester's identity. No other row changes, so a user never has two profiles |
| Profiles.GetPublicProfile | api/src/routes/profiles.js:106-137 | 404 iff there is no such profile; otherwise every stored field except `phone` and `email` |
| Profiles.PublicViewHidesContact | api/src/routes/profiles.js:129-132 | two profiles that differ only in phone and email have the same public view |
| Profiles.PatchProfile | api/src/routes/profiles.js:140-183 | 403 iff the path names another user, checked before validation; 400 for an invalid body; 500 when the requester has no row; otherwise only the requester's row changes (200) |

## Left out

- The store client is not modelled as such. Each query is modelled by its
  effect on the in-memory tables. A `.single()` that finds no row is an
  error in the store client, and the handlers would answer 500 for it. The
  model answers with the handler's explicit "not found" branch instead.
- The id-format validators (`isUUID`) and the date validator (`isISO8601`)
  are left out. Ids and instants are natural numbers here.
- `scheduled_time` is normalised through `new Date(...).toISOString()`.
  That normalisation is left out.
- Timestamps come from an opaque clock passed in as `now`. The fetch
  handler re-stamps `read_at` in its response with a second clock reading.
  The model shows the stored value instead.
- Profiles.UpsertProfile: `isURL` on `profile_image_url` is an input
  (`urlOk`), not a model of URL syntax.
- Profiles.PatchProfile: `isURL` on `profile_image_url` is an input
  (`urlOk`), not a model of URL syntax.
- Profiles.UpsertProfile: only the validated fields of the body are
  modelled. A body `id` or `email` would override the requester's own,
  because it is spread after them.
- Profiles.PatchProfile: only the validated fields of the body are modelled.
- Ratings.UpdateRating: only `rating` and `review` are modelled. Any other
  field of the body is spread into the update.
- Playdates.UpdatePlaydate: only the validated fields are modelled. Any
  other field of the body is spread into the update.
- Dogs.UpdateDog: only the validated fields and `owner_id` are modelled.
  Any other field of the body is spread into the update.
- Dogs.CreateDog: extra body fields spread into the insert are not
  modelled.
- The embedded rows the list handlers join are not modelled. These are the
  dog and owner cards of the match and playdate lists, and the rater card
  of the rating list. The model returns the base rows.
- Foreign keys are modelled only where the source shows them through an
  embed: `matches.dog1_id` and `matches.dog2_id` reference `dogs`, and
  `dogs.owner_id` and `ratings.rater_id` reference `profiles`. An insert or
  update that breaks one of these answers 500; deletes do not check them
  (see the line on cascading below). `messages.match_id` and
  `playdates.match_id` also reference `matches`. They always hold on insert,
  because `Send` and `CreatePlaydate` look up the match first and answer 404
  when it is missing. Other references are not modelled:
  `messages.sender_id`, `playdates.created_by`, `ratings.playdate_id` and
  `ratings.rated_dog_id`. Their constraints cannot be read from the
  handlers.
- Ids are opaque values. An owned id sent by a client in upper case passes
  `isUUID`, but the case-sensitive `includes` and `===` comparisons with
  the stored lower-case ids reject it, so the source answers 403 (400 at
  api/src/routes/ratings.js:88, where the rated dog is compared with the
  match's dogs). The model treats the two spellings as the same id.
- The list queries of matches.js and playdates.js put the owned ids,
  single-quoted and comma-joined, into an `in.(…)` filter. The store's
  filter syntax quotes values with double quotes, so the model's reading
  of that list as membership in the set of owned ids assumes the store
  client accepts the single-quoted values as the ids themselves.
- The store's cascading behaviour when a dog, match or playdate row is
  deleted is not modelled. Rows that reference a missing row are handled
  where a handler dereferences them, with 500.
- Concurrency between requests is left out. Every operation runs on its
  own.
- The server bootstrap and the token middleware (`index.js`, `lambda.js`)
  are not modelled, and neither is the web client. The requester's id and
  email are inputs.
- The real-time event the send handler mentions is not modelled. The
  handler does not implement it.

## Findings

| source | as written | input that shows it | evidently intended | confidence | as-written member | corrected member |
|---|---|---|---|---|---|---|
| api/src/routes/matches.js:62-113 | The duplicate check matches rows in either orientation, and it runs before the reverse-pending lookup. Any reverse pending request was therefore already answered with 409, and the upgrade to `matched` is unreachable. PATCH cannot set `matched` either, so no match is ever `matched`, and no message can ever be sent (the send handler never answers 201) | The owner of dog A requests (A, B), which gives 201 and a `pending` row. The owner of dog B then requests (B, A) and gets 409; the row stays `pending` | The reciprocal request upgrades the pending row to `matched` and answers 200 | not executed | Matches.RequestMatch | Matches.RequestMatchIntended |

`Matches.ReverseRequestConflicts` exhibits the as-written behaviour on the
input above. `Matches.ReciprocalRequestsMatch` proves the intended outcome
for the same two requests.
