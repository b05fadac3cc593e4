/** The `profiles` handlers: `get` (a query), `update` (an upsert mutation)
    and `generateUploadUrl` (an authentication guard around file storage). */
module Profiles {
  import opened Schema
  import opened Store

  /** The invariant `update` maintains and `.unique()` readers rely on; the
      schema itself does not enforce it. */
  ghost predicate AtMostOnePerUser(profiles: seq<Doc<Profile>>)
  {
    forall i, j :: 0 <= i < j < |profiles| ==> profiles[i].fields.userId != profiles[j].fields.userId
  }

  /** Under the invariant a `by_user` lookup finds at most one profile. */
  lemma {:induction false} OneProfilePerUser(profiles: seq<Doc<Profile>>, u: UserId)
    requires AtMostOnePerUser(profiles)
    ensures |Query(profiles, ByUser, u)| <= 1
    decreases |profiles|
  {
    if profiles != [] {
      var n := |profiles| - 1;
      var prefix, last := profiles[..n], profiles[n];
      assert AtMostOnePerUser(prefix) by {
        forall i, j | 0 <= i < j < |prefix|
          ensures prefix[i].fields.userId != prefix[j].fields.userId
        {
          assert prefix[i] == profiles[i] && prefix[j] == profiles[j];
        }
      }
      OneProfilePerUser(prefix, u);
      if last.fields.userId == u {
        forall d | d in prefix ensures d.fields.userId != u {
          var i :| 0 <= i < n && prefix[i] == d;
          assert profiles[i] == d;
        }
        QueryNoMatch(prefix, ByUser, u);
      }
    }
  }

  /** Two profiles of one user both show up in that user's lookup. */
  lemma SharedOwnerFoundTwice(profiles: seq<Doc<Profile>>, i: nat, j: nat)
    requires IdsAscending(profiles)
    requires i < j < |profiles| && profiles[i].fields.userId == profiles[j].fields.userId
    ensures |Query(profiles, ByUser, profiles[i].fields.userId)| > 1
  {
    var u := profiles[i].fields.userId;
    var q := Query(profiles, ByUser, u);
    var x, y := profiles[i], profiles[j];
    assert x.id != y.id;
    assert x in profiles && ByUser(x.fields) == u;
    assert y in profiles && ByUser(y.fields) == u;
    assert x in q && y in q;
  }

  /** The invariant holds exactly when every `by_user` lookup finds at most
      one profile. */
  lemma LookupUniqueIff(profiles: seq<Doc<Profile>>)
    requires IdsAscending(profiles)
    ensures AtMostOnePerUser(profiles) <==> forall u :: |Query(profiles, ByUser, u)| <= 1
  {
    if AtMostOnePerUser(profiles) {
      forall u ensures |Query(profiles, ByUser, u)| <= 1 {
        OneProfilePerUser(profiles, u);
      }
    } else {
      var i, j :| 0 <= i < j < |profiles| && profiles[i].fields.userId == profiles[j].fields.userId;
      SharedOwnerFoundTwice(profiles, i, j);
    }
  }

  /** The query result of `get`: the stored profile and the avatar's URL. */
  datatype ProfileView = ProfileView(id: Id, userId: UserId, name: string,
                                     avatarId: Option<StorageId>, avatarUrl: Option<Url>)

  /** `get`: the profile of `userId` through `by_user` and `.unique()`, with
      `avatarUrl` resolved by file storage's `getUrl` (which may itself yield
      nothing) when there is an avatar, and no URL when there is none. */
  function Get(profiles: seq<Doc<Profile>>, userId: UserId, getUrl: StorageId -> Option<Url>)
    : (r: Result<Option<ProfileView>>)
    ensures r == Ok(None) <==> forall d :: d in profiles ==> d.fields.userId != userId
    ensures r.Err? <==> |Query(profiles, ByUser, userId)| > 1
    ensures r.Err? ==> r.error == MultipleMatches
    ensures r.Ok? && r.value.Some? ==>
              forall d :: d in profiles && d.fields.userId == userId ==>
                && r.value.value.id == d.id
                && r.value.value.userId == userId
                && r.value.value.name == d.fields.name
                && r.value.value.avatarId == d.fields.avatarId
                && r.value.value.avatarUrl == (if d.fields.avatarId.None? then None
                                               else getUrl(d.fields.avatarId.value))
  {
    var matches := Query(profiles, ByUser, userId);
    assert matches != [] ==> matches[0] in matches;
    match Unique(matches)
    case Err(e) => Err(e)
    case Ok(None) => Ok(None)
    case Ok(Some(p)) =>
      var url := if p.fields.avatarId.Some? then getUrl(p.fields.avatarId.value) else None;
      Ok(Some(ProfileView(p.id, p.fields.userId, p.fields.name, p.fields.avatarId, url)))
  }

  /** Under the invariant `get` never throws. */
  lemma GetNeverThrows(profiles: seq<Doc<Profile>>, userId: UserId, getUrl: StorageId -> Option<Url>)
    requires AtMostOnePerUser(profiles)
    ensures Get(profiles, userId, getUrl).Ok?
  {
    OneProfilePerUser(profiles, userId);
  }

  /** What `update` does to the profiles table: reject a caller without an
      identity; otherwise patch the caller's profile (name always, avatar
      only when one is supplied) or, when there is none, insert one. */
  function AfterUpdate(profiles: seq<Doc<Profile>>, nextId: Id, caller: Option<UserId>,
                       name: string, avatarId: Option<StorageId>): (r: Result<seq<Doc<Profile>>>)
    ensures caller.None? ==> r == Err(NotAuthenticated)
    ensures caller.Some? ==> (r.Err? <==> |Query(profiles, ByUser, caller.value)| > 1)
    ensures r.Err? ==> r.error in {NotAuthenticated, MultipleMatches}
  {
    match caller
    case None => Err(NotAuthenticated)
    case Some(userId) =>
      match Unique(Query(profiles, ByUser, userId))
      case Err(e) => Err(e)
      case Ok(Some(existing)) => Ok(Patched(profiles, existing.id, ProfilePatch(name, avatarId)))
      case Ok(None) => Ok(profiles + [Doc(nextId, Profile(userId, name, avatarId))])
  }

  /** A caller without a profile gets exactly one new profile, carrying the
      caller's id, the given name, and an avatar only if one was supplied. */
  lemma UpdateInsertsWhenAbsent(profiles: seq<Doc<Profile>>, nextId: Id, u: UserId,
                                name: string, avatarId: Option<StorageId>)
    requires forall d :: d in profiles ==> d.fields.userId != u
    ensures var r := AfterUpdate(profiles, nextId, Some(u), name, avatarId);
            && r.Ok?
            && |r.value| == |profiles| + 1
            && r.value[..|profiles|] == profiles
            && r.value[|profiles|].id == nextId
            && r.value[|profiles|].fields.userId == u
            && r.value[|profiles|].fields.name == name
            && r.value[|profiles|].fields.avatarId == avatarId
  {
    QueryNoMatch(profiles, ByUser, u);
  }

  /** A caller who has a profile keeps it in place: same position, `_id` and
      `userId`; the name is replaced; the avatar is replaced when one is
      supplied and kept otherwise; every other profile is untouched and
      nothing is inserted. */
  lemma UpdatePatchesWhenPresent(profiles: seq<Doc<Profile>>, nextId: Id, u: UserId,
                                 name: string, avatarId: Option<StorageId>, k: nat)
    requires IdsAscending(profiles) && AtMostOnePerUser(profiles)
    requires k < |profiles| && profiles[k].fields.userId == u
    ensures var r := AfterUpdate(profiles, nextId, Some(u), name, avatarId);
            && r.Ok?
            && |r.value| == |profiles|
            && r.value[k].id == profiles[k].id
            && r.value[k].fields.userId == u
            && r.value[k].fields.name == name
            && r.value[k].fields.avatarId == (if avatarId.Some? then avatarId else profiles[k].fields.avatarId)
            && forall i :: 0 <= i < |profiles| && i != k ==> r.value[i] == profiles[i]
  {
    var q := Query(profiles, ByUser, u);
    OneProfilePerUser(profiles, u);
    assert profiles[k] in q;
    assert q == [profiles[k]];
    var after := Patched(profiles, profiles[k].id, ProfilePatch(name, avatarId));
    forall i | 0 <= i < |profiles| && i != k ensures after[i] == profiles[i] {
      if i < k { assert profiles[i].id < profiles[k].id; }
      else { assert profiles[k].id < profiles[i].id; }
    }
  }

  /** Appending a profile for a user who had none keeps the invariant. */
  lemma InsertKeepsOnePerUser(profiles: seq<Doc<Profile>>, d: Doc<Profile>)
    requires AtMostOnePerUser(profiles)
    requires forall e :: e in profiles ==> e.fields.userId != d.fields.userId
    ensures AtMostOnePerUser(profiles + [d])
  {
    var after := profiles + [d];
    forall i, j | 0 <= i < j < |after|
      ensures after[i].fields.userId != after[j].fields.userId
    {
      if j == |profiles| { assert after[i] == profiles[i] && profiles[i] in profiles; }
      else { assert after[i] == profiles[i] && after[j] == profiles[j]; }
    }
  }

  /** A patch changes neither ids nor owners, so it keeps the table's shape
      and the invariant. */
  lemma PatchKeepsOnePerUser(profiles: seq<Doc<Profile>>, nextId: Id, id: Id, patch: ProfilePatch)
    requires TableValid(profiles, nextId) && AtMostOnePerUser(profiles)
    ensures TableValid(Patched(profiles, id, patch), nextId)
    ensures AtMostOnePerUser(Patched(profiles, id, patch))
  {
    var after := Patched(profiles, id, patch);
    assert forall i :: 0 <= i < |after| ==>
      after[i].id == profiles[i].id && after[i].fields.userId == profiles[i].fields.userId;
  }

  /** `update` keeps the table's shape and at most one profile per user, and
      under that invariant it fails only for a caller without an identity. */
  lemma UpdateKeepsOneProfilePerUser(profiles: seq<Doc<Profile>>, nextId: Id, caller: Option<UserId>,
                                     name: string, avatarId: Option<StorageId>)
    requires TableValid(profiles, nextId) && AtMostOnePerUser(profiles)
    ensures var r := AfterUpdate(profiles, nextId, caller, name, avatarId);
            && (r.Ok? <==> caller.Some?)
            && (r.Ok? ==> AtMostOnePerUser(r.value))
            && (r.Ok? ==> TableValid(r.value, nextId + |r.value| - |profiles|))
  {
    if caller.Some? {
      var u := caller.value;
      OneProfilePerUser(profiles, u);
      var q := Query(profiles, ByUser, u);
      if q == [] {
        assert forall d :: d in profiles ==> d.fields.userId != u;
        InsertKeepsTableValid(profiles, nextId, Profile(u, name, avatarId));
        InsertKeepsOnePerUser(profiles, Doc(nextId, Profile(u, name, avatarId)));
      } else {
        PatchKeepsOnePerUser(profiles, nextId, q[0].id, ProfilePatch(name, avatarId));
      }
    }
  }

  /** `update`: on success the store holds the table `AfterUpdate`
      describes; on failure nothing was written. */
  method Update(db: Database, caller: Option<UserId>, name: string, avatarId: Option<StorageId>)
    returns (r: Result<()>)
    requires db.Valid()
    modifies db
    ensures db.Valid()
    ensures r == AfterUpdate(old(db.profiles), old(db.nextId), caller, name, avatarId).Void()
    ensures db.profiles == if r.Ok? then AfterUpdate(old(db.profiles), old(db.nextId), caller, name, avatarId).value
                           else old(db.profiles)
    ensures db.nextId == old(db.nextId) + |db.profiles| - |old(db.profiles)|
    ensures db.channels == old(db.channels) && db.messages == old(db.messages)
  {
    if caller.None? {
      return Err(NotAuthenticated);
    }
    var userId := caller.value;
    var existing := Unique(Query(db.profiles, ByUser, userId));
    match existing
    case Err(e) =>
      r := Err(e);
      assert r == AfterUpdate(db.profiles, db.nextId, caller, name, avatarId).Void();
    case Ok(Some(doc)) =>
      assert doc in db.profiles;
      ghost var target := AfterUpdate(db.profiles, db.nextId, caller, name, avatarId);
      assert target == Ok(Patched(db.profiles, doc.id, ProfilePatch(name, avatarId)));
      var patched := db.PatchProfile(doc.id, ProfilePatch(name, avatarId));
      assert patched.Ok?;
      r := Ok(());
    case Ok(None) =>
      ghost var target := AfterUpdate(db.profiles, db.nextId, caller, name, avatarId);
      assert target == Ok(db.profiles + [Doc(db.nextId, Profile(userId, name, avatarId))]);
      var _ := db.InsertProfile(Profile(userId, name, avatarId));
      r := Ok(());
  }

  /** `generateUploadUrl`: refuses a caller without an identity and
      otherwise hands back the upload URL file storage issued. */
  function GenerateUploadUrl(caller: Option<UserId>, issued: Url): (r: Result<Url>)
    ensures r.Err? <==> caller.None?
    ensures r.Err? ==> r.error == NotAuthenticated
    ensures r.Ok? ==> r.value == issued
  {
    if caller.None? then Err(NotAuthenticated) else Ok(issued)
  }

  /** A first `update` without an avatar creates a profile whose `get`
      shows the name and no avatar URL. */
  method FirstUpdateScenario(u: UserId, getUrl: StorageId -> Option<Url>)
    returns (view: Result<Option<ProfileView>>)
    ensures view == Ok(Some(ProfileView(0, u, "Ann", None, None)))
  {
    var db := new Database();
    var ok := Update(db, Some(u), "Ann", None);
    assert db.profiles == [Doc(0, Profile(u, "Ann", None))];
    assert Query(db.profiles, ByUser, u) == db.profiles;
    view := Get(db.profiles, u, getUrl);
  }

  /** An anonymous `update` is refused and creates nothing. */
  method AnonymousUpdateScenario(u: UserId, getUrl: StorageId -> Option<Url>)
    returns (outcome: Result<()>, view: Result<Option<ProfileView>>)
    ensures outcome == Err(NotAuthenticated) && view == Ok(None)
  {
    var db := new Database();
    outcome := Update(db, None, "Mallory", None);
    view := Get(db.profiles, u, getUrl);
  }

  /** The two `update` calls of `AvatarRetainedScenario`, on the tables
      they meet: the first inserts, the second patches the name only. */
  lemma RenameKeepsAvatar(u: UserId, a: StorageId)
    ensures AfterUpdate([], 0, Some(u), "Y", Some(a)) == Ok([Doc(0, Profile(u, "Y", Some(a)))])
    ensures AfterUpdate([Doc(0, Profile(u, "Y", Some(a)))], 1, Some(u), "X", None)
         == Ok([Doc(0, Profile(u, "X", Some(a)))])
  {
    var before := [Doc(0, Profile(u, "Y", Some(a)))];
    assert Query(before, ByUser, u) == before;
    assert Patched(before, 0, ProfilePatch("X", None)) == [Doc(0, Profile(u, "X", Some(a)))];
  }

  /** `get` over a table holding only the user's profile shows that profile. */
  lemma GetOnlyProfile(d: Doc<Profile>, getUrl: StorageId -> Option<Url>)
    ensures Get([d], d.fields.userId, getUrl)
         == Ok(Some(ProfileView(d.id, d.fields.userId, d.fields.name, d.fields.avatarId,
                                if d.fields.avatarId.Some? then getUrl(d.fields.avatarId.value) else None)))
  {
    assert Query([d], ByUser, d.fields.userId) == [d];
  }

  /** `update(name "Y", avatar a)` then `update(name "X")`: the name becomes
      "X" and the avatar `a` is kept. */
  method AvatarRetainedScenario(u: UserId, a: StorageId, getUrl: StorageId -> Option<Url>)
    returns (view: Result<Option<ProfileView>>)
    ensures view == Ok(Some(ProfileView(0, u, "X", Some(a), getUrl(a))))
  {
    var db := new Database();
    RenameKeepsAvatar(u, a);
    var ok1 := Update(db, Some(u), "Y", Some(a));
    assert db.profiles == [Doc(0, Profile(u, "Y", Some(a)))] && db.nextId == 1;
    var ok2 := Update(db, Some(u), "X", None);
    assert db.profiles == [Doc(0, Profile(u, "X", Some(a)))];
    GetOnlyProfile(Doc(0, Profile(u, "X", Some(a))), getUrl);
    view := Get(db.profiles, u, getUrl);
  }
}
