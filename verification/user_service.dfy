/** The user service: users are found by their Clerk id, their profile is replaced
    as a whole, and a new user is stored and then given the default templates. */
module UserService {
  import opened Wrappers
  import opened Values
  import opened DocStore
  import BaseRepository
  import OutreachService

  /** The query that finds a user by the id Clerk gave them. */
  function ClerkQuery(clerkUserId: string): Document {
    map["clerk_user_id" := Str(clerkUserId)]
  }

  /** `get_user_by_clerk_id(clerk_user_id)`: the first stored user with that Clerk
      id, or None when there is none. */
  method GetUserByClerkId(users: FakeCollection, clerkUserId: string) returns (r: Option<Document>)
    ensures r.None? <==> forall d :: d in users.documents ==> Lookup(d, "clerk_user_id") != Str(clerkUserId)
    ensures r.Some? ==>
      exists i :: 0 <= i < |users.documents| && r.value == users.documents[i] &&
        Lookup(r.value, "clerk_user_id") == Str(clerkUserId) &&
        forall j :: 0 <= j < i ==> Lookup(users.documents[j], "clerk_user_id") != Str(clerkUserId)
  {
    ghost var s := users.documents;
    var q := ClerkQuery(clerkUserId);
    r := BaseRepository.FindOne(users, q, [], map[]);
    SingleKeyQuery("clerk_user_id", Str(clerkUserId));
    FindOneUnsorted(s, q);
    ghost var i := FirstMatch(s, q);
    if r.Some? {
      assert 0 <= i && r.value == s[i] && Matches(s[i], q);
      assert forall j :: 0 <= j < i ==> !Matches(s[j], q);
    }
  }

  /** `update_profile(user_id, profile_data)`: the user's profile field is set to
      `profile`. */
  method UpdateProfile(users: FakeCollection, userId: string, profile: Document)
    modifies users
    ensures users.documents == UpdateFirst(old(users.documents), BaseRepository.ById(Str(userId)), map["profile" := Doc(profile)])
  {
    BaseRepository.Update(users, Str(userId), map["profile" := Doc(profile)]);
  }

  /** Updating the profile replaces that field of the first user with that id,
      keeps every other field of theirs, and changes no other user. */
  lemma UpdateProfileOnlyProfile(s: seq<Document>, userId: string, profile: Document)
    ensures var r := UpdateFirst(s, BaseRepository.ById(Str(userId)), map["profile" := Doc(profile)]);
      var i := FirstMatch(s, BaseRepository.ById(Str(userId)));
      |r| == |s| && (i < 0 ==> r == s) &&
      (i >= 0 ==>
        r[i]["profile"] == Doc(profile) &&
        r[i].Keys == s[i].Keys + {"profile"} &&
        (forall k :: k in s[i] && k != "profile" ==> r[i][k] == s[i][k]) &&
        forall j :: 0 <= j < |s| && j != i ==> r[j] == s[j])
  {
    UpdateFirstOnlyFirst(s, BaseRepository.ById(Str(userId)), map["profile" := Doc(profile)]);
  }

  /** `create_user(user_data)`: the user is stored (with `freshId` as its id when
      it has none), then the default templates are created for that id, which is
      returned. */
  method CreateUser(users: FakeCollection, templates: FakeCollection, userData: Document, freshId: string,
                    templateIds: nat -> string, now: int) returns (userId: Value)
    requires users != templates
    modifies users, templates
    ensures userId == BaseRepository.WithId(userData, freshId)["_id"]
    ensures users.documents == old(users.documents) + [BaseRepository.WithId(userData, freshId)]
    ensures templates.documents == old(templates.documents) +
      OutreachService.Records(userId, OutreachService.Defaults, |OutreachService.Defaults|, templateIds, now)
  {
    var stored;
    userId, stored := BaseRepository.Create(users, userData, freshId);
    OutreachService.CreateDefaultTemplates(templates, userId, templateIds, now);
  }

  /** A new user without an id of their own gets the fresh id, and their three
      default templates belong to them. */
  lemma NewUserOwnsDefaults(userData: Document, freshId: string, templateIds: nat -> string, now: int)
    requires "_id" !in userData
    ensures var id := BaseRepository.WithId(userData, freshId)["_id"];
      id == Str(freshId) &&
      forall t :: t in OutreachService.Records(id, OutreachService.Defaults, |OutreachService.Defaults|, templateIds, now) ==>
        Lookup(t, "user_id") == Str(freshId)
  {
    var id := BaseRepository.WithId(userData, freshId)["_id"];
    OutreachService.DefaultTemplatesInOrder(id, templateIds, now);
  }
}
