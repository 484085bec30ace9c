/**
 * The decision logic of the HTTP handlers in server/routes.ts, over the two stores. A reply is
 * its status code and, on success, its JSON payload; error messages are not modelled. A handler
 * whose storage call rejects answers 500 from its catch block.
 */
module Routes {
  import opened Wrappers
  import opened Strings
  import Utf8
  import Base64
  import opened Schema
  import opened Storage
  import opened Accounts
  import DiscordApi

  datatype Reply<T> = Reply(status: nat, body: Option<T>)

  /** A lookup answered with the row, or 404. */
  function Found<T>(row: Option<T>): (r: Reply<T>)
    ensures r.status == 200 <==> row.Some?
    ensures r.status == 404 <==> row.None?
    ensures r.body == row
  {
    if row.Some? then Reply(200, row) else Reply(404, None)
  }

  /** An updateProfile result answered: the catch block's 500, a missing profile's 404, or the row. */
  function UpdateReply(o: Outcome<Option<Profile>>): (r: Reply<Profile>)
    ensures r.status == 500 <==> o.Failed?
    ensures r.status == 404 <==> o == Done(None)
    ensures r.status == 200 <==> o.Done? && o.value.Some?
    ensures r.status == 200 ==> r.body == o.value
  {
    match o
    case Failed => Reply(500, None)
    case Done(None) => Reply(404, None)
    case Done(Some(p)) => Reply(200, Some(p))
  }

  // ---------------------------------------------------------------------------------------
  // Upload filters

  /** The multer size limits, in bytes; multer enforces them before a handler runs. */
  const AvatarSizeLimit: nat := 5 * 1024 * 1024
  const BackgroundSizeLimit: nat := 50 * 1024 * 1024

  const ImageTypes: seq<string> := ["image/jpeg", "image/png", "image/gif", "image/webp"]
  const VideoTypes: seq<string> := ["video/mp4", "video/webm", "video/ogg", "video/avi", "video/mov"]

  /** The avatar upload's fileFilter. */
  predicate AvatarAccepts(mimetype: string) {
    mimetype in ImageTypes
  }

  /** The background upload's fileFilter. */
  predicate BackgroundAccepts(mimetype: string) {
    mimetype in ImageTypes + VideoTypes
  }

  /** The background filter admits exactly the avatar's image types and the five video types. */
  lemma FiltersNested(m: string)
    ensures AvatarAccepts(m) <==> m == "image/jpeg" || m == "image/png" || m == "image/gif" || m == "image/webp"
    ensures BackgroundAccepts(m) <==> AvatarAccepts(m) || m in VideoTypes
  {
  }

  /** `mimetype.startsWith('video/') ? 'video' : 'image'`. */
  function BackgroundKind(mimetype: string): (k: string)
    ensures k == "video" || k == "image"
    ensures k == "video" <==> StartsWith(mimetype, "video/")
  {
    if StartsWith(mimetype, "video/") then "video" else "image"
  }

  /** Among accepted backgrounds, exactly the five video types are stored as "video". */
  lemma AcceptedBackgroundKind(m: string)
    requires BackgroundAccepts(m)
    ensures BackgroundKind(m) == "video" <==> m in VideoTypes
  {
    assert m in ImageTypes || m in VideoTypes;
    if m in ImageTypes {
      assert m == ImageTypes[0] || m == ImageTypes[1] || m == ImageTypes[2] || m == ImageTypes[3];
      assert m[0] == 'i';
      assert m !in VideoTypes;
    } else {
      assert m == VideoTypes[0] || m == VideoTypes[1] || m == VideoTypes[2] || m == VideoTypes[3] || m == VideoTypes[4];
      assert m[..6] == "video/";
    }
  }

  /** Where an uploaded file is served from. */
  function UploadUrl(filename: string): (u: string)
    ensures StartsWith(u, "/uploads/") && u[9..] == filename
  {
    var u := "/uploads/" + filename;
    PrefixOfAppend("/uploads/", filename);
    assert u[9..] == filename;
    u
  }

  // ---------------------------------------------------------------------------------------
  // Accounts

  /** `Buffer.from(password + userId + "salt").toString('base64')`. */
  function PasswordHash(password: string, userId: string): (h: string)
    ensures Base64.Decode(h).Some? && Utf8.Decode(Base64.Decode(h).value) == Some(password + userId + "salt")
  {
    var bytes := Utf8.Encode(password + userId + "salt");
    Base64.DecodeEncode(bytes);
    Utf8.DecodeEncode(password + userId + "salt");
    Base64.Encode(bytes)
  }

  /** For one userId, two passwords hash alike only if they are the same password. */
  lemma {:induction false} HashInjective(p: string, q: string, userId: string)
    requires PasswordHash(p, userId) == PasswordHash(q, userId)
    ensures p == q
  {
    Base64.EncodeInjective(Utf8.Encode(p + userId + "salt"), Utf8.Encode(q + userId + "salt"));
    Utf8.EncodeInjective(p + userId + "salt", q + userId + "salt");
    var s, t := p + userId + "salt", q + userId + "salt";
    assert |p| == |q|;
    assert s[..|p|] == p && t[..|q|] == q;
  }

  /** The fields of a registration body that passed insertUserAccountSchema. */
  datatype Registration = Registration(userId: string, password: string, name: string, email: string)

  /** The account createUserAccount is given: the hashed password and empty bio, website, avatar. */
  function NewAccount(d: Registration): (a: UserAccount)
    ensures a.userId == d.userId && a.name == d.name && a.email == d.email
    ensures a.password == PasswordHash(d.password, d.userId)
    ensures a.bio == "" && a.website == "" && a.avatar == ""
  {
    UserAccount(d.userId, PasswordHash(d.password, d.userId), d.name, d.email, "", "", "", None)
  }

  /**
   * POST /api/auth/register on the table: `body` is None when schema validation fails. The
   * checks run in order: validation (400), a taken userId (409), a taken email (409); only then
   * is the account appended and returned without its password (201).
   */
  function RegisterOutcome(rows: seq<UserAccount>, body: Option<Registration>): (r: (Reply<AccountView>, seq<UserAccount>))
    ensures r.0.status == 201 || r.0.status == 400 || r.0.status == 409
    ensures r.0.status == 400 <==> body.None?
    ensures r.0.status == 201 ==>
      r.0.body == Some(PublicView(NewAccount(body.value))) && r.1 == rows + [NewAccount(body.value)]
    ensures r.0.status != 201 ==> r.0.body == None && r.1 == rows
  {
    if body.None? then (Reply(400, None), rows)
    else if First(rows, WithAccountId(body.value.userId)).Some? then (Reply(409, None), rows)
    else if First(rows, WithEmail(body.value.email)).Some? then (Reply(409, None), rows)
    else (Reply(201, Some(PublicView(NewAccount(body.value)))), rows + [NewAccount(body.value)])
  }

  /** Registration creates an account exactly when the body is valid and both keys are free. */
  lemma RegisterCreates(rows: seq<UserAccount>, body: Option<Registration>)
    ensures RegisterOutcome(rows, body).0.status == 201 <==>
      body.Some? && forall k :: 0 <= k < |rows| ==> rows[k].userId != body.value.userId && rows[k].email != body.value.email
    ensures RegisterOutcome(rows, body).0.status != 201 ==> RegisterOutcome(rows, body).1 == rows
  {
    if body.Some? && First(rows, WithAccountId(body.value.userId)).None? && First(rows, WithEmail(body.value.email)).None? {
      forall k | 0 <= k < |rows| ensures rows[k].userId != body.value.userId && rows[k].email != body.value.email {
        assert !WithAccountId(body.value.userId)(rows[k]) && !WithEmail(body.value.email)(rows[k]);
      }
    }
  }

  /**
   * POST /api/auth/login on the table: 400 when userId or password is missing or empty, 401
   * for an unknown userId and for a wrong password alike; otherwise lastLogin is stamped and
   * the account as read before that stamp is returned without its password.
   */
  function LoginOutcome(rows: seq<UserAccount>, userId: Option<string>, password: Option<string>, now: nat): (r: (Reply<AccountView>, seq<UserAccount>))
    ensures r.0.status == 200 || r.0.status == 400 || r.0.status == 401
    ensures r.0.status == 400 <==> !Truthy(userId) || !Truthy(password)
    ensures r.0.status != 200 ==> r.0.body == None && r.1 == rows
    ensures r.0.status == 200 ==> First(rows, WithAccountId(userId.value)).Some?
    ensures r.0.status == 200 ==>
      var a := First(rows, WithAccountId(userId.value)).value;
      r.0.body == Some(PublicView(a)) && |r.1| == |rows| &&
      First(r.1, WithAccountId(userId.value)) == Some(a.(lastLogin := Some(now)))
  {
    if !Truthy(userId) || !Truthy(password) then (Reply(400, None), rows)
    else
      match First(rows, WithAccountId(userId.value))
      case None => (Reply(401, None), rows)
      case Some(a) =>
        if a.password != PasswordHash(password.value, userId.value) then (Reply(401, None), rows)
        else
          var stamp := AccountPatch(Keep, Keep, Keep, Keep, Set(Some(now)));
          UpdateAccountsThenGet(rows, userId.value, stamp);
          (Reply(200, Some(PublicView(a))), UpdateAccounts(rows, userId.value, stamp).0)
  }

  /** Login refuses with 401 exactly when the user is unknown or the hash does not match. */
  lemma LoginRefusals(rows: seq<UserAccount>, userId: Option<string>, password: Option<string>, now: nat)
    requires Truthy(userId) && Truthy(password)
    ensures LoginOutcome(rows, userId, password, now).0.status == 401 <==>
      First(rows, WithAccountId(userId.value)).None? ||
      First(rows, WithAccountId(userId.value)).value.password != PasswordHash(password.value, userId.value)
    ensures LoginOutcome(rows, userId, password, now).0.status != 401 ==> LoginOutcome(rows, userId, password, now).0.status == 200
  {
  }

  /**
   * Right after a successful registration, logging in with the registered userId succeeds
   * exactly when the password is the registered one and neither is empty.
   */
  lemma {:induction false} RegisterThenLogin(rows: seq<UserAccount>, d: Registration, password: string, now: nat)
    requires RegisterOutcome(rows, Some(d)).0.status == 201
    ensures LoginOutcome(RegisterOutcome(rows, Some(d)).1, Some(d.userId), Some(password), now).0.status == 200 <==>
      password == d.password && password != "" && d.userId != ""
  {
    var a := NewAccount(d);
    FirstOfAppend(rows, a, WithAccountId(d.userId));
    if password != d.password && PasswordHash(password, d.userId) == a.password {
      HashInjective(password, d.password, d.userId);
    }
  }

  /** The `{ name, bio, website, avatar }` of PUT /api/auth/user; an absent field stays undefined. */
  function ProfileFieldsPatch(name: Option<string>, bio: Option<string>, website: Option<string>, avatar: Option<string>): AccountPatch {
    AccountPatch(
      if name.Some? then Set(name.value) else Keep,
      if bio.Some? then Set(bio.value) else Keep,
      if website.Some? then Set(website.value) else Keep,
      if avatar.Some? then Set(avatar.value) else Keep,
      Keep)
  }

  // ---------------------------------------------------------------------------------------
  // Discord sync

  /** The fields the sync route reads from Discord's user object. */
  datatype DiscordUser = DiscordUser(id: string, username: string, discriminator: string, avatar: Option<string>, globalName: Option<string>)

  /**
   * The sync route's `updates`: the global name when it is truthy, else the username;
   * "username#discriminator"; and the uploaded avatar at size 512 (the same value as
   * getDiscordAvatarUrl's default size, which the route writes out), or the default avatar
   * picked by `parseInt(discriminator) % 5`.
   */
  function SyncPatch(u: DiscordUser): (p: ProfilePatch)
    ensures Truthy(u.globalName) ==> p.username == Set(u.globalName.value)
    ensures !Truthy(u.globalName) ==> p.username == Set(u.username)
    ensures p.discordUsername == Set(Some(u.username + "#" + u.discriminator))
    ensures Truthy(u.avatar) ==> p.avatarUrl == Set(Some(DiscordApi.HashedAvatarUrl(u.id, u.avatar.value, DiscordApi.DefaultSize)))
    ensures !Truthy(u.avatar) ==> p.avatarUrl == Set(Some(DiscordApi.EmbedAvatarUrl(u.discriminator)))
  {
    EmptyPatch.(
      username := Set(OrElse(u.globalName, u.username)),
      discordUsername := Set(Some(u.username + "#" + u.discriminator)),
      avatarUrl := Set(Some(
        if Truthy(u.avatar) then DiscordApi.HashedAvatarUrl(u.id, u.avatar.value, DiscordApi.DefaultSize)
        else DiscordApi.EmbedAvatarUrl(u.discriminator))))
  }

  /** Sync writes exactly username, discordUsername and avatarUrl. */
  lemma {:induction false} SyncColumns(u: DiscordUser, c: Column)
    ensures Given(SyncPatch(u), c).Some? <==> c == Username || c == DiscordUsername || c == AvatarUrl
  {
    match c
    case Username =>
    case DiscordUsername =>
    case AvatarUrl =>
    case _ =>
  }

  /** With no avatar hash and a decimal discriminator, the default avatar is one of "0" to "4". */
  lemma SyncDefaultAvatar(u: DiscordUser)
    requires !Truthy(u.avatar) && u.discriminator != [] && AllDecimalDigits(u.discriminator)
    ensures SyncPatch(u).avatarUrl ==
      Set(Some(DiscordApi.CdnEmbedAvatars + [DigitChar(DecimalValue(u.discriminator) % 5)] + ".png"))
  {
    DiscordApi.EmbedIndexInRange(u.discriminator);
  }

  // ---------------------------------------------------------------------------------------
  // Handlers over the profile store

  /** The profile the demo route shows. */
  const DefaultDiscordId := "123456789012345678"

  /** GET /api/profile/:discordId. */
  method GetProfileRoute(store: DatabaseStorage, discordId: string) returns (r: Reply<Profile>)
    ensures r == Found(First(store.profiles, WithDiscordId(discordId)))
  {
    var p := store.GetProfile(discordId);
    r := Found(p);
  }

  /** GET /api/profile: the profile stored under the fixed demo discordId. */
  method GetDefaultProfileRoute(store: DatabaseStorage) returns (r: Reply<Profile>)
    ensures r == Found(First(store.profiles, WithDiscordId(DefaultDiscordId)))
  {
    var p := store.GetProfile(DefaultDiscordId);
    r := Found(p);
  }

  /**
   * POST /api/profile/:discordId/view: 404 and no counter touched for an unknown discordId;
   * otherwise the profile's view statistics, then the site total, are incremented and the
   * view statistics are returned.
   */
  method RecordViewRoute(store: DatabaseStorage, discordId: string, now: nat) returns (r: Reply<ViewStats>)
    requires store.Valid()
    modifies store
    ensures store.Valid()
    ensures store.profiles == old(store.profiles) && store.users == old(store.users)
    ensures First(old(store.profiles), WithDiscordId(discordId)).None? ==>
      r == Reply(404, None) && store.viewStats == old(store.viewStats) && store.siteStats == old(store.siteStats)
    ensures First(old(store.profiles), WithDiscordId(discordId)).Some? ==>
      var pid := First(old(store.profiles), WithDiscordId(discordId)).value.id;
      var (views, _, stats) := IncrementViews(old(store.viewStats), old(store.nextViewStatsId), pid, now);
      r == Reply(200, Some(stats)) && store.viewStats == views &&
      store.siteStats == Some(IncrementSite(old(store.siteStats), old(store.nextSiteStatsId), now))
  {
    var profile := store.GetProfile(discordId);
    if profile.None? {
      return Reply(404, None);
    }
    var stats := store.IncrementViewCount(profile.value.id, now);
    var _ := store.IncrementSiteViews(now);
    r := Reply(200, Some(stats));
  }

  /** GET /api/site/stats: the row, or no payload before the first view. */
  method SiteStatsRoute(store: DatabaseStorage) returns (r: Reply<SiteStats>)
    ensures r == Reply(200, store.siteStats)
  {
    var s := store.GetSiteStats();
    r := Reply(200, s);
  }

  /** PUT /api/profile/:discordId: the body is handed to updateProfile as it is. */
  method PutProfileRoute(store: DatabaseStorage, discordId: string, body: ProfilePatch, now: nat) returns (r: Reply<Profile>)
    requires store.Valid()
    modifies store
    ensures store.Valid()
    ensures r == UpdateReply(if UpdateRows(old(store.profiles), discordId, body, now).Failed? then Failed
                             else Done(UpdateRows(old(store.profiles), discordId, body, now).value.1))
    ensures store.profiles == (if UpdateRows(old(store.profiles), discordId, body, now).Failed? then old(store.profiles)
                               else UpdateRows(old(store.profiles), discordId, body, now).value.0)
    ensures store.viewStats == old(store.viewStats) && store.siteStats == old(store.siteStats) && store.users == old(store.users)
  {
    var o := store.UpdateProfile(discordId, body, now);
    r := UpdateReply(o);
  }

  /** GET /api/profile/share/:shareableUrl: looked up by slug only. */
  method ShareRoute(store: DatabaseStorage, slug: string) returns (r: Reply<Profile>)
    ensures r == Found(First(store.profiles, WithSlug(slug)))
  {
    var p := store.GetProfileByShareableUrl(slug);
    r := Found(p);
  }

  /** The file multer hands the handler. */
  datatype UploadedFile = UploadedFile(filename: string, mimetype: string)

  /** The success payload of an upload: the stored address, the background kind, and the row. */
  datatype Uploaded = Uploaded(url: string, kind: Option<string>, profile: Profile)

  /** The avatar upload's update: the served address as avatarUrl, nothing else. */
  function AvatarPatch(url: string): (p: ProfilePatch)
    ensures p.avatarUrl == Set(Some(url))
    ensures forall c :: Given(p, c).Some? <==> c == AvatarUrl
  {
    EmptyPatch.(avatarUrl := Set(Some(url)))
  }

  /** The background upload's update: the served address and its kind, nothing else. */
  function BackgroundPatch(url: string, kind: string): (p: ProfilePatch)
    ensures p.backgroundUrl == Set(Some(url)) && p.backgroundType == Set(Some(kind))
    ensures forall c :: Given(p, c).Some? <==> c == BackgroundUrl || c == BackgroundType
  {
    EmptyPatch.(backgroundUrl := Set(Some(url)), backgroundType := Set(Some(kind)))
  }

  /** An upload's answer once updateProfile has run. */
  function UploadReply(url: string, kind: Option<string>, o: Outcome<Option<Profile>>): (r: Reply<Uploaded>)
    ensures r.status == 500 <==> o.Failed?
    ensures r.status == 404 <==> o == Done(None)
    ensures r.status == 200 <==> o.Done? && o.value.Some?
    ensures r.status == 200 ==> r.body == Some(Uploaded(url, kind, o.value.value))
  {
    match o
    case Failed => Reply(500, None)
    case Done(None) => Reply(404, None)
    case Done(Some(p)) => Reply(200, Some(Uploaded(url, kind, p)))
  }

  /**
   * POST /api/profile/:discordId/upload-avatar. A file the filter refuses never reaches the
   * handler: multer passes its error to Express's default handler (500). No file gives 400;
   * otherwise avatarUrl is set to the served address, which never violates a constraint.
   */
  method UploadAvatarRoute(store: DatabaseStorage, discordId: string, file: Option<UploadedFile>, now: nat) returns (r: Reply<Uploaded>)
    requires store.Valid()
    modifies store
    ensures store.Valid()
    ensures store.viewStats == old(store.viewStats) && store.siteStats == old(store.siteStats) && store.users == old(store.users)
    ensures file.Some? && !AvatarAccepts(file.value.mimetype) ==> r == Reply(500, None) && store.profiles == old(store.profiles)
    ensures file.None? ==> r == Reply(400, None) && store.profiles == old(store.profiles)
    ensures file.Some? && AvatarAccepts(file.value.mimetype) ==>
      var url := UploadUrl(file.value.filename);
      UpdateRows(old(store.profiles), discordId, AvatarPatch(url), now).Done? &&
      store.profiles == UpdateRows(old(store.profiles), discordId, AvatarPatch(url), now).value.0 &&
      r == UploadReply(url, None, Done(UpdateRows(old(store.profiles), discordId, AvatarPatch(url), now).value.1))
  {
    if file.Some? && !AvatarAccepts(file.value.mimetype) {
      return Reply(500, None);
    }
    if file.None? {
      return Reply(400, None);
    }
    var url := UploadUrl(file.value.filename);
    UpdateWithoutKeyChange(store.profiles, discordId, AvatarPatch(url), now);
    var o := store.UpdateProfile(discordId, AvatarPatch(url), now);
    r := UploadReply(url, None, o);
  }

  /**
   * POST /api/profile/:discordId/upload-background: as the avatar upload, with the wider
   * filter; backgroundUrl is the served address and backgroundType "video" or "image".
   */
  method UploadBackgroundRoute(store: DatabaseStorage, discordId: string, file: Option<UploadedFile>, now: nat) returns (r: Reply<Uploaded>)
    requires store.Valid()
    modifies store
    ensures store.Valid()
    ensures store.viewStats == old(store.viewStats) && store.siteStats == old(store.siteStats) && store.users == old(store.users)
    ensures file.Some? && !BackgroundAccepts(file.value.mimetype) ==> r == Reply(500, None) && store.profiles == old(store.profiles)
    ensures file.None? ==> r == Reply(400, None) && store.profiles == old(store.profiles)
    ensures file.Some? && BackgroundAccepts(file.value.mimetype) ==>
      var url, kind := UploadUrl(file.value.filename), BackgroundKind(file.value.mimetype);
      UpdateRows(old(store.profiles), discordId, BackgroundPatch(url, kind), now).Done? &&
      store.profiles == UpdateRows(old(store.profiles), discordId, BackgroundPatch(url, kind), now).value.0 &&
      r == UploadReply(url, Some(kind), Done(UpdateRows(old(store.profiles), discordId, BackgroundPatch(url, kind), now).value.1))
  {
    if file.Some? && !BackgroundAccepts(file.value.mimetype) {
      return Reply(500, None);
    }
    if file.None? {
      return Reply(400, None);
    }
    var url, kind := UploadUrl(file.value.filename), BackgroundKind(file.value.mimetype);
    UpdateWithoutKeyChange(store.profiles, discordId, BackgroundPatch(url, kind), now);
    var o := store.UpdateProfile(discordId, BackgroundPatch(url, kind), now);
    r := UploadReply(url, Some(kind), o);
  }

  /** POST /api/profile/:discordId/sync, once Discord's user object has been fetched. */
  method SyncRoute(store: DatabaseStorage, discordId: string, user: DiscordUser, now: nat) returns (r: Reply<Profile>)
    requires store.Valid()
    modifies store
    ensures store.Valid()
    ensures UpdateRows(old(store.profiles), discordId, SyncPatch(user), now).Done?
    ensures store.profiles == UpdateRows(old(store.profiles), discordId, SyncPatch(user), now).value.0
    ensures r == Found(UpdateRows(old(store.profiles), discordId, SyncPatch(user), now).value.1)
    ensures store.viewStats == old(store.viewStats) && store.siteStats == old(store.siteStats) && store.users == old(store.users)
  {
    UpdateWithoutKeyChange(store.profiles, discordId, SyncPatch(user), now);
    var o := store.UpdateProfile(discordId, SyncPatch(user), now);
    r := UpdateReply(o);
  }

  // ---------------------------------------------------------------------------------------
  // Handlers over the account store

  /** POST /api/auth/register. */
  method RegisterRoute(accounts: AccountStore, body: Option<Registration>) returns (r: Reply<AccountView>)
    modifies accounts
    ensures (r, accounts.accounts) == RegisterOutcome(old(accounts.accounts), body)
  {
    if body.None? {
      return Reply(400, None);
    }
    var d := body.value;
    var existingUser := accounts.GetUserAccount(d.userId);
    if existingUser.Some? {
      return Reply(409, None);
    }
    var existingEmail := accounts.GetUserAccountByEmail(d.email);
    if existingEmail.Some? {
      return Reply(409, None);
    }
    var created := accounts.CreateUserAccount(NewAccount(d));
    r := Reply(201, Some(PublicView(created)));
  }

  /** POST /api/auth/login. */
  method LoginRoute(accounts: AccountStore, userId: Option<string>, password: Option<string>, now: nat) returns (r: Reply<AccountView>)
    modifies accounts
    ensures (r, accounts.accounts) == LoginOutcome(old(accounts.accounts), userId, password, now)
  {
    if !Truthy(userId) || !Truthy(password) {
      return Reply(400, None);
    }
    var user := accounts.GetUserAccount(userId.value);
    if user.None? {
      return Reply(401, None);
    }
    if user.value.password != PasswordHash(password.value, userId.value) {
      return Reply(401, None);
    }
    var _ := accounts.UpdateUserAccount(userId.value, AccountPatch(Keep, Keep, Keep, Keep, Set(Some(now))));
    r := Reply(200, Some(PublicView(user.value)));
  }

  /** GET /api/auth/user/:userId. */
  method GetUserRoute(accounts: AccountStore, userId: string) returns (r: Reply<AccountView>)
    ensures First(accounts.accounts, WithAccountId(userId)).None? ==> r == Reply(404, None)
    ensures First(accounts.accounts, WithAccountId(userId)).Some? ==>
      r == Reply(200, Some(PublicView(First(accounts.accounts, WithAccountId(userId)).value)))
  {
    var user := accounts.GetUserAccount(userId);
    if user.None? {
      return Reply(404, None);
    }
    r := Reply(200, Some(PublicView(user.value)));
  }

  /** PUT /api/auth/user/:userId: writes the given name, bio, website and avatar. */
  method PutUserRoute(accounts: AccountStore, userId: string, name: Option<string>, bio: Option<string>,
                      website: Option<string>, avatar: Option<string>) returns (r: Reply<AccountView>)
    modifies accounts
    ensures var (rows, updated) := UpdateAccounts(old(accounts.accounts), userId, ProfileFieldsPatch(name, bio, website, avatar));
      accounts.accounts == rows &&
      r == (if updated.None? then Reply(404, None) else Reply(200, Some(PublicView(updated.value))))
  {
    var updated := accounts.UpdateUserAccount(userId, ProfileFieldsPatch(name, bio, website, avatar));
    if updated.None? {
      return Reply(404, None);
    }
    r := Reply(200, Some(PublicView(updated.value)));
  }
}
