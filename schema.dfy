/**
 * The rows of the site's tables and the payloads written into them: the `profiles` table with
 * its column defaults, the partial update objects that `updateProfile` receives, the
 * `view_stats` and site statistics rows, and the Replit-auth `users` row.
 *
 * Timestamps are whole numbers supplied by the caller (the store never reads a clock).
 */
module Schema {
  import opened Wrappers

  /**
   * One row of `profiles`. The first block of columns is declared in shared/schema.ts; the
   * audio, background, social-icon and name-style columns are the ones the routes and the
   * client read and write, which the profile row carries as nullable text.
   */
  datatype Profile = Profile(
    id: nat,
    discordId: string,
    username: string,
    status: Option<string>,
    joinDate: string,
    location: Option<string>,
    mood: Option<string>,
    avatarUrl: Option<string>,
    discordUsername: Option<string>,
    socialLinks: Option<string>,
    viewCount: Option<int>,
    isOwner: Option<bool>,
    shareableUrl: Option<string>,
    theme: Option<string>,
    audioUrl: Option<string>,
    audioTitle: Option<string>,
    backgroundType: Option<string>,
    backgroundUrl: Option<string>,
    socialIconStyle: Option<string>,
    socialIconColor: Option<string>,
    nameStyle: Option<string>,
    nameColor: Option<string>,
    createdAt: nat,
    updatedAt: nat)

  /**
   * Partial<InsertProfile>: every column a client may write, each either absent (Keep) or
   * present (Set). There is no field for id, createdAt or updatedAt: the typed update
   * interface omits them. An untyped request body can still carry them; that case is not
   * modelled. An InsertProfile is a patch whose three required columns are present
   * (IsInsertable).
   */
  datatype ProfilePatch = ProfilePatch(
    discordId: Update<string>,
    username: Update<string>,
    status: Update<Option<string>>,
    joinDate: Update<string>,
    location: Update<Option<string>>,
    mood: Update<Option<string>>,
    avatarUrl: Update<Option<string>>,
    discordUsername: Update<Option<string>>,
    socialLinks: Update<Option<string>>,
    viewCount: Update<Option<int>>,
    isOwner: Update<Option<bool>>,
    shareableUrl: Update<Option<string>>,
    theme: Update<Option<string>>,
    audioUrl: Update<Option<string>>,
    audioTitle: Update<Option<string>>,
    backgroundType: Update<Option<string>>,
    backgroundUrl: Update<Option<string>>,
    socialIconStyle: Update<Option<string>>,
    socialIconColor: Update<Option<string>>,
    nameStyle: Update<Option<string>>,
    nameColor: Update<Option<string>>)

  /** The empty object `{}`. */
  const EmptyPatch := ProfilePatch(Keep, Keep, Keep, Keep, Keep, Keep, Keep, Keep, Keep, Keep, Keep,
                                   Keep, Keep, Keep, Keep, Keep, Keep, Keep, Keep, Keep, Keep)

  /** discordId, username and joinDate are NOT NULL without a default: an insert must give them. */
  predicate IsInsertable(p: ProfilePatch) {
    p.discordId.Set? && p.username.Set? && p.joinDate.Set?
  }

  // ---------------------------------------------------------------------------------------
  // The same row seen column by column: the reference for what inserts and updates write.

  datatype Column =
    | DiscordId | Username | Status | JoinDate | Location | Mood | AvatarUrl | DiscordUsername
    | SocialLinks | ViewCount | IsOwner | ShareableUrl | Theme | AudioUrl | AudioTitle
    | BackgroundType | BackgroundUrl | SocialIconStyle | SocialIconColor | NameStyle | NameColor

  datatype Value =
    | Text(text: string)
    | MaybeText(maybeText: Option<string>)
    | MaybeInt(maybeInt: Option<int>)
    | MaybeBool(maybeBool: Option<bool>)

  /** The value a row holds in a writable column. */
  function Get(r: Profile, c: Column): Value {
    match c
    case DiscordId => Text(r.discordId)
    case Username => Text(r.username)
    case Status => MaybeText(r.status)
    case JoinDate => Text(r.joinDate)
    case Location => MaybeText(r.location)
    case Mood => MaybeText(r.mood)
    case AvatarUrl => MaybeText(r.avatarUrl)
    case DiscordUsername => MaybeText(r.discordUsername)
    case SocialLinks => MaybeText(r.socialLinks)
    case ViewCount => MaybeInt(r.viewCount)
    case IsOwner => MaybeBool(r.isOwner)
    case ShareableUrl => MaybeText(r.shareableUrl)
    case Theme => MaybeText(r.theme)
    case AudioUrl => MaybeText(r.audioUrl)
    case AudioTitle => MaybeText(r.audioTitle)
    case BackgroundType => MaybeText(r.backgroundType)
    case BackgroundUrl => MaybeText(r.backgroundUrl)
    case SocialIconStyle => MaybeText(r.socialIconStyle)
    case SocialIconColor => MaybeText(r.socialIconColor)
    case NameStyle => MaybeText(r.nameStyle)
    case NameColor => MaybeText(r.nameColor)
  }

  function TextField(u: Update<string>): Option<Value> {
    if u.Set? then Some(Text(u.value)) else None
  }

  function MaybeTextField(u: Update<Option<string>>): Option<Value> {
    if u.Set? then Some(MaybeText(u.value)) else None
  }

  /** The value a payload gives a column, or None when the column is absent from it. */
  function Given(p: ProfilePatch, c: Column): Option<Value> {
    match c
    case DiscordId => TextField(p.discordId)
    case Username => TextField(p.username)
    case Status => MaybeTextField(p.status)
    case JoinDate => TextField(p.joinDate)
    case Location => MaybeTextField(p.location)
    case Mood => MaybeTextField(p.mood)
    case AvatarUrl => MaybeTextField(p.avatarUrl)
    case DiscordUsername => MaybeTextField(p.discordUsername)
    case SocialLinks => MaybeTextField(p.socialLinks)
    case ViewCount => if p.viewCount.Set? then Some(MaybeInt(p.viewCount.value)) else None
    case IsOwner => if p.isOwner.Set? then Some(MaybeBool(p.isOwner.value)) else None
    case ShareableUrl => MaybeTextField(p.shareableUrl)
    case Theme => MaybeTextField(p.theme)
    case AudioUrl => MaybeTextField(p.audioUrl)
    case AudioTitle => MaybeTextField(p.audioTitle)
    case BackgroundType => MaybeTextField(p.backgroundType)
    case BackgroundUrl => MaybeTextField(p.backgroundUrl)
    case SocialIconStyle => MaybeTextField(p.socialIconStyle)
    case SocialIconColor => MaybeTextField(p.socialIconColor)
    case NameStyle => MaybeTextField(p.nameStyle)
    case NameColor => MaybeTextField(p.nameColor)
  }

  /**
   * The column declarations: the value an insert stores in a column it leaves out. The three
   * required columns have no default (IsInsertable rules that case out); every other column
   * without a declared default is nullable and stores null.
   */
  function ColumnDefault(c: Column): Value {
    match c
    case DiscordId => Text("")
    case Username => Text("")
    case JoinDate => Text("")
    case Status => MaybeText(Some("last seen unknown"))
    case Location => MaybeText(Some("Somewhere"))
    case Mood => MaybeText(Some("Vibing"))
    case ViewCount => MaybeInt(Some(0))
    case IsOwner => MaybeBool(Some(false))
    case Theme => MaybeText(Some("theme-dark"))
    case _ => MaybeText(None)
  }

  /** The value of `v` overridden by `given` when the payload has the column. */
  function Overlay(given: Option<Value>, v: Value): Value {
    if given.Some? then given.value else v
  }

  // ---------------------------------------------------------------------------------------
  // Insert and update

  /**
   * The row `insert(profiles).values(p)` creates with serial id `id` at time `now`: the
   * payload's columns, the declared default for every column it leaves out, and the id and
   * both timestamps from the database.
   */
  function FromInsert(id: nat, p: ProfilePatch, now: nat): (r: Profile)
    requires IsInsertable(p)
    ensures r.id == id && r.createdAt == now && r.updatedAt == now
  {
    Profile(
      id, p.discordId.value, p.username.value,
      p.status.Apply(Some("last seen unknown")),
      p.joinDate.value,
      p.location.Apply(Some("Somewhere")),
      p.mood.Apply(Some("Vibing")),
      p.avatarUrl.Apply(None),
      p.discordUsername.Apply(None),
      p.socialLinks.Apply(None),
      p.viewCount.Apply(Some(0)),
      p.isOwner.Apply(Some(false)),
      p.shareableUrl.Apply(None),
      p.theme.Apply(Some("theme-dark")),
      p.audioUrl.Apply(None),
      p.audioTitle.Apply(None),
      p.backgroundType.Apply(None),
      p.backgroundUrl.Apply(None),
      p.socialIconStyle.Apply(None),
      p.socialIconColor.Apply(None),
      p.nameStyle.Apply(None),
      p.nameColor.Apply(None),
      now, now)
  }

  /**
   * `update(profiles).set({ ...p, updatedAt: now })` on one row: the payload's columns are
   * written verbatim, updatedAt is stamped, and nothing else changes.
   */
  function ApplyPatch(r: Profile, p: ProfilePatch, now: nat): (r': Profile)
    ensures r'.id == r.id && r'.createdAt == r.createdAt && r'.updatedAt == now
  {
    r.(discordId := p.discordId.Apply(r.discordId),
       username := p.username.Apply(r.username),
       status := p.status.Apply(r.status),
       joinDate := p.joinDate.Apply(r.joinDate),
       location := p.location.Apply(r.location),
       mood := p.mood.Apply(r.mood),
       avatarUrl := p.avatarUrl.Apply(r.avatarUrl),
       discordUsername := p.discordUsername.Apply(r.discordUsername),
       socialLinks := p.socialLinks.Apply(r.socialLinks),
       viewCount := p.viewCount.Apply(r.viewCount),
       isOwner := p.isOwner.Apply(r.isOwner),
       shareableUrl := p.shareableUrl.Apply(r.shareableUrl),
       theme := p.theme.Apply(r.theme),
       audioUrl := p.audioUrl.Apply(r.audioUrl),
       audioTitle := p.audioTitle.Apply(r.audioTitle),
       backgroundType := p.backgroundType.Apply(r.backgroundType),
       backgroundUrl := p.backgroundUrl.Apply(r.backgroundUrl),
       socialIconStyle := p.socialIconStyle.Apply(r.socialIconStyle),
       socialIconColor := p.socialIconColor.Apply(r.socialIconColor),
       nameStyle := p.nameStyle.Apply(r.nameStyle),
       nameColor := p.nameColor.Apply(r.nameColor),
       updatedAt := now)
  }

  /** Each column of an inserted row holds the payload's value, or the column's default. */
  lemma {:induction false} InsertColumn(id: nat, p: ProfilePatch, now: nat, c: Column)
    requires IsInsertable(p)
    ensures Get(FromInsert(id, p, now), c) == Overlay(Given(p, c), ColumnDefault(c))
  {
    match c
    case DiscordId =>
    case Username =>
    case Status =>
    case JoinDate =>
    case Location =>
    case Mood =>
    case AvatarUrl =>
    case DiscordUsername =>
    case SocialLinks =>
    case ViewCount =>
    case IsOwner =>
    case ShareableUrl =>
    case Theme =>
    case AudioUrl =>
    case AudioTitle =>
    case BackgroundType =>
    case BackgroundUrl =>
    case SocialIconStyle =>
    case SocialIconColor =>
    case NameStyle =>
    case NameColor =>
  }

  /** An update writes exactly the payload's columns; every other column keeps its value. */
  lemma {:induction false} UpdateColumn(r: Profile, p: ProfilePatch, now: nat, c: Column)
    ensures Get(ApplyPatch(r, p, now), c) == Overlay(Given(p, c), Get(r, c))
  {
    match c
    case DiscordId =>
    case Username =>
    case Status =>
    case JoinDate =>
    case Location =>
    case Mood =>
    case AvatarUrl =>
    case DiscordUsername =>
    case SocialLinks =>
    case ViewCount =>
    case IsOwner =>
    case ShareableUrl =>
    case Theme =>
    case AudioUrl =>
    case AudioTitle =>
    case BackgroundType =>
    case BackgroundUrl =>
    case SocialIconStyle =>
    case SocialIconColor =>
    case NameStyle =>
    case NameColor =>
  }

  /** The patch `{ ...p, ...q }`: q's columns win, p's fill in the rest. */
  function Merge(p: ProfilePatch, q: ProfilePatch): ProfilePatch {
    ProfilePatch(
      if q.discordId.Set? then q.discordId else p.discordId,
      if q.username.Set? then q.username else p.username,
      if q.status.Set? then q.status else p.status,
      if q.joinDate.Set? then q.joinDate else p.joinDate,
      if q.location.Set? then q.location else p.location,
      if q.mood.Set? then q.mood else p.mood,
      if q.avatarUrl.Set? then q.avatarUrl else p.avatarUrl,
      if q.discordUsername.Set? then q.discordUsername else p.discordUsername,
      if q.socialLinks.Set? then q.socialLinks else p.socialLinks,
      if q.viewCount.Set? then q.viewCount else p.viewCount,
      if q.isOwner.Set? then q.isOwner else p.isOwner,
      if q.shareableUrl.Set? then q.shareableUrl else p.shareableUrl,
      if q.theme.Set? then q.theme else p.theme,
      if q.audioUrl.Set? then q.audioUrl else p.audioUrl,
      if q.audioTitle.Set? then q.audioTitle else p.audioTitle,
      if q.backgroundType.Set? then q.backgroundType else p.backgroundType,
      if q.backgroundUrl.Set? then q.backgroundUrl else p.backgroundUrl,
      if q.socialIconStyle.Set? then q.socialIconStyle else p.socialIconStyle,
      if q.socialIconColor.Set? then q.socialIconColor else p.socialIconColor,
      if q.nameStyle.Set? then q.nameStyle else p.nameStyle,
      if q.nameColor.Set? then q.nameColor else p.nameColor)
  }

  /** A merged patch gives each column q's value when q has it, and p's otherwise. */
  lemma {:induction false} MergeColumn(p: ProfilePatch, q: ProfilePatch, c: Column)
    ensures Given(Merge(p, q), c) == (if Given(q, c).Some? then Given(q, c) else Given(p, c))
  {
    match c
    case DiscordId =>
    case Username =>
    case Status =>
    case JoinDate =>
    case Location =>
    case Mood =>
    case AvatarUrl =>
    case DiscordUsername =>
    case SocialLinks =>
    case ViewCount =>
    case IsOwner =>
    case ShareableUrl =>
    case Theme =>
    case AudioUrl =>
    case AudioTitle =>
    case BackgroundType =>
    case BackgroundUrl =>
    case SocialIconStyle =>
    case SocialIconColor =>
    case NameStyle =>
    case NameColor =>
  }

  /** Two updates in a row have the effect of one update with the merged patch. */
  lemma UpdatesCompose(r: Profile, p: ProfilePatch, q: ProfilePatch, t1: nat, t2: nat)
    ensures ApplyPatch(ApplyPatch(r, p, t1), q, t2) == ApplyPatch(r, Merge(p, q), t2)
  {

  }

  /** Repeating an update (at the same time stamp) changes nothing more. */
  lemma UpdateIdempotent(r: Profile, p: ProfilePatch, now: nat)
    ensures ApplyPatch(ApplyPatch(r, p, now), p, now) == ApplyPatch(r, p, now)
  {

  }

  /** The empty patch only stamps updatedAt. */
  lemma EmptyPatchStampsOnly(r: Profile, now: nat)
    ensures ApplyPatch(r, EmptyPatch, now) == r.(updatedAt := now)
  {

  }

  // ---------------------------------------------------------------------------------------
  // view_stats, site statistics and users

  /** One row of `view_stats`: the views of the profile whose id is profileId. */
  datatype ViewStats = ViewStats(id: nat, profileId: int, viewCount: Option<int>, lastViewed: nat)

  /** InsertViewStats: profileId is required, viewCount optional, id and lastViewed omitted. */
  datatype InsertViewStats = InsertViewStats(profileId: int, viewCount: Update<Option<int>>)

  /** The row an insert into `view_stats` creates: viewCount defaults to 0. */
  function ViewStatsFromInsert(id: nat, ins: InsertViewStats, now: nat): (r: ViewStats)
    ensures r.id == id && r.profileId == ins.profileId && r.lastViewed == now
    ensures ins.viewCount.Keep? ==> r.viewCount == Some(0)
    ensures ins.viewCount.Set? ==> r.viewCount == ins.viewCount.value
  {
    ViewStats(id, ins.profileId, ins.viewCount.Apply(Some(0)), now)
  }

  /** The single row of site-wide statistics. */
  datatype SiteStats = SiteStats(id: nat, totalViews: Option<int>, uniqueVisitors: Option<int>, lastUpdated: nat)

  /** One row of the Replit-auth `users` table, keyed by its text id. */
  datatype User = User(id: string, username: string, password: string, updatedAt: nat)

  /** The payload of upsertUser. */
  datatype UpsertUser = UpsertUser(id: string, username: string, password: string)

  // ---------------------------------------------------------------------------------------
  // Constraints

  /** The unique constraint on profiles.discord_id. */
  predicate UniqueDiscordIds(rows: seq<Profile>) {
    forall i, j :: 0 <= i < j < |rows| ==> rows[i].discordId != rows[j].discordId
  }

  /** Serial ids are distinct. */
  predicate UniqueProfileIds(rows: seq<Profile>) {
    forall i, j :: 0 <= i < j < |rows| ==> rows[i].id != rows[j].id
  }
}
