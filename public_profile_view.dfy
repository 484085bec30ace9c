/**
 * The visitor's page for one profile (client/src/pages/public-profile-view.tsx): the name's
 * style class and colours, the page theme and background, and the link its copy button writes.
 */
module PublicProfileView {
  import opened Wrappers
  import opened Schema
  import opened Storage
  import opened PageLinks
  import CustomBackground
  import Routes

  /** The five name styles with a class of their own. */
  predicate IsNameStyle(s: string) {
    s == "gradient" || s == "shadow" || s == "glow" || s == "neon" || s == "rainbow"
  }

  /** getNameStyleClass. */
  function NameStyleClass(style: string): (c: string)
    ensures IsNameStyle(style) ==> c == "name-" + style
    ensures !IsNameStyle(style) ==> c == "gradient-text"
  {
    match style
    case "gradient" => "name-gradient"
    case "shadow" => "name-shadow"
    case "glow" => "name-glow"
    case "neon" => "name-neon"
    case "rainbow" => "name-rainbow"
    case _ => "gradient-text"
  }

  const DefaultNameColor := "#FFFFFF"

  /** How the username heading is styled: its class, its inline colour (None: undefined) and --name-color. */
  datatype NameLook = NameLook(className: string, color: Option<string>, nameColorVar: string)

  /**
   * The heading's look: a missing style is passed to getNameStyleClass as 'default'; the inline
   * colour is set only for the stored style 'default'; --name-color is always the colour or white.
   */
  function HeadingLook(nameStyle: Option<string>, nameColor: Option<string>): (k: NameLook)
    ensures k.color.Some? <==> nameStyle == Some("default")
    ensures k.color.Some? ==> k.color.value == k.nameColorVar
    ensures Truthy(nameColor) ==> k.nameColorVar == nameColor.value
    ensures !Truthy(nameColor) ==> k.nameColorVar == DefaultNameColor
  {
    var colorVar := OrElse(nameColor, DefaultNameColor);
    NameLook(NameStyleClass(OrElse(nameStyle, "default")),
             if nameStyle == Some("default") then Some(colorVar) else None,
             colorVar)
  }

  /**
   * A profile with no style and one with the style 'default' share the class "gradient-text",
   * but only the second gets the inline colour.
   */
  lemma MissingStyleIsNotDefault(nameColor: Option<string>)
    ensures HeadingLook(None, nameColor).className == "gradient-text"
    ensures HeadingLook(Some("default"), nameColor).className == "gradient-text"
    ensures HeadingLook(None, nameColor).color.None? && HeadingLook(Some("default"), nameColor).color.Some?
  {
  }

  /** The page's theme class: the profile's own, else the theme hook's. */
  function PageTheme(p: Profile, hookTheme: string): (t: string)
    ensures Truthy(p.theme) ==> t == p.theme.value
    ensures !Truthy(p.theme) ==> t == hookTheme
  {
    OrElse(p.theme, hookTheme)
  }

  /** The background the page shows: the profile's type, with an empty one read as "particles". */
  function PageBackground(p: Profile): (b: CustomBackground.Background)
    ensures Truthy(p.backgroundType) ==> b == CustomBackground.Choose(p.backgroundType.value, p.backgroundUrl)
    ensures !Truthy(p.backgroundType) ==> b == CustomBackground.Choose("particles", p.backgroundUrl)
  {
    CustomBackground.Shown(OrElse(p.backgroundType, "particles"), p.backgroundUrl).0
  }

  /**
   * A profile whose background came from the upload route (type "image" or "video", address
   * under /uploads/) is shown with particles, not with the uploaded file.
   */
  lemma UploadedPageShowsParticles(p: Profile, mimetype: string, filename: string)
    requires p.backgroundType == Some(Routes.BackgroundKind(mimetype))
    requires p.backgroundUrl == Some(Routes.UploadUrl(filename))
    ensures PageBackground(p) == CustomBackground.Particles
  {
    CustomBackground.UploadedBackgroundHidden(mimetype, filename);
  }

  /** A profile without a background type gets particles. */
  lemma NoTypeGivesParticles(p: Profile)
    requires !Truthy(p.backgroundType)
    ensures PageBackground(p) == CustomBackground.Particles
  {
    assert !CustomBackground.IsNamed("particles");
  }

  /** handleCopyLink's clipboard text: the public page of the profile shown, or nothing before it loads. */
  function CopyText(origin: string, profile: Option<Profile>): (t: Option<string>)
    ensures t.Some? <==> profile.Some?
    ensures t.Some? ==> t.value == origin + Path(PublicPage(profile.value.discordId))
  {
    if profile.None? then None else Some(origin + Path(PublicPage(profile.value.discordId)))
  }

  /** The copied link leads back to the same profile. */
  lemma {:induction false} CopiedLinkReturns(rows: seq<Profile>, userId: string)
    requires UniqueDiscordIds(rows)
    requires Resolve(rows, PublicPage(userId)).Some?
    ensures var p := Resolve(rows, PublicPage(userId)).value;
      Resolve(rows, PublicPage(p.discordId)) == Some(p)
  {
    var p := Resolve(rows, PublicPage(userId)).value;
    assert p.discordId == userId;
  }

  class View {
    /** The :userId of the route. */
    const userId: string
    /** The query's data: the profile stored under userId, once loaded. */
    var profile: Option<Profile>
    var isShareOpen: bool
    var copied: bool

    constructor(u: string)
      ensures userId == u && profile == None && !isShareOpen && !copied
    {
      userId := u;
      profile := None;
      isShareOpen := false;
      copied := false;
    }

    /** The query for /api/profile/:userId answers with the table's row for that discordId. */
    method Load(rows: seq<Profile>)
      modifies this
      ensures profile == Resolve(rows, PublicPage(userId))
      ensures isShareOpen == old(isShareOpen) && copied == old(copied)
    {
      profile := Resolve(rows, PublicPage(userId));
    }

    method SetShareOpen(b: bool)
      modifies this
      ensures isShareOpen == b && profile == old(profile) && copied == old(copied)
    {
      isShareOpen := b;
    }

    /** handleCopyLink: does nothing without a profile; `copied` rises only if the clipboard accepts. */
    method HandleCopyLink(origin: string, clipboardAccepts: bool) returns (t: Option<string>)
      modifies this
      ensures t == CopyText(origin, profile)
      ensures copied == (old(copied) || (profile.Some? && clipboardAccepts))
      ensures profile == old(profile) && isShareOpen == old(isShareOpen)
    {
      t := CopyText(origin, profile);
      if profile.Some? && clipboardAccepts {
        copied := true;
      }
    }

    /** The timer two seconds after a copy. */
    method CopyTimerFires()
      modifies this
      ensures !copied && profile == old(profile) && isShareOpen == old(isShareOpen)
    {
      copied := false;
    }
  }
}
