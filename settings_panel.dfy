/**
 * The owner's settings panel (client/src/components/settings-panel.tsx): the form it starts
 * from, the partial update it sends with PUT /api/profile/:discordId, the share address it
 * offers, and its open/copied flags.
 */
module SettingsPanel {
  import opened Wrappers
  import opened Schema
  import opened Storage
  import opened LinksJson
  import opened PageLinks

  /** The panel's formData. status and socialLinks are copied as stored, null included. */
  datatype SettingsForm = SettingsForm(
    username: string,
    status: Option<string>,
    location: string,
    mood: string,
    socialLinks: Option<string>,
    shareableUrl: string,
    audioUrl: string,
    discordId: string)

  /** The inputs of the panel. */
  datatype Input = DiscordIdInput | UsernameInput | StatusInput | LocationInput | MoodInput
                 | SocialLinksInput | ShareableUrlInput | AudioUrlInput

  /** The form a profile opens with: null or empty location, mood, slug and audio address read as "". */
  function InitialForm(p: Profile): (f: SettingsForm)
    ensures f.username == p.username && f.status == p.status && f.socialLinks == p.socialLinks && f.discordId == p.discordId
    ensures Truthy(p.location) ==> f.location == p.location.value
    ensures Truthy(p.shareableUrl) ==> f.shareableUrl == p.shareableUrl.value
    ensures !Truthy(p.location) ==> f.location == ""
    ensures !Truthy(p.shareableUrl) ==> f.shareableUrl == ""
    ensures Truthy(p.mood) ==> f.mood == p.mood.value
    ensures Truthy(p.audioUrl) ==> f.audioUrl == p.audioUrl.value
    ensures !Truthy(p.mood) ==> f.mood == ""
    ensures !Truthy(p.audioUrl) ==> f.audioUrl == ""
  {
    SettingsForm(p.username, p.status, OrElse(p.location, ""), OrElse(p.mood, ""),
                 p.socialLinks, OrElse(p.shareableUrl, ""), OrElse(p.audioUrl, ""), p.discordId)
  }

  /** The eight columns a save writes. */
  predicate Saved(c: Column) {
    c == Username || c == Status || c == Location || c == Mood || c == SocialLinks ||
    c == ShareableUrl || c == AudioUrl || c == DiscordId
  }

  /** The text handleSave parses: the links input, with empty text read as an empty object. */
  function LinksText(f: SettingsForm): string {
    OrElse(f.socialLinks, EmptyObject)
  }

  const EmptyObject := "{}"

  /** The update object for a form whose links text re-serialised to `links`. */
  function SavedFields(f: SettingsForm, links: string): ProfilePatch {
    ProfilePatch(
      Set(f.discordId), Set(f.username), Set(f.status), Keep, Set(Some(f.location)), Set(Some(f.mood)),
      Keep, Keep, Set(Some(links)), Keep, Keep, Set(Some(f.shareableUrl)), Keep, Set(Some(f.audioUrl)),
      Keep, Keep, Keep, Keep, Keep, Keep, Keep)
  }

  /**
   * handleSave's update object, or None when JSON.parse throws on the links text (then nothing
   * is sent). Empty link text is read as "{}"; every text input is sent as typed, "" included.
   */
  function SavePatch(f: SettingsForm): (r: Option<ProfilePatch>)
    ensures r.Some? <==> Reserialise(LinksText(f)).Some?
    ensures r.Some? ==> r.value == SavedFields(f, Reserialise(LinksText(f)).value)
  {
    match Reserialise(LinksText(f))
    case None => None
    case Some(links) => Some(SavedFields(f, links))
  }

  /** A save writes exactly the eight form columns, and no other. */
  lemma {:induction false} SaveColumns(f: SettingsForm, links: string, c: Column)
    ensures Given(SavedFields(f, links), c).Some? <==> Saved(c)
  {
    match c
    case Username =>
    case Status =>
    case Location =>
    case Mood =>
    case SocialLinks =>
    case ShareableUrl =>
    case AudioUrl =>
    case DiscordId =>
    case JoinDate =>
    case AvatarUrl =>
    case DiscordUsername =>
    case ViewCount =>
    case IsOwner =>
    case Theme =>
    case AudioTitle =>
    case BackgroundType =>
    case BackgroundUrl =>
    case SocialIconStyle =>
    case SocialIconColor =>
    case NameStyle =>
    case NameColor =>
  }

  /**
   * The form's values as the save writes them: the links as JSON.stringify writes the object the
   * text denotes (the same text when its keys are distinct and already in enumeration order),
   * the slug as typed (an empty slug is stored as "" rather than null), and the discordId from
   * the form.
   */
  lemma SaveValues(f: SettingsForm, l: Links)
    requires LinksText(f) == Stringify(l)
    ensures SavePatch(f).Some?
    ensures SavePatch(f).value.socialLinks == Set(Some(Stringify(FromEntries(l))))
    ensures DistinctKeys(l) && JsOrdered(l) ==> SavePatch(f).value.socialLinks == Set(Some(Stringify(l)))
    ensures SavePatch(f).value.shareableUrl == Set(Some(f.shareableUrl))
    ensures SavePatch(f).value.discordId == Set(f.discordId)
  {
    ParseStringified(l);
    if DistinctKeys(l) && JsOrdered(l) {
      FromEntriesShape(l, "");
    }
  }

  /** Links typed with a non-index key before an index key are saved with the index key first. */
  lemma SaveMovesIndexKeys(f: SettingsForm, x: string, y: string)
    requires LinksText(f) == Stringify([("b", x), ("1", y)])
    ensures SavePatch(f).Some?
    ensures SavePatch(f).value.socialLinks == Set(Some(Stringify([("1", y), ("b", x)])))
  {
    SaveValues(f, [("b", x), ("1", y)]);
    IndexKeyMovesFirst(x, y);
  }

  /**
   * The request goes to the profile's current discordId but carries the edited one: a save that
   * succeeds leaves the row readable under the form's discordId, with the form's slug.
   */
  lemma {:induction false} SaveRekeys(rows: seq<Profile>, p: Profile, f: SettingsForm, links: string, now: nat)
    requires UpdateRows(rows, p.discordId, SavedFields(f, links), now).Done?
    requires UpdateRows(rows, p.discordId, SavedFields(f, links), now).value.1.Some?
    ensures var q := UpdateRows(rows, p.discordId, SavedFields(f, links), now).value.1.value;
      q.discordId == f.discordId && q.shareableUrl == Some(f.shareableUrl) &&
      First(UpdateRows(rows, p.discordId, SavedFields(f, links), now).value.0, WithDiscordId(f.discordId)) == Some(q)
  {
    UpdateThenGet(rows, p.discordId, SavedFields(f, links), now);
  }

  // ---------------------------------------------------------------------------------------
  // The share address

  /** The panel's link as written: the slug when non-empty, else the discordId, under /share/. */
  function PanelShareLink(p: Profile): (l: PageLink)
    ensures l.SharePage?
    ensures Truthy(p.shareableUrl) ==> l.slug == p.shareableUrl.value
  {
    SharePage(OrElse(p.shareableUrl, p.discordId))
  }

  /**
   * Without a slug, the panel's link misses: /share/ looks the discordId up as a slug, so unless
   * some profile happens to use that text as its slug, the visitor gets the not-found state.
   */
  lemma {:induction false} PanelShareLinkMisses(rows: seq<Profile>, p: Profile)
    requires !Truthy(p.shareableUrl)
    requires forall k :: 0 <= k < |rows| ==> rows[k].shareableUrl != Some(p.discordId)
    ensures Resolve(rows, PanelShareLink(p)) == None
  {
    assert forall k :: 0 <= k < |rows| ==> !WithSlug(p.discordId)(rows[k]);
  }

  /** The link the fallback evidently means: the slug page when there is a slug, else the public page. */
  function ShareLink(p: Profile): (l: PageLink)
    ensures Truthy(p.shareableUrl) ==> l == SharePage(p.shareableUrl.value)
    ensures !Truthy(p.shareableUrl) ==> l == PublicPage(p.discordId)
  {
    if Truthy(p.shareableUrl) then SharePage(p.shareableUrl.value) else PublicPage(p.discordId)
  }

  /** Every stored profile's share link reaches a profile: this one, or one with its slug. */
  lemma {:induction false} ShareLinkResolves(rows: seq<Profile>, k: nat)
    requires k < |rows| && UniqueDiscordIds(rows)
    ensures Resolve(rows, ShareLink(rows[k])).Some?
    ensures !Truthy(rows[k].shareableUrl) ==> Resolve(rows, ShareLink(rows[k])) == Some(rows[k])
    ensures Truthy(rows[k].shareableUrl) ==> Resolve(rows, ShareLink(rows[k])).value.shareableUrl == rows[k].shareableUrl
  {
    if Truthy(rows[k].shareableUrl) {
      ShareLinkReaches(rows, k);
    } else {
      PublicLinkReaches(rows, k);
    }
  }

  /**
   * The address the copy button writes to the clipboard, as written: always under /share/, with
   * the slug when there is one and the discordId otherwise. PanelShareLinkMisses shows where the
   * second case leads; ShareLink is the evidently intended link.
   */
  function ShareUrl(origin: string, p: Profile): (u: string)
    ensures Truthy(p.shareableUrl) ==> u == origin + "/share/" + p.shareableUrl.value
    ensures !Truthy(p.shareableUrl) ==> u == origin + "/share/" + p.discordId
  {
    origin + Path(PanelShareLink(p))
  }

  class Panel {
    /** The profile the panel was opened for (a prop: the panel never changes it). */
    const profile: Profile
    var isOpen: bool
    var isShareOpen: bool
    var copied: bool
    var form: SettingsForm
    /** The update requests sent so far: target discordId and update object, oldest first. */
    var sent: seq<(string, ProfilePatch)>

    constructor(p: Profile)
      ensures profile == p && !isOpen && !isShareOpen && !copied && form == InitialForm(p) && sent == []
    {
      profile := p;
      isOpen := false;
      isShareOpen := false;
      copied := false;
      form := InitialForm(p);
      sent := [];
    }

    /** The buttons that open and close the settings and share panes. */
    method SetOpen(b: bool)
      modifies this
      ensures isOpen == b && isShareOpen == old(isShareOpen) && copied == old(copied)
      ensures form == old(form) && sent == old(sent)
    {
      isOpen := b;
    }

    method SetShareOpen(b: bool)
      modifies this
      ensures isShareOpen == b && isOpen == old(isOpen) && copied == old(copied)
      ensures form == old(form) && sent == old(sent)
    {
      isShareOpen := b;
    }

    /** The onChange handlers: status and links take the typed text as a (non-null) string. */
    method Edit(i: Input, text: string)
      modifies this
      ensures i == DiscordIdInput ==> form == old(form).(discordId := text)
      ensures i == UsernameInput ==> form == old(form).(username := text)
      ensures i == StatusInput ==> form == old(form).(status := Some(text))
      ensures i == LocationInput ==> form == old(form).(location := text)
      ensures i == MoodInput ==> form == old(form).(mood := text)
      ensures i == SocialLinksInput ==> form == old(form).(socialLinks := Some(text))
      ensures i == ShareableUrlInput ==> form == old(form).(shareableUrl := text)
      ensures i == AudioUrlInput ==> form == old(form).(audioUrl := text)
      ensures isOpen == old(isOpen) && isShareOpen == old(isShareOpen) && copied == old(copied) && sent == old(sent)
    {
      match i
      case DiscordIdInput => form := form.(discordId := text);
      case UsernameInput => form := form.(username := text);
      case StatusInput => form := form.(status := Some(text));
      case LocationInput => form := form.(location := text);
      case MoodInput => form := form.(mood := text);
      case SocialLinksInput => form := form.(socialLinks := Some(text));
      case ShareableUrlInput => form := form.(shareableUrl := text);
      case AudioUrlInput => form := form.(audioUrl := text);
    }

    /** handleSave: the update object goes to the profile's own discordId, unless parsing throws. */
    method HandleSave() returns (sentOne: bool)
      modifies this
      ensures sentOne <==> SavePatch(form).Some?
      ensures sentOne ==> sent == old(sent) + [(profile.discordId, SavePatch(form).value)]
      ensures !sentOne ==> sent == old(sent)
      ensures form == old(form) && isOpen == old(isOpen) && isShareOpen == old(isShareOpen) && copied == old(copied)
    {
      var patch := SavePatch(form);
      sentOne := patch.Some?;
      if sentOne {
        sent := sent + [(profile.discordId, patch.value)];
      }
    }

    /** The update mutation's onSuccess closes the settings pane. */
    method OnSaveSuccess()
      modifies this
      ensures !isOpen && isShareOpen == old(isShareOpen) && copied == old(copied)
      ensures form == old(form) && sent == old(sent)
    {
      isOpen := false;
    }

    /** handleCopyLink: the address to copy; `copied` is raised only when the clipboard accepts it. */
    method HandleCopyLink(origin: string, clipboardAccepts: bool) returns (text: string)
      modifies this
      ensures text == ShareUrl(origin, profile)
      ensures copied == (clipboardAccepts || old(copied))
      ensures isOpen == old(isOpen) && isShareOpen == old(isShareOpen) && form == old(form) && sent == old(sent)
    {
      text := ShareUrl(origin, profile);
      if clipboardAccepts {
        copied := true;
      }
    }

    /** The timer two seconds after a copy lowers the flag again. */
    method CopyTimerFires()
      modifies this
      ensures !copied && isOpen == old(isOpen) && isShareOpen == old(isShareOpen)
      ensures form == old(form) && sent == old(sent)
    {
      copied := false;
    }
  }
}
