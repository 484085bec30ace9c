/**
 * The signed-in user's own profile editor (client/src/components/public-profile.tsx): the
 * edit form derived from the loaded profile, the create-or-update choice on save, the create
 * body, and the share link it copies.
 */
module PublicProfile {
  import opened Wrappers
  import opened Schema
  import opened Storage
  import opened LinksJson
  import opened PageLinks
  import opened BrowserStorage

  /** The editor's editData: every value is a string, none is null. */
  datatype EditData = EditData(
    username: string,
    status: string,
    location: string,
    mood: string,
    socialLinks: string,
    theme: string,
    audioTitle: string,
    socialIconStyle: string,
    socialIconColor: string,
    backgroundType: string)

  const DefaultTheme := "theme-dark"
  const DefaultIconStyle := "default"
  const DefaultIconColor := "#8B5CF6"
  const DefaultBackground := "particles"
  const EmptyObject := "{}"

  /** The form before any profile has loaded. */
  const InitialEditData := EditData("", "", "", "", EmptyObject, DefaultTheme, "", DefaultIconStyle, DefaultIconColor, DefaultBackground)

  /** The form a loaded profile gives, as the effect and handleCancel both build it. */
  function Derive(p: Profile): (d: EditData)
    ensures d.socialLinks != "" && d.theme != "" && d.socialIconStyle != "" && d.socialIconColor != "" && d.backgroundType != ""
    ensures d.username == p.username
    ensures Truthy(p.status) ==> d.status == p.status.value
    ensures !Truthy(p.status) ==> d.status == ""
    ensures Truthy(p.socialLinks) ==> d.socialLinks == p.socialLinks.value
    ensures !Truthy(p.socialLinks) ==> d.socialLinks == EmptyObject
    ensures Truthy(p.theme) ==> d.theme == p.theme.value
    ensures !Truthy(p.theme) ==> d.theme == DefaultTheme
    ensures Truthy(p.location) ==> d.location == p.location.value
    ensures !Truthy(p.location) ==> d.location == ""
    ensures Truthy(p.mood) ==> d.mood == p.mood.value
    ensures !Truthy(p.mood) ==> d.mood == ""
    ensures Truthy(p.audioTitle) ==> d.audioTitle == p.audioTitle.value
    ensures !Truthy(p.audioTitle) ==> d.audioTitle == ""
    ensures Truthy(p.socialIconStyle) ==> d.socialIconStyle == p.socialIconStyle.value
    ensures !Truthy(p.socialIconStyle) ==> d.socialIconStyle == DefaultIconStyle
    ensures Truthy(p.socialIconColor) ==> d.socialIconColor == p.socialIconColor.value
    ensures !Truthy(p.socialIconColor) ==> d.socialIconColor == DefaultIconColor
    ensures Truthy(p.backgroundType) ==> d.backgroundType == p.backgroundType.value
    ensures !Truthy(p.backgroundType) ==> d.backgroundType == DefaultBackground
  {
    EditData(
      p.username,
      OrElse(p.status, ""),
      OrElse(p.location, ""),
      OrElse(p.mood, ""),
      OrElse(p.socialLinks, EmptyObject),
      OrElse(p.theme, DefaultTheme),
      OrElse(p.audioTitle, ""),
      OrElse(p.socialIconStyle, DefaultIconStyle),
      OrElse(p.socialIconColor, DefaultIconColor),
      OrElse(p.backgroundType, DefaultBackground))
  }

  /** A profile with every optional column null derives the untouched form, bar the username. */
  lemma DeriveOfBareProfile(p: Profile)
    requires p.status.None? && p.location.None? && p.mood.None? && p.socialLinks.None? && p.theme.None?
    requires p.audioTitle.None? && p.socialIconStyle.None? && p.socialIconColor.None? && p.backgroundType.None?
    ensures Derive(p) == InitialEditData.(username := p.username)
  {
  }

  /** The PUT body of an update: editData as it stands, which updateProfile writes verbatim. */
  function EditPatch(d: EditData): (patch: ProfilePatch)
    ensures patch.discordId.Keep? && patch.joinDate.Keep?
  {
    ProfilePatch(
      Keep, Set(d.username), Set(Some(d.status)), Keep, Set(Some(d.location)), Set(Some(d.mood)),
      Keep, Keep, Set(Some(d.socialLinks)), Keep, Keep, Keep, Set(Some(d.theme)), Keep,
      Set(Some(d.audioTitle)), Set(Some(d.backgroundType)), Keep, Set(Some(d.socialIconStyle)),
      Set(Some(d.socialIconColor)), Keep, Keep)
  }

  /**
   * Saving and reloading gives the form back exactly when none of the five fields with a
   * non-empty fallback was cleared: an emptied theme, say, is stored as "" and re-derived as
   * "theme-dark".
   */
  lemma SaveThenDerive(r: Profile, d: EditData, now: nat)
    ensures Derive(ApplyPatch(r, EditPatch(d), now)) == d <==>
      d.socialLinks != "" && d.theme != "" && d.socialIconStyle != "" && d.socialIconColor != "" && d.backgroundType != ""
  {
    var q := ApplyPatch(r, EditPatch(d), now);
    if Derive(q) == d {
      assert Derive(q).theme != "" && Derive(q).socialLinks != "";
    }
  }

  /** An update from this editor never touches discordId, so the unique constraint cannot reject it. */
  lemma SaveNeverConflicts(rows: seq<Profile>, user: string, d: EditData, now: nat)
    requires UniqueDiscordIds(rows)
    ensures UpdateRows(rows, user, EditPatch(d), now).Done?
  {
    UpdateWithoutKeyChange(rows, user, EditPatch(d), now);
  }

  /** `iso.split('T')[0]`: the text before the first 'T'. */
  function DatePart(iso: string): (r: string)
    ensures |r| <= |iso| && r == iso[..|r|]
    ensures 'T' !in r
    ensures |r| < |iso| ==> iso[|r|] == 'T'
  {
    if iso == [] || iso[0] == 'T' then "" else [iso[0]] + DatePart(iso[1..])
  }

  /** For an ISO timestamp such as 2025-01-31T12:00:00.000Z, the date part is its first ten characters. */
  lemma DatePartOfTimestamp(iso: string)
    requires |iso| > 10 && iso[10] == 'T' && 'T' !in iso[..10]
    ensures DatePart(iso) == iso[..10]
  {
    var r := DatePart(iso);
    assert !(|r| < 10) by {
      assert forall k :: 0 <= k < 10 ==> iso[k] == iso[..10][k];
    }
    assert !(|r| > 10) by {
      assert forall k :: 0 <= k < |r| ==> r[k] == iso[k];
    }
  }

  /** The POST /api/profile/create body: `{ discordId: currentUser, ...editData, joinDate }`. */
  datatype CreateBody = CreateBody(discordId: string, data: EditData, joinDate: string)

  /** The body as an insert payload: the three required columns are present. */
  function CreatePatch(b: CreateBody): (patch: ProfilePatch)
    ensures IsInsertable(patch)
    ensures patch.discordId == Set(b.discordId) && patch.joinDate == Set(b.joinDate)
    ensures patch == EditPatch(b.data).(discordId := Set(b.discordId), joinDate := Set(b.joinDate))
  {
    EditPatch(b.data).(discordId := Set(b.discordId), joinDate := Set(b.joinDate))
  }

  /** What the editor sends. */
  datatype Request = Create(body: CreateBody) | Update(target: string, data: EditData)

  /** The parsed links the page renders: a null or empty column reads as an empty object. */
  function ShownLinks(p: Profile): Option<Links> {
    Parse(OrElse(p.socialLinks, EmptyObject))
  }

  lemma {:induction false} NoLinksShowsNothing(p: Profile)
    requires !Truthy(p.socialLinks)
    ensures ShownLinks(p) == Some([])
  {
    assert Stringify([]) == EmptyObject;
    ParseStringify([]);
  }

  /** copyShareLink's clipboard text: only a profile with a non-empty slug has one. */
  function ShareText(origin: string, profile: Option<Profile>): (t: Option<string>)
    ensures t.Some? <==> profile.Some? && Truthy(profile.value.shareableUrl)
    ensures t.Some? ==> t.value == origin + Path(SharePage(profile.value.shareableUrl.value))
  {
    if profile.Some? && Truthy(profile.value.shareableUrl)
    then Some(origin + Path(SharePage(profile.value.shareableUrl.value)))
    else None
  }

  class Editor {
    var currentUser: Option<string>
    var isEditing: bool
    var editData: EditData
    /** The profile query's data: None until it loads, and when the user has no profile. */
    var profile: Option<Profile>
    /** The requests sent so far, oldest first. */
    var sent: seq<Request>

    constructor()
      ensures currentUser == None && !isEditing && editData == InitialEditData && profile == None && sent == []
    {
      currentUser := None;
      isEditing := false;
      editData := InitialEditData;
      profile := None;
      sent := [];
    }

    /** The mount effect: the signed-in user is read from localStorage. */
    method ReadCurrentUser(storage: LocalStorage)
      modifies this
      ensures currentUser == storage.GetItem("currentUser")
      ensures isEditing == old(isEditing) && editData == old(editData) && profile == old(profile) && sent == old(sent)
    {
      currentUser := storage.GetItem("currentUser");
    }

    /** The sync effect on [profile, isEditing]: outside edit mode the form follows the profile. */
    method Sync()
      modifies this
      ensures profile.Some? && !isEditing ==> editData == Derive(profile.value)
      ensures profile.None? || isEditing ==> editData == old(editData)
      ensures currentUser == old(currentUser) && isEditing == old(isEditing) && profile == old(profile) && sent == old(sent)
    {
      if profile.Some? && !isEditing {
        editData := Derive(profile.value);
      }
    }

    /** The query answers (after a fetch or a refetch); the effect then runs. */
    method ProfileLoaded(p: Option<Profile>)
      modifies this
      ensures profile == p
      ensures p.Some? && !isEditing ==> editData == Derive(p.value)
      ensures p.None? || isEditing ==> editData == old(editData)
      ensures currentUser == old(currentUser) && isEditing == old(isEditing) && sent == old(sent)
    {
      profile := p;
      Sync();
    }

    /** handleEdit: edit mode on; the form keeps what it holds. */
    method HandleEdit()
      modifies this
      ensures isEditing && editData == old(editData)
      ensures currentUser == old(currentUser) && profile == old(profile) && sent == old(sent)
    {
      isEditing := true;
    }

    /** The text inputs (username, status, location and mood). */
    method EditUsername(text: string)
      modifies this
      ensures editData == old(editData).(username := text)
      ensures currentUser == old(currentUser) && isEditing == old(isEditing) && profile == old(profile) && sent == old(sent)
    {
      editData := editData.(username := text);
    }

    method EditStatus(text: string)
      modifies this
      ensures editData == old(editData).(status := text)
      ensures currentUser == old(currentUser) && isEditing == old(isEditing) && profile == old(profile) && sent == old(sent)
    {
      editData := editData.(status := text);
    }

    method EditLocation(text: string)
      modifies this
      ensures editData == old(editData).(location := text)
      ensures currentUser == old(currentUser) && isEditing == old(isEditing) && profile == old(profile) && sent == old(sent)
    {
      editData := editData.(location := text);
    }

    method EditMood(text: string)
      modifies this
      ensures editData == old(editData).(mood := text)
      ensures currentUser == old(currentUser) && isEditing == old(isEditing) && profile == old(profile) && sent == old(sent)
    {
      editData := editData.(mood := text);
    }

    /**
     * handleSave, reachable only once a user is signed in: with no profile loaded the form is
     * sent as a create, dated with the date part of the current ISO time; otherwise as an update
     * of the signed-in user's profile.
     */
    method HandleSave(isoNow: string)
      requires currentUser.Some?
      modifies this
      ensures currentUser == old(currentUser) && isEditing == old(isEditing) && editData == old(editData) && profile == old(profile)
      ensures profile.None? ==> sent == old(sent) + [Create(CreateBody(currentUser.value, editData, DatePart(isoNow)))]
      ensures profile.Some? ==> sent == old(sent) + [Update(currentUser.value, editData)]
    {
      if profile.None? {
        sent := sent + [Create(CreateBody(currentUser.value, editData, DatePart(isoNow)))];
      } else {
        sent := sent + [Update(currentUser.value, editData)];
      }
    }

    /** Either mutation's onSuccess leaves edit mode; the effect then re-derives the form. */
    method OnSaveSuccess()
      modifies this
      ensures !isEditing
      ensures profile.Some? ==> editData == Derive(profile.value)
      ensures profile.None? ==> editData == old(editData)
      ensures currentUser == old(currentUser) && profile == old(profile) && sent == old(sent)
    {
      isEditing := false;
      Sync();
    }

    /** handleCancel: edit mode off and, with a profile, every edit discarded. */
    method HandleCancel()
      modifies this
      ensures !isEditing
      ensures profile.Some? ==> editData == Derive(profile.value)
      ensures profile.None? ==> editData == old(editData)
      ensures currentUser == old(currentUser) && profile == old(profile) && sent == old(sent)
    {
      isEditing := false;
      if profile.Some? {
        editData := Derive(profile.value);
      }
    }

    /** copyShareLink: the text written to the clipboard, if any. */
    method CopyShareLink(origin: string) returns (t: Option<string>)
      ensures t == ShareText(origin, profile)
    {
      t := ShareText(origin, profile);
    }
  }
}
