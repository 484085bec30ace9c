# Selfy.lol profile site, modelled in Dafny

Selfy.lol is a "link in bio" site. A profile shows a Discord user's name, status, avatar,
social links, music and a page background. This project models the logic behind it:

- **The profile store** (`DatabaseStorage`). It holds the `profiles`, `view_stats`, site
  statistics and `users` tables. Each table is a sequence of rows in table order, and a
  `select … where` returns its first matching row. The model covers:
  - keyed lookups;
  - verbatim partial updates that stamp `updatedAt`;
  - the two insert-or-increment counters;
  - the unique constraint on `discord_id`.
- **The server handlers.** Their decision logic is modelled over the store and an abstract
  account table:
  - status codes, in the order the checks run;
  - the base64-of-UTF-8 password hash;
  - the upload allow-lists and the stored background kind;
  - the Discord sync update, taking an already fetched Discord user.
- **The sign-up validators.** These are `validateRegistrationData` in the static sign-up page
  and the two-step password guards of the React sign-up page and the change-password dialog.
- **The client's pure mappings and small state machines:**
  - social icon filtering, ordering and styling;
  - background dispatch;
  - the name style;
  - the audio source badge;
  - avatar addresses;
  - the four-theme cycle;
  - the play/mute state;
  - the settings and public-profile editors, with the patches they send and the links they copy.

Modules follow the source files: `Schema`, `Storage`, `Routes`, `RegisterValidation`,
`ChangePasswordDialog`, `RegisterPage`, `SettingsPanel`, `PublicProfile`, `SocialIcons`,
`CustomBackground`, `PublicProfileView`, `UseTheme`, `AudioPlayer`, `NowPlaying` and
`DiscordApi`. Supporting modules hold JavaScript semantics the code relies on:

- `Wrappers`: null and truthiness, `||`, and partial-update fields;
- `Strings`: `trim`, `includes`, `startsWith`, number text and `parseInt`;
- `Utf8` and `Base64`: the password hash;
- `LinksJson`: `JSON.parse` and `JSON.stringify` for the flat socialLinks object;
- `BrowserStorage`: `localStorage`;
- `PageLinks`: the `/public/` and `/share/` client routes and the lookups behind them;
- `Accounts`: the account table.

Stateful code becomes classes:

- `DatabaseStorage`, `AccountStore` and `LocalStorage`;
- `Dialog`, `Page`, `Panel`, `Editor` and `View`, which hold the React state;
- `ThemeHook` and `Player`.

Each method is tied to a pure function of the old state. The lemmas about those functions carry
the properties.

Each profile row also carries seven nullable columns that the declarations in
`shared/schema.ts` lack: audioTitle, backgroundType, backgroundUrl, socialIconStyle,
socialIconColor, nameStyle and nameColor. The routes and the client read and write them.
`storage.ts` imports a site statistics table and an upsert payload that `schema.ts` does not
declare either; the model gives both the shape the code uses. Timestamps, the current ISO time,
clipboard success and the result of `audio.play()` are parameters of the operations that use
them.

## Model

| member | source | states |
|---|---|---|
| Schema.FromInsert | shared/schema.ts:11-29 | an inserted row takes its serial id from the database and both timestamps equal the insert time; callers must give discordId, username and joinDate |
| Schema.InsertColumn | shared/schema.ts:13-26 | each column of an inserted row holds the payload's value, or else the declared default: status "last seen unknown", location "Somewhere", mood "Vibing", viewCount 0, isOwner false, theme "theme-dark", null otherwise |
| Schema.ApplyPatch | server/storage.ts:60-67 | an update keeps id and createdAt and sets updatedAt to the update time |
| Schema.UpdateColumn | server/storage.ts:63 | an update writes exactly the patch's columns verbatim; every other column keeps its value |
| Schema.MergeColumn | server/storage.ts:63 | the spread `{...p, ...q}` gives each column q's value when q has it, else p's |
| Schema.UpdatesCompose | server/storage.ts:60-67 | two updates in a row equal one update with the merged patch |
| Schema.UpdateIdempotent | server/storage.ts:60-67 | repeating an update at the same time changes nothing more |
| Schema.EmptyPatchStampsOnly | server/storage.ts:63 | an empty update object changes only updatedAt |
| Schema.ViewStatsFromInsert | shared/schema.ts:31-36 | a view-stats insert keeps profileId, defaults viewCount to 0 and stamps lastViewed |
| Storage.FirstIndex | server/storage.ts:46 | the position found satisfies the condition and no earlier row does; None means no row does |
| Storage.First | server/storage.ts:46 | `const [row] = await select…where` finds a row iff some row matches, and the row found matches |
| Storage.FirstAt | server/storage.ts:46 | the row found is the one at the first matching position |
| Storage.FirstUnaffected | server/storage.ts:78-85 | rewriting only non-matching rows into non-matching rows leaves the first match unchanged |
| Storage.FirstOfAppend | server/storage.ts:88-94 | appending a row keeps an existing first match; without one, the new row is found iff it matches |
| Storage.UpsertRows | server/storage.ts:30-43 | the upsert fails iff another id holds the username; otherwise the written row holds the payload and the time, the table gains at most one row, and every row of another id stays in its place |
| Storage.UpsertThenGet | server/storage.ts:30-43 | after a successful upsert the id reads back the row just written, and id and username stay unique |
| Storage.UpsertLeavesOthers | server/storage.ts:30-43 | an upsert leaves the row found under every other id unchanged |
| Storage.CreateRow | server/storage.ts:55-58 | the insert fails iff a required column is missing or the discordId is taken; otherwise the row has the next serial id, the given discordId, username and joinDate, and the insert time |
| Storage.CreateThenGet | server/storage.ts:55-58 | an insert succeeds iff the required columns are given and the discordId is free; the new row is then found by its discordId, and both uniqueness properties hold |
| Storage.SlugsMayRepeat | shared/schema.ts:24 | shareable_url has no unique constraint: a profile inserted with an existing row's slug is accepted whenever its discordId is free, and the table then holds the slug twice |
| Storage.UpdateRows | server/storage.ts:60-67 | nothing changes and nothing is returned iff no row has the discordId; a returned row is the first match patched, and the table keeps its length with every row either as it was or the returned row |
| Storage.UpdateMissing | server/storage.ts:60-67 | updating an unknown discordId changes no row and returns nothing, and only an unknown discordId does that |
| Storage.UpdateThenGet | server/storage.ts:60-67 | a successful update is read back under the row's new discordId |
| Storage.UpdateKeepsOthers | server/storage.ts:60-67 | a successful update rewrites only the row that had the discordId, in place and under the same id, and uniqueness still holds |
| Storage.UpdateWithoutKeyChange | server/storage.ts:60-67 | a patch that leaves discordId alone is never rejected by the unique constraint |
| Storage.UpdateConflict | server/storage.ts:60-67 | the update is rejected exactly when the patched row would take another row's discordId |
| Storage.SlugUpdateAccepted | server/storage.ts:60-67 | an update that gives a profile another row's slug is accepted, and the row then carries that slug |
| Storage.SetCount | server/storage.ts:78-85 | updating view_stats where profileId matches keeps the table's length and every row's id and profileId; each matching row gets the new counter and lastViewed, and every other row is unchanged |
| Storage.IncrementViews | server/storage.ts:74-97 | the returned row is the profile's and carries the new lastViewed; the serial id advances iff the profile had no row, and then exactly that row is appended |
| Storage.IncrementCounts | server/storage.ts:74-97 | one view makes the profile's counter (null read as 0) one larger; the returned row is the one found afterwards and carries the new lastViewed |
| Storage.IncrementLeavesOthers | server/storage.ts:74-97 | a view of one profile leaves every other profile's statistics unchanged |
| Storage.ViewsAdd | server/storage.ts:74-97 | n successive views raise the counter by exactly n, so a profile never viewed before shows n |
| Storage.IncrementSite | server/storage.ts:109-132 | each site view adds one to totalViews; an existing row keeps its id and uniqueVisitors; the first insert sets uniqueVisitors to 1 |
| Storage.SiteViewsCount | server/storage.ts:109-132 | n site views add n to the total and never change uniqueVisitors after the first insert |
| Storage.DatabaseStorage.constructor | server/storage.ts:23 | the store starts with empty tables and satisfies its invariant |
| Storage.DatabaseStorage.GetUser | server/storage.ts:25-28 | getUser returns the first user row with that id |
| Storage.DatabaseStorage.UpsertUser | server/storage.ts:30-43 | upsertUser installs the upserted table, or changes nothing on failure; other tables are untouched and uniqueness is preserved |
| Storage.DatabaseStorage.GetProfile | server/storage.ts:45-48 | getProfile returns the first profile whose discordId equals the argument, or none |
| Storage.DatabaseStorage.GetProfileByShareableUrl | server/storage.ts:50-53 | the lookup compares shareableUrl only and never falls back to discordId |
| Storage.DatabaseStorage.CreateProfile | server/storage.ts:55-58 | createProfile appends the inserted row and advances the serial id, or changes nothing when the insert fails |
| Storage.DatabaseStorage.UpdateProfile | server/storage.ts:60-67 | updateProfile installs exactly the updated table; the view and site tables are untouched |
| Storage.DatabaseStorage.GetViewStats | server/storage.ts:69-72 | getViewStats returns the first view-stats row of the profile |
| Storage.DatabaseStorage.IncrementViewCount | server/storage.ts:74-97 | incrementViewCount changes only view_stats, as IncrementCounts describes; the profile's own viewCount column is untouched |
| Storage.DatabaseStorage.CreateViewStats | server/storage.ts:99-102 | createViewStats appends the inserted row |
| Storage.DatabaseStorage.GetSiteStats | server/storage.ts:104-107 | getSiteStats returns the single row, if any |
| Storage.DatabaseStorage.IncrementSiteViews | server/storage.ts:109-132 | incrementSiteViews bumps or creates the row and touches nothing else |
| Accounts.PublicView | server/routes.ts:166 | the reply keeps every field of the account except the password |
| Accounts.PublicViewForgetsOnlyPassword | server/routes.ts:166 | two accounts with the same reply differ at most in the password |
| Accounts.PatchAccount | server/routes.ts:196 | an account update never changes userId, password or email |
| Accounts.UpdateAccountsThenGet | server/routes.ts:232-241 | an account update finds the account iff it exists, reads back the patched account and leaves every other account alone |
| Accounts.AccountStore.constructor | server/routes.ts:140 | the account table starts empty |
| Accounts.AccountStore.GetUserAccount | server/routes.ts:140 | returns the first account with that userId |
| Accounts.AccountStore.GetUserAccountByEmail | server/routes.ts:146 | returns the first account with that email |
| Accounts.AccountStore.CreateUserAccount | server/routes.ts:155-163 | appends the account and returns it |
| Accounts.AccountStore.UpdateUserAccount | server/routes.ts:196 | rewrites the first account with that userId, or reports none |
| Routes.Found | server/routes.ts:65-71 | a lookup is answered 200 with the row iff there is one, else 404 |
| Routes.UpdateReply | server/routes.ts:302-312 | a rejected update gives 500, a missing profile 404, and otherwise 200 with the row |
| Routes.FiltersNested | server/routes.ts:33-56 | the avatar filter accepts exactly jpeg, png, gif and webp; the background filter accepts those and the five video types |
| Routes.BackgroundKind | server/routes.ts:369 | the stored kind is "video" iff the mimetype starts with "video/", else "image" |
| Routes.AcceptedBackgroundKind | server/routes.ts:47-56 | among accepted background files, exactly the five video types are stored as "video" |
| Routes.UploadUrl | server/routes.ts:341 | the served address is "/uploads/" followed by the filename |
| Routes.PasswordHash | server/routes.ts:152 | the hash is base64 text that decodes to the UTF-8 bytes of password + userId + "salt" |
| Routes.HashInjective | server/routes.ts:152 | for one userId, two passwords hash alike only if they are equal |
| Routes.NewAccount | server/routes.ts:152-163 | the new account stores base64 of UTF-8 of password+userId+"salt", with empty bio, website and avatar |
| Routes.RegisterOutcome | server/routes.ts:128-167 | the status is 201, 400 or 409; 400 iff the body failed validation; a 201 returns the new account without its password and appends it; any other status leaves the table as it was |
| Routes.RegisterCreates | server/routes.ts:128-167 | registration answers 201 iff the body validates and both userId and email are free; otherwise the table is unchanged |
| Routes.LoginRefusals | server/routes.ts:184-193 | with both fields given, login answers 401 iff the user is unknown or the hash differs, and 200 otherwise |
| Routes.LoginOutcome | server/routes.ts:175-205 | the status is 200, 400 or 401; 400 iff userId or password is missing or empty; a refusal leaves the table as it was; a 200 returns the account as read before the login, and afterwards the account reads back with lastLogin set to the login time |
| Routes.RegisterThenLogin | server/routes.ts:152-193 | right after registering, logging in succeeds iff the password is the registered one and neither field is empty |
| Routes.SyncPatch | server/routes.ts:422-428 | sync sets username to the truthy global name or else the username, discordUsername to "username#discriminator", and avatarUrl to the hashed address at size 512 when the avatar hash is truthy, else the embed avatar for the discriminator |
| Routes.SyncColumns | server/routes.ts:422-428 | sync writes exactly username, discordUsername and avatarUrl |
| Routes.SyncDefaultAvatar | server/routes.ts:425-427 | without an avatar hash, a decimal discriminator picks the default avatar "0" to "4" by its value mod 5 |
| Routes.AvatarPatch | server/routes.ts:342 | the avatar upload writes avatarUrl with the served address and no other column |
| Routes.BackgroundPatch | server/routes.ts:371-374 | the background upload writes backgroundUrl and backgroundType and no other column |
| Routes.UploadReply | server/routes.ts:344-356 | a rejected update gives 500, a missing profile 404, and otherwise 200 with the address, the kind and the row |
| Routes.GetProfileRoute | server/routes.ts:62-76 | GET /api/profile/:discordId answers Found of the store's lookup |
| Routes.GetDefaultProfileRoute | server/routes.ts:79-90 | GET /api/profile answers with the profile of the fixed demo id |
| Routes.RecordViewRoute | server/routes.ts:93-109 | an unknown discordId gives 404 and neither counter changes; otherwise the view stats, then the site total, are incremented and the view stats returned |
| Routes.SiteStatsRoute | server/routes.ts:112-120 | the site statistics row is returned as it is |
| Routes.PutProfileRoute | server/routes.ts:297-313 | the body goes to updateProfile unfiltered: 404 for an unknown discordId, 500 on a constraint violation, else the updated row |
| Routes.ShareRoute | server/routes.ts:316-330 | the share route finds a profile by slug only, else 404 |
| Routes.UploadAvatarRoute | server/routes.ts:333-357 | a refused type never reaches the handler; no file gives 400; otherwise avatarUrl is set to the served address and the update cannot be rejected |
| Routes.UploadBackgroundRoute | server/routes.ts:360-390 | as the avatar upload, with the wider filter: backgroundUrl becomes the served address and backgroundType the kind |
| Routes.SyncRoute | server/routes.ts:396-441 | the sync update never violates a constraint; 404 when no profile has the discordId, else the updated row |
| Routes.RegisterRoute | server/routes.ts:125-172 | the handler's reply and table are exactly RegisterOutcome's |
| Routes.LoginRoute | server/routes.ts:175-205 | the handler's reply and table are exactly LoginOutcome's; lastLogin is stamped only on success |
| Routes.GetUserRoute | server/routes.ts:208-224 | 404 for an unknown userId, else the account without its password |
| Routes.PutUserRoute | server/routes.ts:227-250 | writes only the given name, bio, website and avatar; 404 for an unknown userId |
| Wrappers.OrElse | server/routes.ts:423 | `s \|\| fallback` gives s when it is non-null and non-empty, else the fallback |
| Strings.TrimStart | register.js:21 | only leading white space is dropped |
| Strings.TrimEnd | register.js:21 | only trailing white space is dropped |
| Strings.Trim | register.js:21 | the result is a middle slice with white space only around it and no white space at either end |
| Strings.TrimIdempotent | register.js:21 | trimming twice is the same as trimming once |
| Strings.ContainsIffOccurs | client/src/components/now-playing.tsx:13 | `includes` holds iff the substring occurs at some position |
| Strings.NatToDecimalValue | client/src/lib/discord-api.ts:21 | the printed decimal digits denote the number |
| Strings.NatToDecimalInjective | client/src/lib/discord-api.ts:21 | distinct numbers print differently |
| Strings.ParseIntOfDecimal | client/src/lib/discord-api.ts:25 | parseInt reads back the decimal text of every non-negative integer |
| Strings.ParseIntOfDigits | client/src/lib/discord-api.ts:25 | an all-digit text parses to its decimal value |
| Strings.JsRemainder | client/src/lib/discord-api.ts:25 | `%` truncates toward zero: the remainder has the dividend's sign and is smaller than the divisor in magnitude |
| Strings.ParseIntRemainderOfDigits | client/src/lib/discord-api.ts:25 | for an all-digit text and a modulus up to 10, `parseInt(s) % m` is the ordinary remainder and prints as one digit |
| Utf8.DecodeEncode | server/routes.ts:152 | decoding the UTF-8 bytes of a string gives it back |
| Utf8.EncodeInjective | server/routes.ts:152 | distinct strings have distinct UTF-8 bytes |
| Base64.Encode | server/routes.ts:152 | the base64 text has a length divisible by four |
| Base64.DecodeEncode | server/routes.ts:152 | decoding the base64 text of bytes gives them back |
| Base64.EncodeInjective | server/routes.ts:152 | distinct byte strings have distinct base64 texts |
| LinksJson.LookupFinds | client/src/components/social-icons.tsx:69 | `obj[k]` finds a value iff k is a key, and the value is that property's |
| LinksJson.SurrogatePair | client/src/components/settings-panel.tsx:95 | a high and a low surrogate combine into a supplementary-plane character from which both halves are recovered |
| LinksJson.SurrogatePairEscape | client/src/components/settings-panel.tsx:95 | the escape pair \ud83d\ude00 reads as the single character U+1F600 |
| LinksJson.InsertEntryKeys | client/src/components/settings-panel.tsx:95 | assigning obj[k] = v adds k to the keys, keeps keys distinct, and k then reads v |
| LinksJson.InsertEntryOthers | client/src/components/settings-panel.tsx:95 | assigning obj[k] leaves every other property's value as it was |
| LinksJson.InsertEntryOrdered | client/src/components/settings-panel.tsx:95 | assignment keeps an object's keys in enumeration order |
| LinksJson.Stringify | client/src/components/settings-panel.tsx:101 | the text is enclosed in braces and is "{}" iff the object has no properties |
| LinksJson.Parse | client/src/components/settings-panel.tsx:95 | every parsed object has distinct keys and lists them in ECMAScript's enumeration order: array index keys first, ascending, then the others in creation order |
| LinksJson.ParseStringify | client/src/components/settings-panel.tsx:95-101 | JSON.parse gives back every object JSON.stringify wrote, since an object always has distinct keys in enumeration order |
| LinksJson.ParseStringified | client/src/components/settings-panel.tsx:95-101 | parsing the text written for any member list gives the object that list denotes when assigned in order |
| LinksJson.FromEntriesShape | client/src/components/settings-panel.tsx:95-101 | that object has exactly the list's keys, each with the list's value, in enumeration order, and is the list itself when the list is already in that order |
| LinksJson.IndexKeyMovesFirst | client/src/components/settings-panel.tsx:95-101 | example of the general order lemmas: {"b":…,"1":…} denotes the object whose enumeration puts "1" before "b" |
| LinksJson.Reserialise | client/src/components/settings-panel.tsx:95-101 | re-serialising succeeds iff the text parses, and yields a brace-enclosed text |
| LinksJson.ReserialiseSameObject | client/src/components/settings-panel.tsx:95-101 | the re-serialised text denotes the same object as the text read |
| LinksJson.ReserialiseIdempotent | client/src/components/settings-panel.tsx:95-101 | a second parse-and-stringify pass changes nothing |
| RegisterValidation.Collect | register.js:20-26 | userId, name and email are trimmed, so trimming them again changes nothing; password and confirmPassword are kept as typed |
| RegisterValidation.CollectIdempotent | register.js:20-26 | collecting an already collected form changes nothing |
| RegisterValidation.IndexOf | register.js:99 | the first position holding the character, or none |
| RegisterValidation.EmailIff | register.js:99-102 | the e-mail test accepts exactly the strings the pattern `^[^\s@]+@[^\s@]+\.[^\s@]+$` matches |
| RegisterValidation.Validate | register.js:74-105 | the reported check fails and every earlier check passes; isValid holds iff no check fails |
| RegisterValidation.ValidIff | register.js:74-105 | a form passes iff userId has 3 to 20 word characters, the password has at least 6 characters and equals the confirmation, the name has at least 2 characters and the e-mail matches |
| PasswordGuard.Guard | client/src/pages/register-page.tsx:47-69 | mismatch is reported iff the two differ; too short iff they agree and the password is under 6; accepted iff they agree and it has at least 6 |
| ChangePasswordDialog.Toggle | client/src/components/change-password-dialog.tsx:82-87 | the named visibility flag flips and the other two stay |
| ChangePasswordDialog.ToggleTwice | client/src/components/change-password-dialog.tsx:82-87 | toggling the same flag twice restores it |
| ChangePasswordDialog.Request | client/src/components/change-password-dialog.tsx:55-80 | a request is sent iff the new passwords match and have at least 6 characters, and it carries only currentPassword and newPassword |
| ChangePasswordDialog.Dialog.constructor | client/src/components/change-password-dialog.tsx:16-26 | closed, blank form, all passwords hidden, nothing sent |
| ChangePasswordDialog.Dialog.SetOpen | client/src/components/change-password-dialog.tsx:90 | only the open flag changes |
| ChangePasswordDialog.Dialog.Edit | client/src/components/change-password-dialog.tsx:116 | one input takes the typed text; nothing else changes |
| ChangePasswordDialog.Dialog.TogglePasswordVisibility | client/src/components/change-password-dialog.tsx:82-87 | the visibility record becomes Toggle of the old one |
| ChangePasswordDialog.Dialog.HandleSubmit | client/src/components/change-password-dialog.tsx:55-80 | returns the guard's verdict; the request is appended iff it accepts; the form is untouched |
| ChangePasswordDialog.Dialog.OnSuccess | client/src/components/change-password-dialog.tsx:34-40 | the dialog closes and all three inputs are reset to "" |
| RegisterPage.Request | client/src/pages/register-page.tsx:47-69 | the form is sent iff the passwords match and have at least 6 characters, and then unchanged, confirmPassword included |
| RegisterPage.SessionEntries | client/src/pages/register-page.tsx:28-31 | the session object has distinct keys userId and loginTime |
| RegisterPage.SessionReadsBack | client/src/pages/register-page.tsx:28-31 | parsing the stored session gives back the same userId and loginTime |
| RegisterPage.StaticAcceptsImpliesGuard | client/src/pages/register-page.tsx:47-69 | every form validateRegistrationData accepts also passes this page's guard and is sent |
| RegisterPage.ChecksInOtherOrder | client/src/pages/register-page.tsx:50-66 | for every form with a valid userId and a short, mismatched password, this page reports the mismatch while validateRegistrationData reports the length |
| RegisterPage.Page.constructor | client/src/pages/register-page.tsx:13-19 | the form starts blank and nothing has been sent |
| RegisterPage.Page.Edit | client/src/pages/register-page.tsx:83 | one field takes the typed text |
| RegisterPage.Page.HandleSubmit | client/src/pages/register-page.tsx:47-69 | returns the guard's verdict and appends the whole form iff it accepts |
| RegisterPage.Page.OnSuccess | client/src/pages/register-page.tsx:26-36 | currentUser is set to the returned userId and userSession to the session text, then the page moves to /dashboard |
| BrowserStorage.LocalStorage.constructor | client/src/hooks/use-theme.tsx:9 | storage starts empty |
| BrowserStorage.LocalStorage.GetItem | client/src/hooks/use-theme.tsx:9 | getItem returns the held value iff the key is present |
| BrowserStorage.LocalStorage.SetItem | client/src/hooks/use-theme.tsx:22 | setItem makes the key hold the value and leaves every other key alone |
| PageLinks.Resolve | client/src/App.tsx:23-24 | a public link is looked up by discordId; a share link finds only a profile whose slug is the link's |
| PageLinks.Route | client/src/App.tsx:23-24 | a routed link always has a non-empty parameter without '/' |
| PageLinks.Path | client/src/App.tsx:23-24 | the router reads a link's path back as the same link iff its parameter is one non-empty segment |
| PageLinks.PathInjective | client/src/App.tsx:23-24 | distinct links have distinct paths |
| PageLinks.PublicLinkReaches | client/src/pages/public-profile-view.tsx:60-63 | with unique discordIds, a public link reaches exactly the profile it names |
| PageLinks.ShareLinkReaches | client/src/pages/shared-profile.tsx:34-37 | a share link with a stored profile's slug reaches some profile |
| SettingsPanel.InitialForm | client/src/components/settings-panel.tsx:39-48 | username, status, socialLinks and discordId are copied as stored; a null or empty location, mood, slug or audio address becomes "" |
| SettingsPanel.SavePatch | client/src/components/settings-panel.tsx:94-106 | a patch is sent iff the links text (empty read as "{}") parses, and it is the form with the links re-serialised |
| SettingsPanel.SaveColumns | client/src/components/settings-panel.tsx:96-105 | a save writes exactly username, status, location, mood, socialLinks, shareableUrl, audioUrl and discordId |
| SettingsPanel.SaveValues | client/src/components/settings-panel.tsx:95-104 | links are written as JSON.stringify writes the object the text denotes, the same text when its keys are distinct and in enumeration order; an empty slug is sent as "" not null, with the form's discordId |
| SettingsPanel.SaveMovesIndexKeys | client/src/components/settings-panel.tsx:95-101 | example of SettingsPanel.SaveValues: links typed as {"b":…,"1":…} are saved with "1" first |
| SettingsPanel.SaveRekeys | client/src/components/settings-panel.tsx:53-105 | the save goes to the old discordId but carries the edited one, so the row is afterwards found under the form's discordId with the form's slug |
| SettingsPanel.PanelShareLink | client/src/components/settings-panel.tsx:112 | the panel's link is always a /share/ link, with the slug when there is one |
| SettingsPanel.PanelShareLinkMisses | client/src/components/settings-panel.tsx:112 | without a slug, the link finds no profile unless some profile uses the discordId as its slug |
| SettingsPanel.ShareLink | client/src/components/settings-panel.tsx:112 | the slug page when there is a slug, otherwise the public page of the discordId |
| SettingsPanel.ShareLinkResolves | client/src/components/settings-panel.tsx:112 | every stored profile's link reaches it (no slug) or a profile with the same slug |
| SettingsPanel.ShareUrl | client/src/components/settings-panel.tsx:112 | the copied address is origin + "/share/" + the slug when it is non-empty, else origin + "/share/" + the discordId |
| SettingsPanel.Panel.constructor | client/src/components/settings-panel.tsx:36-48 | both panes closed, not copied, the initial form, nothing sent |
| SettingsPanel.Panel.SetOpen | client/src/components/settings-panel.tsx:165 | only the settings pane flag changes |
| SettingsPanel.Panel.SetShareOpen | client/src/components/settings-panel.tsx:142 | only the share pane flag changes |
| SettingsPanel.Panel.Edit | client/src/components/settings-panel.tsx:246-334 | one form field takes the typed text, and status and links become non-null |
| SettingsPanel.Panel.HandleSave | client/src/components/settings-panel.tsx:94-106 | the patch is sent to the profile's own discordId iff the links text parses |
| SettingsPanel.Panel.OnSaveSuccess | client/src/components/settings-panel.tsx:63 | the settings pane closes |
| SettingsPanel.Panel.HandleCopyLink | client/src/components/settings-panel.tsx:112-122 | the copied text is origin + "/share/" + (slug \|\| discordId), as written; copied rises only when the clipboard accepts |
| SettingsPanel.Panel.CopyTimerFires | client/src/components/settings-panel.tsx:122 | the copied flag drops |
| PublicProfile.Derive | client/src/components/public-profile.tsx:156-171 | username is copied; a null or empty status, location, mood or audio title becomes ""; socialLinks falls back to "{}", theme to "theme-dark", icon style to "default", icon colour to "#8B5CF6" and background to "particles" |
| PublicProfile.DeriveOfBareProfile | client/src/components/public-profile.tsx:56-67 | a profile with every optional column null derives the initial form, except the username |
| PublicProfile.EditPatch | client/src/components/public-profile.tsx:107-109 | the update body never carries discordId or joinDate |
| PublicProfile.SaveThenDerive | client/src/components/public-profile.tsx:156-183 | saving and reloading gives the form back iff none of the five fields with a non-empty fallback was cleared |
| PublicProfile.SaveNeverConflicts | client/src/components/public-profile.tsx:107-109 | an update from the editor is never rejected by the unique constraint |
| PublicProfile.DatePart | client/src/components/public-profile.tsx:86 | `split('T')[0]` is the longest prefix without 'T' |
| PublicProfile.DatePartOfTimestamp | client/src/components/public-profile.tsx:86 | for an ISO timestamp the date part is its first ten characters |
| PublicProfile.CreatePatch | client/src/components/public-profile.tsx:83-87 | the create body is insertable, with discordId the current user and joinDate the given date, overriding the form |
| PublicProfile.NoLinksShowsNothing | client/src/components/public-profile.tsx:324 | a null or empty socialLinks parses as an empty object |
| PublicProfile.ShareText | client/src/components/public-profile.tsx:210-219 | a link is copied iff the profile has a non-empty slug, as origin + "/share/" + slug |
| PublicProfile.Editor.constructor | client/src/components/public-profile.tsx:54-67 | no user, not editing, the initial form, no profile, nothing sent |
| PublicProfile.Editor.ReadCurrentUser | client/src/components/public-profile.tsx:71-74 | currentUser is read from localStorage |
| PublicProfile.Editor.Sync | client/src/components/public-profile.tsx:156-171 | outside edit mode with a profile the form is Derive of it; otherwise it is unchanged |
| PublicProfile.Editor.ProfileLoaded | client/src/components/public-profile.tsx:76-79 | the query result is stored, then the effect runs |
| PublicProfile.Editor.HandleEdit | client/src/components/public-profile.tsx:173-175 | edit mode is on and the form is kept |
| PublicProfile.Editor.EditUsername | client/src/components/public-profile.tsx:266 | only the username field changes |
| PublicProfile.Editor.EditStatus | client/src/components/public-profile.tsx:277 | only the status field changes |
| PublicProfile.Editor.EditLocation | client/src/components/public-profile.tsx:289 | only the location field changes |
| PublicProfile.Editor.EditMood | client/src/components/public-profile.tsx:300 | only the mood field changes |
| PublicProfile.Editor.HandleSave | client/src/components/public-profile.tsx:177-183 | with no profile a create of the form dated by the date part of now is sent, otherwise an update of the current user's profile |
| PublicProfile.Editor.OnSaveSuccess | client/src/components/public-profile.tsx:90-114 | edit mode is off and the form is re-derived from the profile |
| PublicProfile.Editor.HandleCancel | client/src/components/public-profile.tsx:185-201 | edit mode is off and, with a profile, every edit is discarded by the same derivation |
| PublicProfile.Editor.CopyShareLink | client/src/components/public-profile.tsx:210-219 | the copied text is ShareText of the loaded profile |
| SocialIcons.Positions | client/src/components/social-icons.tsx:68-70 | the kept positions, each kept, strictly increasing and complete |
| SocialIcons.Filtered | client/src/components/social-icons.tsx:68-70 | a platform is shown iff it is one of the nine and its link is non-empty after trimming |
| SocialIcons.FilteredInTableOrder | client/src/components/social-icons.tsx:20-30 | shown platforms appear in the fixed table's order |
| SocialIcons.FilteredByKnownKeys | client/src/components/social-icons.tsx:68-70 | which icons appear depends only on the nine known keys |
| SocialIcons.UnknownKeyIgnored | client/src/components/social-icons.tsx:68-70 | a property under an unknown key changes nothing |
| SocialIcons.Hue | client/src/components/social-icons.tsx:52 | the hue is below 360 and a multiple of 60 |
| SocialIcons.HueCycle | client/src/components/social-icons.tsx:52 | the hue of icon i is 60·(i mod 6), so hues repeat every six |
| SocialIcons.IconLook | client/src/components/social-icons.tsx:33-66 | only "transparent" is bordered; only the default style uses the platform's own background |
| SocialIcons.StyleLooks | client/src/components/social-icons.tsx:37-65 | "colored" gives iconColor+"30" behind iconColor; "transparent" the brand colour; the default white glyphs, black for snapchat only |
| SocialIcons.DynamicRepeats | client/src/components/social-icons.tsx:51-58 | only the dynamic style depends on position, and there icons six apart look alike |
| SocialIcons.Render | client/src/components/social-icons.tsx:32-112 | nothing renders iff no platform is shown; otherwise one icon per shown platform, in order, linking to its value, styled with the defaults "default" and "#8B5CF6" |
| CustomBackground.Choose | client/src/components/custom-background.tsx:154-189 | "custom" with an address comes first; any "gradient-" name selects its gradient; particles exactly for everything not custom-with-address, gradient or one of the five names |
| CustomBackground.NamedBackgrounds | client/src/components/custom-background.tsx:168-186 | example of Choose's equivalences: matrix, stars, waves, geometric and rain each select their own background |
| CustomBackground.GradientClass | client/src/components/custom-background.tsx:10-18 | exactly the seven listed gradient names have a class |
| CustomBackground.VideoByExtension | client/src/components/custom-background.tsx:129 | an address ending in .mp4, .webm, .mov or .avi is played as a video |
| CustomBackground.MediaLayer | client/src/components/custom-background.tsx:126-152 | nothing renders without an address; otherwise a video iff the address mentions one of the four extensions, else an image |
| CustomBackground.UploadedBackgroundHidden | client/src/components/custom-background.tsx:154-189 | the type an upload stores ("image" or "video") always falls back to particles |
| CustomBackground.ChooseWithUploads | client/src/components/custom-background.tsx:154-189 | agrees with the chain on every type except the two upload types |
| CustomBackground.UploadedBackgroundShown | client/src/components/custom-background.tsx:154-189 | with that reading an uploaded background shows the uploaded file |
| CustomBackground.Shown | client/src/components/custom-background.tsx:154-157 | the background is the dispatch chain's, as written; custom media carries a layer for its own address, a video for a video address |
| PublicProfileView.NameStyleClass | client/src/pages/public-profile-view.tsx:43-58 | the five styles map to "name-" + style, anything else to "gradient-text" |
| PublicProfileView.HeadingLook | client/src/pages/public-profile-view.tsx:284-287 | the inline colour is set iff the stored style is exactly 'default'; --name-color is nameColor or "#FFFFFF" |
| PublicProfileView.MissingStyleIsNotDefault | client/src/pages/public-profile-view.tsx:284-286 | a missing style and 'default' share "gradient-text", but only 'default' gets the inline colour |
| PublicProfileView.PageTheme | client/src/pages/public-profile-view.tsx:120 | the profile's theme, else the hook's |
| PublicProfileView.PageBackground | client/src/pages/public-profile-view.tsx:121-124 | the page shows the dispatch of the profile's type, with an empty type read as "particles" |
| PublicProfileView.UploadedPageShowsParticles | client/src/pages/public-profile-view.tsx:121-124 | a profile whose background came from the upload route is shown with particles |
| PublicProfileView.NoTypeGivesParticles | client/src/pages/public-profile-view.tsx:121-124 | a profile without a background type shows particles |
| PublicProfileView.CopyText | client/src/pages/public-profile-view.tsx:65-68 | a link is copied iff the profile has loaded, as origin + "/public/" + discordId |
| PublicProfileView.CopiedLinkReturns | client/src/pages/public-profile-view.tsx:60-68 | the copied link leads back to the same profile |
| PublicProfileView.View.constructor | client/src/pages/public-profile-view.tsx:40-41 | no profile, share pane closed, not copied |
| PublicProfileView.View.Load | client/src/pages/public-profile-view.tsx:60-63 | the profile is the table's row for the route's userId |
| PublicProfileView.View.SetShareOpen | client/src/pages/public-profile-view.tsx:40 | only the share pane flag changes |
| PublicProfileView.View.HandleCopyLink | client/src/pages/public-profile-view.tsx:65-76 | nothing happens without a profile; copied rises only when the clipboard accepts |
| PublicProfileView.View.CopyTimerFires | client/src/pages/public-profile-view.tsx:72 | the copied flag drops |
| UseTheme.Next | client/src/hooks/use-theme.tsx:19 | the index advances by one, wrapping from the last theme to the first |
| UseTheme.FourSwitchesReturn | client/src/hooks/use-theme.tsx:18-23 | four switches return to the start, and fewer never do |
| UseTheme.Restored | client/src/hooks/use-theme.tsx:8-16 | a saved theme is applied iff it is one of the four; otherwise the index is kept |
| UseTheme.SwitchThenRestore | client/src/hooks/use-theme.tsx:8-23 | the theme saved by a switch is the one the next mount restores |
| UseTheme.ThemeHook.constructor | client/src/hooks/use-theme.tsx:6 | the hook starts at index 0, "theme-dark" |
| UseTheme.ThemeHook.Theme | client/src/hooks/use-theme.tsx:25-28 | the returned theme is always one of the four |
| UseTheme.ThemeHook.Restore | client/src/hooks/use-theme.tsx:8-16 | the mount effect sets the index to Restored of the saved value |
| UseTheme.ThemeHook.SwitchTheme | client/src/hooks/use-theme.tsx:18-23 | the index becomes Next of the old one, and only "profile-theme" is written, with the new theme |
| AudioPlayer.AfterToggleAudio | client/src/components/audio-player.tsx:25-41 | while playing, pause and keep mute; while stopped, a resolved play sets playing and unmuted; a failed play changes nothing |
| AudioPlayer.AfterToggleMute | client/src/components/audio-player.tsx:43-50 | toggleMute flips only the muted flag |
| AudioPlayer.PlayingNeedsPlay | client/src/components/audio-player.tsx:25-41 | from a stopped state, playing requires a successful play among the events |
| AudioPlayer.UnmutedIconNeedsPlay | client/src/components/audio-player.tsx:67-71 | from the first render, the unmuted icon appears only after a successful play |
| AudioPlayer.Player.constructor | client/src/components/audio-player.tsx:6-15 | not playing, muted, and the element muted too |
| AudioPlayer.Player.HandleToggleAudio | client/src/components/audio-player.tsx:25-41 | the state becomes AfterToggleAudio and the element's muted flag follows |
| AudioPlayer.Player.HandleToggleMute | client/src/components/audio-player.tsx:43-50 | the state becomes AfterToggleMute and the element's flag takes the new value |
| AudioPlayer.Player.HandleEnded | client/src/components/audio-player.tsx:17 | the ended event stops playing |
| AudioPlayer.Player.ShowsMutedIcon | client/src/components/audio-player.tsx:67-71 | the muted icon shows iff muted or not playing |
| NowPlaying.SourceIcon | client/src/components/now-playing.tsx:12-20 | YT iff the address mentions youtube.com or youtu.be; SP iff it does not but mentions spotify.com; else the music icon |
| NowPlaying.ShortYouTubeLinks | client/src/components/now-playing.tsx:13 | any address containing youtu.be is tagged YT |
| NowPlaying.SpotifyLinks | client/src/components/now-playing.tsx:13-18 | an address containing spotify.com is never given the plain icon |
| NowPlaying.Render | client/src/components/now-playing.tsx:9-55 | nothing renders iff title and address are both falsy; a missing title shows the fallback label; badge and open button appear iff there is an address |
| NowPlaying.OpenSource | client/src/components/now-playing.tsx:22-26 | a tab is opened iff there is an address, for that address |
| DiscordApi.GetDiscordAvatarUrl | client/src/lib/discord-api.ts:19-27 | a non-empty hash gives the CDN address of the avatar at the size, an empty one the default avatar picked by the user id; the two kinds are told apart by their prefix |
| DiscordApi.HashedUrlSize | client/src/lib/discord-api.ts:21 | the address carries the size in decimal after "?size=", which parseInt reads back |
| DiscordApi.HashedUrlReadsBack | client/src/lib/discord-api.ts:21 | for user ids without '/', the avatar address determines the user id, the hash and the size |
| DiscordApi.EmbedIndexInRange | client/src/lib/discord-api.ts:25-26 | a decimal user id picks default avatar (id mod 5), a digit between 0 and 4 |

## Left out

- Express and multer plumbing is not modelled. This covers the upload directory, disk filenames made from the clock and Math.random, static serving, and the body parser. The 5 MB and 50 MB limits appear only as constants, because multer enforces them before a handler runs.
- Routes.UploadAvatarRoute: a file refused by the filter is modelled as a 500 reply, which is what Express's default error handler sends; the message text is not modelled.
- The Discord REST calls and the bot-token checks are not modelled. This covers the proxy route at server/routes.ts:253-294, the fetch step of the sync route and the client's fetchDiscordUser. Sync takes an already fetched Discord user as a parameter.
- Concurrency is not modelled. The two counters read and then write, so parallel views can lose updates. Only sequential behaviour is modelled.
- The account store's methods and insertUserAccountSchema are not part of this model's source files. The account table is abstract: first match by userId or email, with appends and updates. Schema validation appears as an Option body, None when it fails.
- POST /api/profile/create and PUT /api/auth/user/:id/password have no server handler to match them. The client's request bodies are modelled; the server's answer is not.
- Error messages, toasts, React rendering, framer-motion, window.open, setTimeout scheduling and clipboard access are not modelled. The clipboard outcome is a parameter.
- LinksJson.Parse accepts only objects whose property values are all strings. Numbers, booleans, null, arrays and nested objects count as a parse failure. So does an escape for a lone surrogate such as \ud800, because a character here is a Unicode scalar value. A surrogate pair written as two escapes is read as one character.
- SettingsPanel.SavePatch therefore sends nothing for a links text such as {"a":1} or {"a":"\ud800"}, where the page would send it re-serialised. Key order is modelled: array index keys move first, as in SettingsPanel.SaveMovesIndexKeys.
- Floating point is not modelled: the audio volume 0.3, and number formatting beyond integers.
- DiscordApi.EmbedIndexInRange: integers are exact, but parseInt turns an 18-digit Discord id into a rounded double, so the real index can differ from (id mod 5). Discriminators are short, so Routes.SyncDefaultAvatar is unaffected.
- The random default-avatar index on the public page and the random particle and background positions are not modelled.
- String lengths count Unicode scalar values, not UTF-16 code units. The two differ for characters outside the Basic Multilingual Plane. Lone surrogates, which Buffer.from would replace, cannot occur.
- A database table has no guaranteed row order. The model reads "first row" as first in table order, and serial ids increase by one per successful insert, with no gaps after failures and with no upper bound (see the Storage.ViewsAdd line).
- Storage.ViewsAdd, Storage.IncrementCounts, Storage.CreateRow and Storage.IncrementViews: the view_count columns and the serial ids are Postgres int4 (shared/schema.ts:6, 12, 22, 32, 34), but the model uses unbounded integers. Once a counter is 2147483647, the next `(existing.viewCount || 0) + 1` (server/storage.ts:81) is out of range, the update fails and the view route answers 500; a serial id past 2147483647 makes the insert fail the same way. So "one larger", "exactly n larger" and "the next serial id" hold in the program only while the counter and the sequence stay at or below 2147483647.
- Routes.PutProfileRoute: the body is modelled as a patch of the known columns. Keys outside them, and values of the wrong type (which the database would reject), are not modelled. The route passes `req.body` to `updateProfile` unfiltered (server/routes.ts:300-302), and `.set({...updates, updatedAt})` (server/storage.ts:63) spreads it, so a body can also write id and createdAt, which a ProfilePatch cannot express. `{"id": n}` re-keys the row when n is free and fails the primary key, giving a 500, when n is taken. `{"createdAt": …}` overwrites the creation stamp, or is rejected by the database, giving a 500. So the "keeps id and createdAt" part of Schema.ApplyPatch and Storage.UpdateKeepsOthers holds only for bodies without those keys.
- Storage.UpdateKeepsOthers: the same id and createdAt are promised only for patches of the declared update columns (see the Routes.PutProfileRoute line).
- Site statistics and the upsert payload follow the shape storage.ts uses, because shared/schema.ts does not declare them.
- Schema.ApplyPatch: the model assumes the profiles table has the seven columns audioTitle, backgroundType, backgroundUrl, socialIconStyle, socialIconColor, nameStyle and nameColor. shared/schema.ts does not declare them, and drizzle leaves undeclared keys out of an update's `.set()`. Under the schema as declared, the background upload (server/routes.ts:371-374) and every write of audioTitle, socialIconStyle, socialIconColor, nameStyle or nameColor would store nothing.
- RegisterPage.Page.HandleSubmit and ChangePasswordDialog.Dialog.HandleSubmit model only the handlers. The browser's own form checks run first and block the submit event. In register-page.tsx, every input is `required`, userId has `minLength={3}` and `maxLength={20}` (the browser stops typing past 20 characters, so a longer userId never reaches the handler from typing), the password has `minLength={6}` and the e-mail input is `type="email"`. In change-password-dialog.tsx, all three inputs are `required` and the new password has `minLength={6}`. So a typed password under six characters never reaches either handler. The TooShort verdict and the case of RegisterPage.ChecksInOtherOrder cannot arise from typing in the page.
- PageLinks.Route: the router's paths are matched exactly. A trailing slash, percent-decoding of the parameter and case-insensitive matching are not modelled. The browser cuts an address at its first '?' or '#' before the router sees it, so a slug or discordId containing either character does not read back through Path, although Path's equivalence admits it.
- AudioPlayer.AfterToggleAudio: the component takes no props and its `<audio>` element has no source (client/src/components/audio-player.tsx:5, 77-84), although every caller passes `audioUrl` (public-profile.tsx:461, profile-page.tsx:95, public-profile-view.tsx:239, shared-profile.tsx:91). In the program `play()` therefore always rejects and isPlaying never becomes true. The model leaves the outcome of `play()` a parameter, so it also describes the resolved case the program cannot reach.
- ChangePasswordDialog.Dialog.HandleSubmit: `sent` records only the request body. The target address `/api/auth/user/${userId}/password` (change-password-dialog.tsx:31) and the userId prop are not recorded.
- The public-profile avatar upload mutation and the settings panel's Discord sync button are not modelled among the client steps; each is a single request whose server side is modelled in Routes.
- SocialIcons.Render: an absent iconStyle or iconColor takes the default, as JavaScript default parameters do. Of the four call sites, public-profile.tsx:450 and public-profile-view.tsx:314 pass both props. profile-page.tsx:167 and shared-profile.tsx:174 pass only socialLinks, so the defaults apply there.
- PublicProfile.Editor.HandleSave requires a signed-in user, because without one the page shows only the sign-in prompt and no save button.
- The landing, footer, welcome, site-stats, theme-switcher, dashboard, login and home pages, the DOM parts of register.js, main.js and config.ts are not modelled, because they are presentation only.

## Findings

| source | as written | input that shows it | evidently intended | confidence | as-written member | corrected member |
|---|---|---|---|---|---|---|
| client/src/components/settings-panel.tsx:112 | a profile without a slug gets the share address /share/ with its discordId; the share route looks that up as a slug only | a profile with shareableUrl null whose discordId no profile uses as a slug: the visitor sees not-found | the link reaches the profile, through its public page | not executed | SettingsPanel.PanelShareLinkMisses | SettingsPanel.ShareLinkResolves |
| client/src/components/custom-background.tsx:154-189 | the upload route stores backgroundType "image" or "video", which the dispatch does not know, so it shows particles | any accepted background upload, e.g. mimetype image/png with filename bg.png | the uploaded file is shown as the custom media background | not executed | CustomBackground.UploadedBackgroundHidden | CustomBackground.UploadedBackgroundShown |
