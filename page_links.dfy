/**
 * The two client routes that show one profile to visitors and the lookup behind each:
 * /public/:userId fetches GET /api/profile/:discordId, and /share/:shareableUrl fetches
 * GET /api/profile/share/:shareableUrl, which compares the slug column only.
 */
module PageLinks {
  import opened Wrappers
  import opened Schema
  import opened Storage

  /** A link's path below the site's origin. */
  datatype PageLink = PublicPage(userId: string) | SharePage(slug: string)

  /** The route parameter a link carries. */
  function Param(l: PageLink): string {
    match l
    case PublicPage(u) => u
    case SharePage(s) => s
  }

  /**
   * The page the router shows for a path: "/public/:userId" and "/share/:shareableUrl" take
   * one non-empty path segment; None is any other page.
   */
  function Route(path: string): (r: Option<PageLink>)
    ensures r.Some? ==> Param(r.value) != [] && '/' !in Param(r.value)
  {
    if |path| > 8 && path[..8] == "/public/" && '/' !in path[8..] then Some(PublicPage(path[8..]))
    else if |path| > 7 && path[..7] == "/share/" && '/' !in path[7..] then Some(SharePage(path[7..]))
    else None
  }

  /**
   * A link's path below the site's origin. The router reads it back as the same link exactly
   * when its parameter is a single non-empty segment.
   */
  function Path(l: PageLink): (r: string)
    ensures Route(r) == Some(l) <==> Param(l) != [] && '/' !in Param(l)
  {
    match l
    case PublicPage(u) =>
      var r := "/public/" + u;
      assert r[..8] == "/public/" && r[8..] == u;
      r
    case SharePage(s) =>
      var r := "/share/" + s;
      assert r[..7] == "/share/" && r[7..] == s;
      assert r[1] == 's';
      r
  }

  /** Distinct links have distinct paths. */
  lemma PathInjective(a: PageLink, b: PageLink)
    requires Path(a) == Path(b)
    ensures a == b
  {
    var p := Path(a);
    assert p[1] == (if a.PublicPage? then 'p' else 's') == (if b.PublicPage? then 'p' else 's');
    var n := if a.PublicPage? then 8 else 7;
    assert Param(a) == p[n..] == Param(b);
  }

  /** The profile a visitor following the link is shown, or None for the not-found state. */
  function Resolve(rows: seq<Profile>, l: PageLink): (r: Option<Profile>)
    ensures l.PublicPage? ==> r == First(rows, WithDiscordId(l.userId))
    ensures l.SharePage? && r.Some? ==> r.value.shareableUrl == Some(l.slug)
  {
    match l
    case PublicPage(u) => First(rows, WithDiscordId(u))
    case SharePage(s) => First(rows, WithSlug(s))
  }

  /** A public link reaches the profile it names, when discordIds are unique. */
  lemma {:induction false} PublicLinkReaches(rows: seq<Profile>, k: nat)
    requires k < |rows| && UniqueDiscordIds(rows)
    ensures Resolve(rows, PublicPage(rows[k].discordId)) == Some(rows[k])
  {
    assert forall j :: 0 <= j < k ==> !WithDiscordId(rows[k].discordId)(rows[j]);
    FirstAt(rows, WithDiscordId(rows[k].discordId), k);
  }

  /** A share link with a profile's own slug reaches a profile carrying that slug. */
  lemma {:induction false} ShareLinkReaches(rows: seq<Profile>, k: nat)
    requires k < |rows| && rows[k].shareableUrl.Some?
    ensures Resolve(rows, SharePage(rows[k].shareableUrl.value)).Some?
  {
    assert WithSlug(rows[k].shareableUrl.value)(rows[k]);
  }
}
