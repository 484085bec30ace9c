/**
 * The database-backed store behind the routes. Each table is a sequence of rows in table
 * order; a `select … where` returns its first matching row. The pure functions below say what
 * each statement reads and writes; the DatabaseStorage class holds the tables and its methods
 * are tied to those functions, so the lemmas about the functions are lemmas about the store.
 */
module Storage {
  import opened Wrappers
  import opened Schema

  /** What an awaited database statement gives: its value, or a rejected promise. */
  datatype Outcome<+T> = Done(value: T) | Failed

  // ---------------------------------------------------------------------------------------
  // First matching row

  /** The position of the first element satisfying `p`. */
  function FirstIndex<T>(s: seq<T>, p: T -> bool): (r: Option<nat>)
    ensures r.Some? ==> r.value < |s| && p(s[r.value]) && forall j :: 0 <= j < r.value ==> !p(s[j])
    ensures r.None? ==> forall j :: 0 <= j < |s| ==> !p(s[j])
  {
    if s == [] then None
    else if p(s[0]) then Some(0)
    else
      match FirstIndex(s[1..], p)
      case None => None
      case Some(i) => Some(i + 1)
  }

  /** The first element satisfying `p`: what `const [row] = await db.select()…where(…)` binds. */
  function First<T>(s: seq<T>, p: T -> bool): (r: Option<T>)
    ensures r.Some? <==> exists i :: 0 <= i < |s| && p(s[i])
    ensures r.Some? ==> p(r.value)
  {
    match FirstIndex(s, p)
    case None => None
    case Some(i) => Some(s[i])
  }

  /** The first element satisfying `p` is the one at the first position satisfying it. */
  lemma {:induction false} FirstAt<T>(s: seq<T>, p: T -> bool, i: nat)
    requires i < |s| && p(s[i]) && forall j :: 0 <= j < i ==> !p(s[j])
    ensures FirstIndex(s, p) == Some(i) && First(s, p) == Some(s[i])
  {
    var r := FirstIndex(s, p);
    assert r.Some? by { assert !(r.None?) by { assert p(s[i]); } }
    assert !(r.value < i);
    assert !(r.value > i);
  }

  /** Changing only elements that do not satisfy `p`, into elements that do not, keeps the first one. */
  lemma {:induction false} FirstUnaffected<T>(s: seq<T>, t: seq<T>, p: T -> bool)
    requires |s| == |t|
    requires forall k :: 0 <= k < |s| && s[k] != t[k] ==> !p(s[k]) && !p(t[k])
    ensures First(t, p) == First(s, p)
  {
    match FirstIndex(s, p)
    case None =>
      assert forall k :: 0 <= k < |t| ==> !p(t[k]) by {
        forall k | 0 <= k < |t| ensures !p(t[k]) {
          assert !p(s[k]);
        }
      }
      assert FirstIndex(t, p).None?;
    case Some(i) =>
      assert s[i] == t[i];
      assert forall j :: 0 <= j < i ==> !p(t[j]) by {
        forall j | 0 <= j < i ensures !p(t[j]) {
          assert !p(s[j]);
        }
      }
      FirstAt(t, p, i);
  }

  /** Appending a row leaves the first match alone if there was one, and finds the new row if not. */
  lemma {:induction false} FirstOfAppend<T>(s: seq<T>, x: T, p: T -> bool)
    ensures First(s, p).Some? ==> First(s + [x], p) == First(s, p)
    ensures First(s, p).None? && p(x) ==> First(s + [x], p) == Some(x)
    ensures First(s, p).None? && !p(x) ==> First(s + [x], p) == None
  {
    var t := s + [x];
    match FirstIndex(s, p)
    case Some(i) =>
      assert t[i] == s[i];
      assert forall j :: 0 <= j < i ==> !p(t[j]) by {
        forall j | 0 <= j < i ensures !p(t[j]) {
          assert t[j] == s[j];
        }
      }
      FirstAt(t, p, i);
    case None =>
      assert forall j :: 0 <= j < |s| ==> !p(t[j]) by {
        forall j | 0 <= j < |s| ensures !p(t[j]) {
          assert t[j] == s[j];
        }
      }
      if p(x) {
        FirstAt(t, p, |s|);
      } else {
        assert FirstIndex(t, p).None?;
      }
  }

  function WithUserId(id: string): User -> bool { (u: User) => u.id == id }
  function WithDiscordId(d: string): Profile -> bool { (r: Profile) => r.discordId == d }
  function WithSlug(slug: string): Profile -> bool { (r: Profile) => r.shareableUrl == Some(slug) }
  function OfProfile(pid: int): ViewStats -> bool { (v: ViewStats) => v.profileId == pid }

  // ---------------------------------------------------------------------------------------
  // users

  /** The unique constraints of `users`: the primary key and the username. */
  predicate UserKeysUnique(rows: seq<User>) {
    forall i, j :: 0 <= i < j < |rows| ==> rows[i].id != rows[j].id && rows[i].username != rows[j].username
  }

  /**
   * `insert(users).values(u).onConflictDoUpdate({ target: users.id, set: { ...u, updatedAt } })`:
   * the row with u's id is overwritten, or a new row is appended; the statement fails when the
   * username belongs to a row with another id.
   */
  function UpsertRows(rows: seq<User>, u: UpsertUser, now: nat): (r: Outcome<(seq<User>, User)>)
    ensures r.Failed? <==> exists k :: 0 <= k < |rows| && rows[k].id != u.id && rows[k].username == u.username
    ensures r.Done? ==>
      var (rows', row) := r.value;
      row == User(u.id, u.username, u.password, now) && row in rows' && |rows| <= |rows'| <= |rows| + 1 &&
      forall k :: 0 <= k < |rows| && rows[k].id != u.id ==> rows'[k] == rows[k]
  {
    var row := User(u.id, u.username, u.password, now);
    if exists k :: 0 <= k < |rows| && rows[k].id != u.id && rows[k].username == u.username then Failed
    else
      match FirstIndex(rows, WithUserId(u.id))
      case Some(i) => assert rows[i := row][i] == row; Done((rows[i := row], row))
      case None => Done((rows + [row], row))
  }

  /** After an upsert the id reads back the row just written, and the constraints still hold. */
  lemma {:induction false} UpsertThenGet(rows: seq<User>, u: UpsertUser, now: nat)
    requires UserKeysUnique(rows)
    ensures UpsertRows(rows, u, now).Done? ==>
      var (rows', row) := UpsertRows(rows, u, now).value;
      row == User(u.id, u.username, u.password, now) &&
      First(rows', WithUserId(u.id)) == Some(row) && UserKeysUnique(rows')
  {
    var row := User(u.id, u.username, u.password, now);
    if UpsertRows(rows, u, now).Done? {
      match FirstIndex(rows, WithUserId(u.id))
      case Some(i) =>
        var rows' := rows[i := row];
        assert forall j :: 0 <= j < i ==> !WithUserId(u.id)(rows'[j]) by {
          forall j | 0 <= j < i ensures !WithUserId(u.id)(rows'[j]) {
            assert rows'[j] == rows[j];
          }
        }
        FirstAt(rows', WithUserId(u.id), i);
      case None =>
        FirstOfAppend(rows, row, WithUserId(u.id));
    }
  }

  /** An upsert leaves every other id's row as it was. */
  lemma {:induction false} UpsertLeavesOthers(rows: seq<User>, u: UpsertUser, now: nat, id: string)
    requires id != u.id
    ensures UpsertRows(rows, u, now).Done? ==>
      First(UpsertRows(rows, u, now).value.0, WithUserId(id)) == First(rows, WithUserId(id))
  {
    var row := User(u.id, u.username, u.password, now);
    if UpsertRows(rows, u, now).Done? {
      match FirstIndex(rows, WithUserId(u.id))
      case Some(i) =>
        FirstUnaffected(rows, rows[i := row], WithUserId(id));
      case None =>
        FirstOfAppend(rows, row, WithUserId(id));
    }
  }

  // ---------------------------------------------------------------------------------------
  // profiles

  /**
   * `insert(profiles).values(ins).returning()`: fails on a missing required column or a
   * discordId already taken; otherwise appends the row with its defaults and serial id.
   */
  function CreateRow(rows: seq<Profile>, nextId: nat, ins: ProfilePatch, now: nat): (r: Outcome<Profile>)
    ensures r.Failed? <==>
      !IsInsertable(ins) || exists k :: 0 <= k < |rows| && rows[k].discordId == ins.discordId.value
    ensures r.Done? ==>
      r.value.id == nextId && r.value.discordId == ins.discordId.value &&
      r.value.username == ins.username.value && r.value.joinDate == ins.joinDate.value &&
      r.value.createdAt == now
  {
    if !IsInsertable(ins) || First(rows, WithDiscordId(ins.discordId.value)).Some? then Failed
    else Done(FromInsert(nextId, ins, now))
  }

  /** A created profile is found by its discordId and keeps both unique constraints. */
  lemma {:induction false} CreateThenGet(rows: seq<Profile>, nextId: nat, ins: ProfilePatch, now: nat)
    requires UniqueDiscordIds(rows) && UniqueProfileIds(rows)
    requires forall k :: 0 <= k < |rows| ==> rows[k].id < nextId
    ensures CreateRow(rows, nextId, ins, now).Done? <==>
      IsInsertable(ins) && forall k :: 0 <= k < |rows| ==> rows[k].discordId != ins.discordId.value
    ensures CreateRow(rows, nextId, ins, now).Done? ==>
      var p := CreateRow(rows, nextId, ins, now).value;
      First(rows + [p], WithDiscordId(p.discordId)) == Some(p) &&
      UniqueDiscordIds(rows + [p]) && UniqueProfileIds(rows + [p])
  {
    if IsInsertable(ins) {
      var d := ins.discordId.value;
      if First(rows, WithDiscordId(d)).None? {
        var p := FromInsert(nextId, ins, now);
        FirstOfAppend(rows, p, WithDiscordId(d));
        assert forall k :: 0 <= k < |rows| ==> rows[k].discordId != d by {
          forall k | 0 <= k < |rows| ensures rows[k].discordId != d {
            assert !WithDiscordId(d)(rows[k]);
          }
        }
      } else {
        var k :| 0 <= k < |rows| && WithDiscordId(d)(rows[k]);
        assert rows[k].discordId == d;
      }
    }
  }

  /**
   * `update(profiles).set({ ...patch, updatedAt: now }).where(eq(discordId, d)).returning()`:
   * no row has d (the route's undefined), the patched row would take another row's discordId
   * (the unique constraint rejects the statement), or the row is rewritten in place.
   */
  function UpdateRows(rows: seq<Profile>, d: string, patch: ProfilePatch, now: nat): (r: Outcome<(seq<Profile>, Option<Profile>)>)
    ensures r == Done((rows, None)) <==> forall k :: 0 <= k < |rows| ==> rows[k].discordId != d
    ensures r.Done? ==> r.value.1.None? ==> r.value.0 == rows
    ensures r.Done? && r.value.1.Some? ==>
      var (rows', row) := (r.value.0, r.value.1.value);
      First(rows, WithDiscordId(d)).Some? && row == ApplyPatch(First(rows, WithDiscordId(d)).value, patch, now) &&
      |rows'| == |rows| && forall k :: 0 <= k < |rows| ==> rows'[k] == rows[k] || rows'[k] == row
  {
    match FirstIndex(rows, WithDiscordId(d))
    case None => Done((rows, None))
    case Some(i) =>
      var row := ApplyPatch(rows[i], patch, now);
      if exists j :: 0 <= j < |rows| && j != i && rows[j].discordId == row.discordId then Failed
      else Done((rows[i := row], Some(row)))
  }

  /** An unknown discordId changes nothing and reads back nothing. */
  lemma UpdateMissing(rows: seq<Profile>, d: string, patch: ProfilePatch, now: nat)
    ensures First(rows, WithDiscordId(d)).None? <==> UpdateRows(rows, d, patch, now) == Done((rows, None))
  {
  }

  /** A successful update is read back under the row's (possibly new) discordId. */
  lemma {:induction false} UpdateThenGet(rows: seq<Profile>, d: string, patch: ProfilePatch, now: nat)
    ensures UpdateRows(rows, d, patch, now).Done? && UpdateRows(rows, d, patch, now).value.1.Some? ==>
      var p := UpdateRows(rows, d, patch, now).value.1.value;
      First(UpdateRows(rows, d, patch, now).value.0, WithDiscordId(p.discordId)) == Some(p)
  {
    match FirstIndex(rows, WithDiscordId(d))
    case None =>
    case Some(i) =>
      var row := ApplyPatch(rows[i], patch, now);
      if !exists j :: 0 <= j < |rows| && j != i && rows[j].discordId == row.discordId {
        var rows' := rows[i := row];
        assert forall j :: 0 <= j < i ==> !WithDiscordId(row.discordId)(rows'[j]) by {
          forall j | 0 <= j < i ensures !WithDiscordId(row.discordId)(rows'[j]) {
            assert rows'[j] == rows[j];
          }
        }
        FirstAt(rows', WithDiscordId(row.discordId), i);
      }
  }

  /**
   * A successful update rewrites only the row that had d, in place and under the same id, and
   * the unique constraints still hold.
   */
  lemma {:induction false} UpdateKeepsOthers(rows: seq<Profile>, d: string, patch: ProfilePatch, now: nat)
    requires UniqueDiscordIds(rows) && UniqueProfileIds(rows)
    ensures UpdateRows(rows, d, patch, now).Done? ==>
      var rows' := UpdateRows(rows, d, patch, now).value.0;
      |rows'| == |rows| &&
      (forall k :: 0 <= k < |rows| ==> rows'[k].id == rows[k].id) &&
      (forall k :: 0 <= k < |rows| && rows[k].discordId != d ==> rows'[k] == rows[k]) &&
      UniqueDiscordIds(rows') && UniqueProfileIds(rows')
  {
  }

  /** A patch that leaves discordId alone can never break the unique constraint. */
  lemma {:induction false} UpdateWithoutKeyChange(rows: seq<Profile>, d: string, patch: ProfilePatch, now: nat)
    requires UniqueDiscordIds(rows) && patch.discordId.Keep?
    ensures UpdateRows(rows, d, patch, now).Done?
  {
    match FirstIndex(rows, WithDiscordId(d))
    case None =>
    case Some(i) =>
      forall j | 0 <= j < |rows| && j != i ensures rows[j].discordId != ApplyPatch(rows[i], patch, now).discordId {
        if j < i {
          assert rows[j].discordId != rows[i].discordId;
        } else {
          assert rows[i].discordId != rows[j].discordId;
        }
      }
  }

  /**
   * shareable_url carries no unique constraint: inserting a profile whose slug is an existing
   * row's succeeds whenever its discordId is free, and the table then holds the slug twice.
   */
  lemma SlugsMayRepeat(rows: seq<Profile>, nextId: nat, ins: ProfilePatch, now: nat, k: nat)
    requires UniqueDiscordIds(rows) && UniqueProfileIds(rows)
    requires forall j :: 0 <= j < |rows| ==> rows[j].id < nextId
    requires k < |rows| && IsInsertable(ins) && ins.shareableUrl == Set(rows[k].shareableUrl)
    requires forall j :: 0 <= j < |rows| ==> rows[j].discordId != ins.discordId.value
    ensures CreateRow(rows, nextId, ins, now).Done?
    ensures var rows' := rows + [CreateRow(rows, nextId, ins, now).value];
      UniqueDiscordIds(rows') && rows'[|rows|].shareableUrl == rows'[k].shareableUrl
  {
    CreateThenGet(rows, nextId, ins, now);
    InsertColumn(nextId, ins, now, ShareableUrl);
  }

  /** Likewise an update may give a row the slug another row already has. */
  lemma {:induction false} SlugUpdateAccepted(rows: seq<Profile>, d: string, now: nat, k: nat)
    requires UniqueDiscordIds(rows) && k < |rows|
    ensures var patch := EmptyPatch.(shareableUrl := Set(rows[k].shareableUrl));
      var o := UpdateRows(rows, d, patch, now);
      o.Done? && (o.value.1.Some? ==> o.value.1.value.shareableUrl == rows[k].shareableUrl)
  {
    var patch := EmptyPatch.(shareableUrl := Set(rows[k].shareableUrl));
    UpdateWithoutKeyChange(rows, d, patch, now);
    match FirstIndex(rows, WithDiscordId(d))
    case None =>
    case Some(i) =>
      UpdateColumn(rows[i], patch, now, ShareableUrl);
  }

  /** The statement is rejected exactly when the patched row collides with another row's discordId. */
  lemma {:induction false} UpdateConflict(rows: seq<Profile>, d: string, patch: ProfilePatch, now: nat)
    ensures UpdateRows(rows, d, patch, now).Failed? <==>
      exists i, j :: 0 <= i < |rows| && 0 <= j < |rows| && i != j && rows[i].discordId == d &&
        (forall k :: 0 <= k < i ==> rows[k].discordId != d) &&
        rows[j].discordId == ApplyPatch(rows[i], patch, now).discordId
  {
    match FirstIndex(rows, WithDiscordId(d))
    case None =>
      assert forall i :: 0 <= i < |rows| ==> rows[i].discordId != d by {
        forall i | 0 <= i < |rows| ensures rows[i].discordId != d {
          assert !WithDiscordId(d)(rows[i]);
        }
      }
    case Some(i) =>
      assert forall k :: 0 <= k < i ==> rows[k].discordId != d by {
        forall k | 0 <= k < i ensures rows[k].discordId != d {
          assert !WithDiscordId(d)(rows[k]);
        }
      }
      forall i' | 0 <= i' < |rows| && rows[i'].discordId == d && (forall k :: 0 <= k < i' ==> rows[k].discordId != d)
        ensures i' == i
      {
        assert !(i' < i);
        assert !(i < i') by { assert rows[i].discordId == d; }
      }
  }

  // ---------------------------------------------------------------------------------------
  // view_stats

  /** The counter `(existing.viewCount || 0)` reads for a profile: 0 when it has no row. */
  function ViewCountOf(rows: seq<ViewStats>, pid: int): int {
    match First(rows, OfProfile(pid))
    case None => 0
    case Some(v) => v.viewCount.GetOr(0)
  }

  /** `update(viewStats).set({ viewCount: count, lastViewed: now }).where(eq(profileId, pid))`. */
  function SetCount(rows: seq<ViewStats>, pid: int, count: int, now: nat): (r: seq<ViewStats>)
    ensures |r| == |rows|
    ensures forall k | 0 <= k < |rows| ::
      r[k].id == rows[k].id && r[k].profileId == rows[k].profileId &&
      (rows[k].profileId == pid ==> r[k].viewCount == Some(count) && r[k].lastViewed == now) &&
      (rows[k].profileId != pid ==> r[k] == rows[k])
  {
    seq(|rows|, k requires 0 <= k < |rows| =>
      if rows[k].profileId == pid then rows[k].(viewCount := Some(count), lastViewed := now) else rows[k])
  }

  /**
   * incrementViewCount: bump every row of the profile to the first row's counter plus one, or
   * insert a row with counter 1. Gives the new table, the next serial id and the row returned.
   */
  function IncrementViews(rows: seq<ViewStats>, nextId: nat, pid: int, now: nat): (r: (seq<ViewStats>, nat, ViewStats))
    ensures r.2.profileId == pid && r.2.lastViewed == now
    ensures r.1 == nextId <==> First(rows, OfProfile(pid)).Some?
    ensures r.1 == nextId ==> |r.0| == |rows|
    ensures r.1 != nextId ==> r.1 == nextId + 1 && r.2.id == nextId && r.0 == rows + [r.2]
  {
    match First(rows, OfProfile(pid))
    case Some(e) =>
      var count := e.viewCount.GetOr(0) + 1;
      (SetCount(rows, pid, count, now), nextId, e.(viewCount := Some(count), lastViewed := now))
    case None =>
      var row := ViewStats(nextId, pid, Some(1), now);
      (rows + [row], nextId + 1, row)
  }

  /** One view raises the profile's counter by exactly one and returns the row that holds it. */
  lemma {:induction false} IncrementCounts(rows: seq<ViewStats>, nextId: nat, pid: int, now: nat)
    ensures var (rows', _, r) := IncrementViews(rows, nextId, pid, now);
      First(rows', OfProfile(pid)) == Some(r) &&
      r.viewCount == Some(ViewCountOf(rows, pid) + 1) && r.lastViewed == now &&
      ViewCountOf(rows', pid) == ViewCountOf(rows, pid) + 1
  {
    match FirstIndex(rows, OfProfile(pid))
    case Some(i) =>
      var e := rows[i];
      var rows' := SetCount(rows, pid, e.viewCount.GetOr(0) + 1, now);
      assert forall j :: 0 <= j < i ==> !OfProfile(pid)(rows'[j]) by {
        forall j | 0 <= j < i ensures !OfProfile(pid)(rows'[j]) {
          assert !OfProfile(pid)(rows[j]);
        }
      }
      FirstAt(rows', OfProfile(pid), i);
    case None =>
      FirstOfAppend(rows, ViewStats(nextId, pid, Some(1), now), OfProfile(pid));
  }

  /** A view of one profile leaves every other profile's statistics unchanged. */
  lemma {:induction false} IncrementLeavesOthers(rows: seq<ViewStats>, nextId: nat, pid: int, now: nat, other: int)
    requires other != pid
    ensures First(IncrementViews(rows, nextId, pid, now).0, OfProfile(other)) == First(rows, OfProfile(other))
  {
    match First(rows, OfProfile(pid))
    case Some(e) =>
      FirstUnaffected(rows, SetCount(rows, pid, e.viewCount.GetOr(0) + 1, now), OfProfile(other));
    case None =>
      FirstOfAppend(rows, ViewStats(nextId, pid, Some(1), now), OfProfile(other));
  }

  /** The table after `n` views of one profile. */
  function ViewsAfter(rows: seq<ViewStats>, nextId: nat, pid: int, now: nat, n: nat): seq<ViewStats>
    decreases n
  {
    if n == 0 then rows
    else
      var (rows', nextId', _) := IncrementViews(rows, nextId, pid, now);
      ViewsAfter(rows', nextId', pid, now, n - 1)
  }

  /** `n` views raise the counter by `n`; a profile never viewed before shows exactly `n`. */
  lemma {:induction false} ViewsAdd(rows: seq<ViewStats>, nextId: nat, pid: int, now: nat, n: nat)
    ensures ViewCountOf(ViewsAfter(rows, nextId, pid, now, n), pid) == ViewCountOf(rows, pid) + n
    decreases n
  {
    if n > 0 {
      var (rows', nextId', _) := IncrementViews(rows, nextId, pid, now);
      IncrementCounts(rows, nextId, pid, now);
      ViewsAdd(rows', nextId', pid, now, n - 1);
    }
  }

  // ---------------------------------------------------------------------------------------
  // site statistics

  /** The site counter `(existing.totalViews || 0)` reads: 0 before the first view. */
  function TotalViews(s: Option<SiteStats>): int {
    if s.Some? then s.value.totalViews.GetOr(0) else 0
  }

  /** incrementSiteViews: bump the existing row, or insert the first one with 1 view and 1 visitor. */
  function IncrementSite(s: Option<SiteStats>, nextId: nat, now: nat): (r: SiteStats)
    ensures r.lastUpdated == now && TotalViews(Some(r)) == TotalViews(s) + 1
    ensures s.Some? ==> r.id == s.value.id && r.uniqueVisitors == s.value.uniqueVisitors
    ensures s.None? ==> r.id == nextId && r.uniqueVisitors == Some(1)
  {
    match s
    case Some(e) => e.(totalViews := Some(e.totalViews.GetOr(0) + 1), lastUpdated := now)
    case None => SiteStats(nextId, Some(1), Some(1), now)
  }

  /** The row after `n` site views starting from `s`. */
  function SiteAfter(s: Option<SiteStats>, nextId: nat, now: nat, n: nat): Option<SiteStats>
    decreases n
  {
    if n == 0 then s
    else SiteAfter(Some(IncrementSite(s, nextId, now)), if s.None? then nextId + 1 else nextId, now, n - 1)
  }

  /**
   * Starting from no row, `n` views leave one row counting `n` views and, since nothing but
   * the first insert writes it, a single unique visitor.
   */
  lemma {:induction false} SiteViewsCount(s: Option<SiteStats>, nextId: nat, now: nat, n: nat)
    requires n > 0
    ensures SiteAfter(s, nextId, now, n).Some?
    ensures TotalViews(SiteAfter(s, nextId, now, n)) == TotalViews(s) + n
    ensures SiteAfter(s, nextId, now, n).value.uniqueVisitors == (if s.Some? then s.value.uniqueVisitors else Some(1))
    decreases n
  {
    var s' := Some(IncrementSite(s, nextId, now));
    if n > 1 {
      SiteViewsCount(s', if s.None? then nextId + 1 else nextId, now, n - 1);
    }
  }

  // ---------------------------------------------------------------------------------------
  // The store

  class DatabaseStorage {
    var users: seq<User>
    var profiles: seq<Profile>
    var viewStats: seq<ViewStats>
    var siteStats: Option<SiteStats>
    var nextProfileId: nat
    var nextViewStatsId: nat
    var nextSiteStatsId: nat

    /** The database's constraints: unique keys, and serial ids below the next one. */
    ghost predicate Valid()
      reads this
    {
      UserKeysUnique(users) && UniqueDiscordIds(profiles) && UniqueProfileIds(profiles) &&
      (forall k :: 0 <= k < |profiles| ==> profiles[k].id < nextProfileId)
    }

    constructor()
      ensures Valid()
      ensures users == [] && profiles == [] && viewStats == [] && siteStats == None
    {
      users, profiles, viewStats, siteStats := [], [], [], None;
      nextProfileId, nextViewStatsId, nextSiteStatsId := 1, 1, 1;
    }

    method GetUser(id: string) returns (u: Option<User>)
      ensures u == First(users, WithUserId(id))
    {
      u := First(users, WithUserId(id));
    }

    method UpsertUser(data: UpsertUser, now: nat) returns (r: Outcome<User>)
      requires Valid()
      modifies this
      ensures Valid()
      ensures UpsertRows(old(users), data, now).Failed? ==> r.Failed? && users == old(users)
      ensures UpsertRows(old(users), data, now).Done? ==>
        r == Done(UpsertRows(old(users), data, now).value.1) && users == UpsertRows(old(users), data, now).value.0
      ensures profiles == old(profiles) && viewStats == old(viewStats) && siteStats == old(siteStats)
      ensures nextProfileId == old(nextProfileId)
      ensures nextViewStatsId == old(nextViewStatsId) && nextSiteStatsId == old(nextSiteStatsId)
    {
      UpsertThenGet(users, data, now);
      match UpsertRows(users, data, now)
      case Failed =>
        r := Failed;
      case Done((rows, row)) =>
        users := rows;
        r := Done(row);
    }

    method GetProfile(d: string) returns (p: Option<Profile>)
      ensures p == First(profiles, WithDiscordId(d))
    {
      p := First(profiles, WithDiscordId(d));
    }

    /** Looks the slug up in shareableUrl only; a discordId is never taken for a slug. */
    method GetProfileByShareableUrl(slug: string) returns (p: Option<Profile>)
      ensures p == First(profiles, WithSlug(slug))
    {
      p := First(profiles, WithSlug(slug));
    }

    method CreateProfile(ins: ProfilePatch, now: nat) returns (r: Outcome<Profile>)
      requires Valid()
      modifies this
      ensures Valid()
      ensures r == CreateRow(old(profiles), old(nextProfileId), ins, now)
      ensures r.Done? ==> profiles == old(profiles) + [r.value] && nextProfileId == old(nextProfileId) + 1
      ensures r.Failed? ==> profiles == old(profiles) && nextProfileId == old(nextProfileId)
      ensures users == old(users) && viewStats == old(viewStats) && siteStats == old(siteStats)
      ensures nextViewStatsId == old(nextViewStatsId) && nextSiteStatsId == old(nextSiteStatsId)
    {
      CreateThenGet(profiles, nextProfileId, ins, now);
      r := CreateRow(profiles, nextProfileId, ins, now);
      if r.Done? {
        profiles := profiles + [r.value];
        nextProfileId := nextProfileId + 1;
      }
    }

    method UpdateProfile(d: string, patch: ProfilePatch, now: nat) returns (r: Outcome<Option<Profile>>)
      requires Valid()
      modifies this
      ensures Valid()
      ensures UpdateRows(old(profiles), d, patch, now).Failed? ==> r.Failed? && profiles == old(profiles)
      ensures UpdateRows(old(profiles), d, patch, now).Done? ==>
        r == Done(UpdateRows(old(profiles), d, patch, now).value.1) &&
        profiles == UpdateRows(old(profiles), d, patch, now).value.0
      ensures users == old(users) && viewStats == old(viewStats) && siteStats == old(siteStats)
      ensures nextProfileId == old(nextProfileId)
      ensures nextViewStatsId == old(nextViewStatsId) && nextSiteStatsId == old(nextSiteStatsId)
    {
      UpdateKeepsOthers(profiles, d, patch, now);
      match UpdateRows(profiles, d, patch, now)
      case Failed =>
        r := Failed;
      case Done((rows, row)) =>
        profiles := rows;
        r := Done(row);
    }

    method GetViewStats(pid: int) returns (v: Option<ViewStats>)
      ensures v == First(viewStats, OfProfile(pid))
    {
      v := First(viewStats, OfProfile(pid));
    }

    method IncrementViewCount(pid: int, now: nat) returns (r: ViewStats)
      requires Valid()
      modifies this
      ensures Valid()
      ensures (viewStats, nextViewStatsId, r) == IncrementViews(old(viewStats), old(nextViewStatsId), pid, now)
      ensures users == old(users) && profiles == old(profiles) && siteStats == old(siteStats)
      ensures nextProfileId == old(nextProfileId)
      ensures nextSiteStatsId == old(nextSiteStatsId)
    {
      var existing := GetViewStats(pid);
      if existing.Some? {
        var count := existing.value.viewCount.GetOr(0) + 1;
        viewStats := SetCount(viewStats, pid, count, now);
        r := existing.value.(viewCount := Some(count), lastViewed := now);
      } else {
        r := ViewStats(nextViewStatsId, pid, Some(1), now);
        viewStats := viewStats + [r];
        nextViewStatsId := nextViewStatsId + 1;
      }
    }

    method CreateViewStats(ins: InsertViewStats, now: nat) returns (r: ViewStats)
      requires Valid()
      modifies this
      ensures Valid()
      ensures r == ViewStatsFromInsert(old(nextViewStatsId), ins, now)
      ensures viewStats == old(viewStats) + [r] && nextViewStatsId == old(nextViewStatsId) + 1
      ensures users == old(users) && profiles == old(profiles) && siteStats == old(siteStats)
      ensures nextProfileId == old(nextProfileId)
      ensures nextSiteStatsId == old(nextSiteStatsId)
    {
      r := ViewStatsFromInsert(nextViewStatsId, ins, now);
      viewStats := viewStats + [r];
      nextViewStatsId := nextViewStatsId + 1;
    }

    method GetSiteStats() returns (s: Option<SiteStats>)
      ensures s == siteStats
    {
      s := siteStats;
    }

    method IncrementSiteViews(now: nat) returns (r: SiteStats)
      requires Valid()
      modifies this
      ensures Valid()
      ensures r == IncrementSite(old(siteStats), old(nextSiteStatsId), now) && siteStats == Some(r)
      ensures nextSiteStatsId == if old(siteStats).None? then old(nextSiteStatsId) + 1 else old(nextSiteStatsId)
      ensures users == old(users) && profiles == old(profiles) && viewStats == old(viewStats)
      ensures nextProfileId == old(nextProfileId)
      ensures nextViewStatsId == old(nextViewStatsId)
    {
      var existing := GetSiteStats();
      if existing.Some? {
        r := existing.value.(totalViews := Some(existing.value.totalViews.GetOr(0) + 1), lastUpdated := now);
      } else {
        r := SiteStats(nextSiteStatsId, Some(1), Some(1), now);
        nextSiteStatsId := nextSiteStatsId + 1;
      }
      siteStats := Some(r);
    }
  }
}
