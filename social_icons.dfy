/**
 * The row of social icons (client/src/components/social-icons.tsx): which of the nine known
 * platforms are shown for a parsed socialLinks object, in which order, and how each icon is
 * coloured in the four icon styles.
 */
module SocialIcons {
  import opened Wrappers
  import opened Strings
  import opened LinksJson

  /** One entry of the fixed platform table: its key in socialLinks and its brand colour. */
  datatype Platform = Platform(key: string, hexColor: string, name: string)

  /** The table, in display order. */
  const Platforms: seq<Platform> := [
    Platform("discord", "#5865F2", "Discord"),
    Platform("instagram", "#E4405F", "Instagram"),
    Platform("github", "#333333", "GitHub"),
    Platform("telegram", "#0088cc", "Telegram"),
    Platform("tiktok", "#000000", "TikTok"),
    Platform("spotify", "#1DB954", "Spotify"),
    Platform("snapchat", "#FFFC00", "Snapchat"),
    Platform("roblox", "#00A2FF", "Roblox"),
    Platform("youtube", "#FF0000", "YouTube")]

  const DefaultIconStyle := "default"
  const DefaultIconColor := "#8B5CF6"

  /** A platform is shown when its link is a non-empty string that is not all white space. */
  predicate Shown(links: Links, p: Platform) {
    HasLink(Lookup(links, p.key))
  }

  /** A platform's link is present and not blank. */
  predicate HasLink(v: Option<string>) {
    Truthy(v) && Trim(v.value) != ""
  }

  /**
   * The positions in `ps` from `from` on whose platform `keep` admits, in increasing order:
   * exactly those, each once.
   */
  function Positions(ps: seq<Platform>, keep: Platform -> bool, from: nat): (r: seq<nat>)
    requires from <= |ps|
    ensures forall i :: 0 <= i < |r| ==> from <= r[i] < |ps| && keep(ps[r[i]])
    ensures forall i, j :: 0 <= i < j < |r| ==> r[i] < r[j]
    ensures forall n :: from <= n < |ps| && keep(ps[n]) ==> n in r
    decreases |ps| - from
  {
    if from == |ps| then []
    else if keep(ps[from]) then [from] + Positions(ps, keep, from + 1)
    else Positions(ps, keep, from + 1)
  }

  /** The positions in the table of the shown platforms. */
  function ShownIndices(links: Links): seq<nat> {
    Positions(Platforms, p => Shown(links, p), 0)
  }

  /** filteredPlatforms: the shown platforms, in table order. */
  function Filtered(links: Links): (r: seq<Platform>)
    ensures forall p :: p in r <==> p in Platforms && Shown(links, p)
  {
    var idx := ShownIndices(links);
    var r := seq(|idx|, i requires 0 <= i < |idx| => Platforms[idx[i]]);
    assert forall p :: p in Platforms && Shown(links, p) ==> p in r by {
      forall p | p in Platforms && Shown(links, p) ensures p in r {
        var n :| 0 <= n < |Platforms| && Platforms[n] == p;
        var i :| 0 <= i < |idx| && idx[i] == n;
        assert r[i] == p;
      }
    }
    r
  }

  /** The icons appear in the table's order, whatever the order of the object's keys. */
  lemma FilteredInTableOrder(links: Links)
    ensures var idx := ShownIndices(links);
      |Filtered(links)| == |idx| &&
      (forall i :: 0 <= i < |idx| ==> Filtered(links)[i] == Platforms[idx[i]]) &&
      (forall i, j :: 0 <= i < j < |idx| ==> idx[i] < idx[j])
  {
  }

  lemma {:induction false} PositionsAgree(ps: seq<Platform>, f: Platform -> bool, g: Platform -> bool, from: nat)
    requires from <= |ps|
    requires forall n :: 0 <= n < |ps| ==> f(ps[n]) == g(ps[n])
    ensures Positions(ps, f, from) == Positions(ps, g, from)
    decreases |ps| - from
  {
    if from < |ps| {
      PositionsAgree(ps, f, g, from + 1);
    }
  }

  /** Which icons appear depends on nothing but the links of the nine known keys. */
  lemma FilteredByKnownKeys(a: Links, b: Links)
    requires forall n :: 0 <= n < |Platforms| ==> Lookup(a, Platforms[n].key) == Lookup(b, Platforms[n].key)
    ensures Filtered(a) == Filtered(b)
  {
    var f, g := p => Shown(a, p), p => Shown(b, p);
    assert forall n :: 0 <= n < |Platforms| ==> f(Platforms[n]) == g(Platforms[n]);
    PositionsAgree(Platforms, f, g, 0);
  }

  lemma {:induction false} LookupAppendOther(l: Links, k: string, v: string, key: string)
    requires key != k
    ensures Lookup(l + [(k, v)], key) == Lookup(l, key)
  {
    if l == [] {
    } else {
      assert (l + [(k, v)])[1..] == l[1..] + [(k, v)];
      LookupAppendOther(l[1..], k, v, key);
    }
  }

  /** A property under any other key is never shown and changes nothing. */
  lemma UnknownKeyIgnored(l: Links, k: string, v: string)
    requires forall n :: 0 <= n < |Platforms| ==> Platforms[n].key != k
    ensures Filtered(l + [(k, v)]) == Filtered(l)
  {
    forall n | 0 <= n < |Platforms| ensures Lookup(l + [(k, v)], Platforms[n].key) == Lookup(l, Platforms[n].key) {
      LookupAppendOther(l, k, v, Platforms[n].key);
    }
    FilteredByKnownKeys(l + [(k, v)], l);
  }

  // ---------------------------------------------------------------------------------------
  // getIconStyles

  /** The inline background (undefined when None), the glyph colour, whether the platform's own
    * background class is used, and whether the tile has the white border. */
  datatype Look = Look(background: Option<string>, iconColor: string, platformBackground: bool, bordered: bool)

  /** The dynamic style's hue for the icon at `index`. */
  function Hue(index: nat): (h: nat)
    ensures h < 360 && h % 60 == 0
  {
    (index * 60) % 360
  }

  /** Hues cycle with period six: the icon at index i has hue 60 * (i mod 6). */
  lemma {:induction false} HueCycle(index: nat)
    ensures Hue(index) == 60 * (index % 6)
    ensures Hue(index + 6) == Hue(index)
  {
    var q := index / 6;
    assert index == 6 * q + index % 6;
    assert index * 60 == 360 * q + 60 * (index % 6);
    assert (index + 6) * 60 == 360 * (q + 1) + 60 * (index % 6);
  }

  function DynamicColor(index: nat): string {
    "hsl(" + NatToDecimal(Hue(index)) + ", 70%, 60%)"
  }

  /** getIconStyles for the platform at `index` among the shown ones. */
  function IconLook(style: string, color: string, p: Platform, index: nat): (k: Look)
    ensures k.bordered <==> style == "transparent"
    ensures k.platformBackground <==> k.background.None?
  {
    if style == "transparent" then Look(Some("transparent"), p.hexColor, false, true)
    else if style == "colored" then Look(Some(color + "30"), color, false, false)
    else if style == "dynamic" then Look(Some(DynamicColor(index) + "30"), DynamicColor(index), false, false)
    else Look(None, if p.key == "snapchat" then "#000000" else "#ffffff", true, false)
  }

  /**
   * The style decides the look: the chosen colour with a "30" alpha suffix for "colored", the
   * brand colour on a clear tile for "transparent", and otherwise white glyphs on the brand
   * background, black for snapchat only.
   */
  lemma StyleLooks(color: string, p: Platform, index: nat)
    ensures IconLook("colored", color, p, index) == Look(Some(color + "30"), color, false, false)
    ensures IconLook("transparent", color, p, index).iconColor == p.hexColor
    ensures forall s :: s != "transparent" && s != "colored" && s != "dynamic" ==>
      IconLook(s, color, p, index).background.None? &&
      (IconLook(s, color, p, index).iconColor == "#000000" <==> p.key == "snapchat")
  {
  }

  /** Only the dynamic style depends on position, and there icons six places apart look alike. */
  lemma DynamicRepeats(color: string, p: Platform, q: Platform, index: nat)
    ensures IconLook("dynamic", color, p, index + 6) == IconLook("dynamic", color, q, index)
    ensures forall s, i, j :: s != "dynamic" ==> IconLook(s, color, p, i) == IconLook(s, color, p, j)
  {
    HueCycle(index);
  }

  /** One rendered link: its platform, its href and its look. */
  datatype Icon = Icon(platform: Platform, href: string, look: Look)

  /**
   * The component's output: nothing when no platform is shown; otherwise one icon per shown
   * platform, in table order, linking to its value. An undefined iconStyle or iconColor takes
   * the default.
   */
  function Render(links: Links, iconStyle: Option<string>, iconColor: Option<string>): (r: Option<seq<Icon>>)
    ensures r.None? <==> Filtered(links) == []
    ensures r.Some? ==> |r.value| == |Filtered(links)|
    ensures r.Some? ==> forall i :: 0 <= i < |r.value| ==>
      r.value[i].platform == Filtered(links)[i] && Shown(links, r.value[i].platform) &&
      Lookup(links, r.value[i].platform.key) == Some(r.value[i].href) &&
      r.value[i].look == IconLook(iconStyle.GetOr(DefaultIconStyle), iconColor.GetOr(DefaultIconColor), Filtered(links)[i], i)
  {
    var ps := Filtered(links);
    if ps == [] then None
    else
      Some(seq(|ps|, i requires 0 <= i < |ps| =>
        Icon(ps[i], Lookup(links, ps[i].key).value,
             IconLook(iconStyle.GetOr(DefaultIconStyle), iconColor.GetOr(DefaultIconColor), ps[i], i))))
  }
}
