/**
 * The "now playing" card (client/src/components/now-playing.tsx): when it shows, the tag it
 * gives the audio source, its title line and its open-source button.
 */
module NowPlaying {
  import opened Wrappers
  import opened Strings

  /** The badge next to the music icon. */
  datatype SourceTag = YouTube | Spotify | Generic

  /** getSourceIcon: YouTube wins over Spotify; any other address gets the plain music icon. */
  function SourceIcon(url: string): (t: SourceTag)
    ensures t == YouTube <==> Contains(url, "youtube.com") || Contains(url, "youtu.be")
    ensures t == Spotify <==> !Contains(url, "youtube.com") && !Contains(url, "youtu.be") && Contains(url, "spotify.com")
  {
    if Contains(url, "youtube.com") || Contains(url, "youtu.be") then YouTube
    else if Contains(url, "spotify.com") then Spotify
    else Generic
  }

  /** Any address that mentions youtu.be is tagged YouTube, whatever else it mentions. */
  lemma ShortYouTubeLinks(a: string, b: string)
    ensures SourceIcon(a + "youtu.be" + b) == YouTube
  {
    ContainsOfAppend(a, "youtu.be", b);
  }

  /** An address mentioning spotify.com is tagged Spotify unless it also mentions YouTube. */
  lemma SpotifyLinks(a: string, b: string)
    ensures SourceIcon(a + "spotify.com" + b) != Generic
  {
    ContainsOfAppend(a, "spotify.com", b);
  }

  /** The title shown when the profile has none ("custom music"). */
  const FallbackTitle := "موسيقى مخصصة"

  /** What the card shows: the title line, the source badge, and whether the open button is there. */
  datatype Card = Card(title: string, tag: Option<SourceTag>, openButton: bool)

  /** The card, or None when neither a title nor an address is set. */
  function Render(audioTitle: Option<string>, audioUrl: Option<string>): (c: Option<Card>)
    ensures c.None? <==> !Truthy(audioTitle) && !Truthy(audioUrl)
    ensures c.Some? && Truthy(audioTitle) ==> c.value.title == audioTitle.value
    ensures c.Some? && !Truthy(audioTitle) ==> c.value.title == FallbackTitle
    ensures c.Some? ==> (c.value.openButton <==> Truthy(audioUrl))
    ensures c.Some? ==> (c.value.tag.Some? <==> Truthy(audioUrl))
    ensures c.Some? && Truthy(audioUrl) ==> c.value.tag == Some(SourceIcon(audioUrl.value))
  {
    if !Truthy(audioTitle) && !Truthy(audioUrl) then None
    else Some(Card(OrElse(audioTitle, FallbackTitle),
                   if Truthy(audioUrl) then Some(SourceIcon(audioUrl.value)) else None,
                   Truthy(audioUrl)))
  }

  /** openSource: the address opened in a new tab, if any. */
  function OpenSource(audioUrl: Option<string>): (u: Option<string>)
    ensures u.Some? <==> Truthy(audioUrl)
    ensures u.Some? ==> u == audioUrl
  {
    if Truthy(audioUrl) then audioUrl else None
  }
}
