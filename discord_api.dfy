/** The avatar address the client builds for a Discord user (client/src/lib/discord-api.ts). */
module DiscordApi {
  import opened Wrappers
  import opened Strings

  const CdnAvatars := "https://cdn.discordapp.com/avatars/"
  const CdnEmbedAvatars := "https://cdn.discordapp.com/embed/avatars/"

  /** The size parameter's default. */
  const DefaultSize: nat := 512

  /** The address of an uploaded avatar. */
  function HashedAvatarUrl(userId: string, hash: string, size: nat): string {
    CdnAvatars + (userId + "/" + hash + ".png?size=" + NatToDecimal(size))
  }

  /** The address of one of Discord's five default avatars, chosen by `parseInt(key) % 5`. */
  function EmbedAvatarUrl(key: string): string {
    CdnEmbedAvatars + (NumberText(ParseIntRemainder(key, 5)) + ".png")
  }

  /** Whatever follows the embed prefix, the address is not an uploaded-avatar address. */
  lemma {:induction false} EmbedIsNotHashed(tail: string)
    ensures StartsWith(CdnEmbedAvatars + tail, CdnEmbedAvatars)
    ensures !StartsWith(CdnEmbedAvatars + tail, CdnAvatars)
  {
    var r := CdnEmbedAvatars + tail;
    PrefixOfAppend(CdnEmbedAvatars, tail);
    assert r[27] == CdnEmbedAvatars[27] == 'e';
    assert CdnAvatars[27] == 'a';
  }

  /**
   * getDiscordAvatarUrl: an avatar hash that is not empty gives the uploaded avatar at the
   * requested size; an empty one gives the default avatar picked by the user id.
   */
  function GetDiscordAvatarUrl(userId: string, avatarHash: string, size: nat): (r: string)
    ensures avatarHash != "" ==> r == HashedAvatarUrl(userId, avatarHash, size)
    ensures avatarHash == "" ==> r == EmbedAvatarUrl(userId)
    ensures StartsWith(r, CdnAvatars) <==> avatarHash != ""
    ensures avatarHash == "" ==> StartsWith(r, CdnEmbedAvatars)
  {
    if avatarHash != "" then
      PrefixOfAppend(CdnAvatars, userId + "/" + avatarHash + ".png?size=" + NatToDecimal(size));
      HashedAvatarUrl(userId, avatarHash, size)
    else
      EmbedIsNotHashed(NumberText(ParseIntRemainder(userId, 5)) + ".png");
      EmbedAvatarUrl(userId)
  }

  /** The hashed address carries the size in decimal after "?size=", and parseInt reads it back. */
  lemma HashedUrlSize(userId: string, hash: string, size: nat)
    ensures var r := HashedAvatarUrl(userId, hash, size);
      var k := |CdnAvatars + userId + "/" + hash + ".png?size="|;
      k <= |r| && ParseInt(r[k..]) == Some(size)
  {
    var r := HashedAvatarUrl(userId, hash, size);
    var k := |CdnAvatars + userId + "/" + hash + ".png?size="|;
    assert r == (CdnAvatars + userId + "/" + hash + ".png?size=") + NatToDecimal(size);
    assert r[k..] == NatToDecimal(size);
    ParseIntOfDecimal(size);
  }

  /** A user id without '/' cannot be shorter than another that continues alike after a '/'. */
  lemma {:induction false} SlashNotEarlier(u1: string, x1: string, u2: string, x2: string)
    requires '/' !in u2
    requires u1 + "/" + x1 == u2 + "/" + x2
    ensures |u2| <= |u1|
  {
    var t := u1 + "/" + x1;
    assert t[|u1|] == '/';
    assert forall i :: 0 <= i < |u2| ==> t[i] == u2[i] != '/';
  }

  /** Two user ids without '/' that continue alike after a '/' are the same id. */
  lemma SplitAtSlash(u1: string, x1: string, u2: string, x2: string)
    requires '/' !in u1 && '/' !in u2
    requires u1 + "/" + x1 == u2 + "/" + x2
    ensures u1 == u2 && x1 == x2
  {
    SlashNotEarlier(u1, x1, u2, x2);
    SlashNotEarlier(u2, x2, u1, x1);
    var t := u1 + "/" + x1;
    assert u1 == t[..|u1|] == u2;
    assert x1 == t[|u1| + 1..] == x2;
  }

  /** An all-digit tail after a non-digit cannot be shorter than another tail of the same text. */
  lemma {:induction false} DigitTailNotShorter(h1: string, d1: string, h2: string, d2: string)
    requires h1 != [] && !IsDecimalDigit(h1[|h1| - 1])
    requires AllDecimalDigits(d2)
    requires h1 + d1 == h2 + d2
    ensures |d2| <= |d1|
  {
    var t := h1 + d1;
    assert !IsDecimalDigit(t[|h1| - 1]);
    assert forall i :: |h2| <= i < |t| ==> t[i] == d2[i - |h2|] && IsDecimalDigit(t[i]);
  }

  /** The text before an all-digit tail ending in a non-digit determines the tail. */
  lemma SplitDigitTail(h1: string, d1: string, h2: string, d2: string)
    requires h1 != [] && h2 != [] && !IsDecimalDigit(h1[|h1| - 1]) && !IsDecimalDigit(h2[|h2| - 1])
    requires AllDecimalDigits(d1) && AllDecimalDigits(d2)
    requires h1 + d1 == h2 + d2
    ensures h1 == h2 && d1 == d2
  {
    DigitTailNotShorter(h1, d1, h2, d2);
    DigitTailNotShorter(h2, d2, h1, d1);
    var t := h1 + d1;
    assert h1 == t[..|h1|] == h2;
    assert d1 == t[|h1|..] == d2;
  }

  /**
   * The uploaded-avatar address can be read back: for user ids without '/', the address
   * determines the user id, the hash and the size.
   */
  lemma HashedUrlReadsBack(u1: string, h1: string, s1: nat, u2: string, h2: string, s2: nat)
    requires '/' !in u1 && '/' !in u2
    requires HashedAvatarUrl(u1, h1, s1) == HashedAvatarUrl(u2, h2, s2)
    ensures u1 == u2 && h1 == h2 && s1 == s2
  {
    var m := ".png?size=";
    var x1, x2 := h1 + m + NatToDecimal(s1), h2 + m + NatToDecimal(s2);
    assert u1 + "/" + h1 + m + NatToDecimal(s1) == u1 + "/" + x1;
    assert u2 + "/" + h2 + m + NatToDecimal(s2) == u2 + "/" + x2;
    var r := HashedAvatarUrl(u1, h1, s1);
    assert r[|CdnAvatars|..] == u1 + "/" + x1;
    assert HashedAvatarUrl(u2, h2, s2)[|CdnAvatars|..] == u2 + "/" + x2;
    SplitAtSlash(u1, x1, u2, x2);
    SplitDigitTail(h1 + m, NatToDecimal(s1), h2 + m, NatToDecimal(s2));
    assert h1 == (h1 + m)[..|h1|] == (h2 + m)[..|h2|] == h2;
    NatToDecimalInjective(s1, s2);
  }

  /** A decimal user id always picks one of the five default avatars "0" to "4". */
  lemma EmbedIndexInRange(userId: string)
    requires userId != [] && AllDecimalDigits(userId)
    ensures EmbedAvatarUrl(userId) == CdnEmbedAvatars + [DigitChar(DecimalValue(userId) % 5)] + ".png"
    ensures 0 <= DecimalValue(userId) % 5 <= 4
  {
    ParseIntRemainderOfDigits(userId, 5);
  }
}
