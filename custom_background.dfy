/**
 * The page background (client/src/components/custom-background.tsx): which background the
 * backgroundType column selects, the gradient class table, and whether a custom media address
 * is played as a video.
 */
module CustomBackground {
  import opened Wrappers
  import opened Strings
  import Routes

  /** The background components. */
  datatype Background =
    | CustomMedia(url: string)
    | Particles
    | Gradient(name: string)
    | Matrix
    | Stars
    | Waves
    | Geometric
    | Rain

  /** The five animated backgrounds chosen by their exact name. */
  predicate IsNamed(t: string) {
    t == "matrix" || t == "stars" || t == "waves" || t == "geometric" || t == "rain"
  }

  /**
   * CustomBackground's if-chain: custom media first (only with a non-empty address), then
   * particles for "particles" or an empty type, any "gradient-" name, the five named ones, and
   * particles for everything else.
   */
  function Choose(backgroundType: string, backgroundUrl: Option<string>): (b: Background)
    ensures b.CustomMedia? <==> backgroundType == "custom" && Truthy(backgroundUrl)
    ensures b.CustomMedia? ==> b.url == backgroundUrl.value
    ensures b.Gradient? <==> StartsWith(backgroundType, "gradient-")
    ensures b.Gradient? ==> b.name == backgroundType
    ensures b == Particles <==>
      !(backgroundType == "custom" && Truthy(backgroundUrl)) && !StartsWith(backgroundType, "gradient-") && !IsNamed(backgroundType)
  {
    if backgroundType == "custom" && Truthy(backgroundUrl) then CustomMedia(backgroundUrl.value)
    else if backgroundType == "particles" || backgroundType == "" then
      assert !StartsWith(backgroundType, "gradient-") by {
        assert backgroundType != "" ==> backgroundType[0] != "gradient-"[0];
      }
      Particles
    else if StartsWith(backgroundType, "gradient-") then Gradient(backgroundType)
    else if backgroundType == "matrix" then Matrix
    else if backgroundType == "stars" then Stars
    else if backgroundType == "waves" then Waves
    else if backgroundType == "geometric" then Geometric
    else if backgroundType == "rain" then Rain
    else Particles
  }

  /** An example of Choose's equivalences: each of the five names selects its own background. */
  lemma NamedBackgrounds(u: Option<string>)
    ensures Choose("matrix", u) == Matrix && Choose("stars", u) == Stars && Choose("waves", u) == Waves
    ensures Choose("geometric", u) == Geometric && Choose("rain", u) == Rain
  {
    assert !StartsWith("geometric", "gradient-") by {
      assert "geometric"[1] != "gradient-"[1];
    }
  }

  /** The gradient table; a "gradient-" name outside it gets no colour class. */
  function GradientClass(name: string): (c: Option<string>)
    ensures c.Some? <==> name in {"gradient-blue", "gradient-purple", "gradient-sunset", "gradient-ocean",
                                  "gradient-luxury", "gradient-elegant", "gradient-deep-black"}
  {
    if name == "gradient-blue" then Some("bg-gradient-to-br from-blue-600 via-purple-600 to-indigo-800")
    else if name == "gradient-purple" then Some("bg-gradient-to-br from-purple-600 via-pink-600 to-red-600")
    else if name == "gradient-sunset" then Some("bg-gradient-to-br from-orange-500 via-red-500 to-pink-600")
    else if name == "gradient-ocean" then Some("bg-gradient-to-br from-teal-400 via-blue-500 to-purple-600")
    else if name == "gradient-luxury" then Some("bg-gradient-to-br from-black via-purple-950 to-purple-900")
    else if name == "gradient-elegant" then Some("bg-gradient-to-br from-black via-gray-800 to-gray-600")
    else if name == "gradient-deep-black" then Some("bg-black")
    else None
  }

  /** CustomImageBackground's test: the address mentions one of four video extensions (.ogg is not one). */
  predicate IsVideo(url: string) {
    Contains(url, ".mp4") || Contains(url, ".webm") || Contains(url, ".mov") || Contains(url, ".avi")
  }

  /** An address ending in one of the four extensions is played as a video. */
  lemma VideoByExtension(name: string, ext: string)
    requires ext == ".mp4" || ext == ".webm" || ext == ".mov" || ext == ".avi"
    ensures IsVideo(name + ext)
  {
    ContainsOfAppend(name, ext, "");
    assert name + ext + "" == name + ext;
  }

  /** What CustomImageBackground renders: nothing without an address, else a video or an image. */
  datatype Media = Video(src: string) | Image(src: string)

  function MediaLayer(backgroundUrl: Option<string>): (m: Option<Media>)
    ensures m.None? <==> !Truthy(backgroundUrl)
    ensures m.Some? ==> m.value.src == backgroundUrl.value && (m.value.Video? <==> IsVideo(backgroundUrl.value))
  {
    if !Truthy(backgroundUrl) then None
    else if IsVideo(backgroundUrl.value) then Some(Video(backgroundUrl.value))
    else Some(Image(backgroundUrl.value))
  }

  /**
   * A background stored by the upload route is never displayed: the route writes the type
   * "image" or "video", which the chain does not know, so the page falls back to particles.
   */
  lemma UploadedBackgroundHidden(mimetype: string, filename: string)
    ensures Choose(Routes.BackgroundKind(mimetype), Some(Routes.UploadUrl(filename))) == Particles
  {
    var k := Routes.BackgroundKind(mimetype);
    assert k == "video" || k == "image";
    assert !StartsWith(k, "gradient-") by {
      assert k[0] != "gradient-"[0];
    }
  }

  /** The chain with the upload route's two types read as custom media, as the upload evidently means. */
  function ChooseWithUploads(backgroundType: string, backgroundUrl: Option<string>): (b: Background)
    ensures backgroundType != "image" && backgroundType != "video" ==> b == Choose(backgroundType, backgroundUrl)
  {
    if (backgroundType == "image" || backgroundType == "video") && Truthy(backgroundUrl)
    then CustomMedia(backgroundUrl.value)
    else Choose(backgroundType, backgroundUrl)
  }

  /** With that reading an uploaded background shows the stored file. */
  lemma UploadedBackgroundShown(mimetype: string, filename: string)
    ensures ChooseWithUploads(Routes.BackgroundKind(mimetype), Some(Routes.UploadUrl(filename))) == CustomMedia(Routes.UploadUrl(filename))
  {
    assert Routes.UploadUrl(filename) != "" by {
      assert |Routes.UploadUrl(filename)| >= 9;
    }
  }

  /**
   * The background a page shows, as written: the component the chain selects, and for custom
   * media what it plays.
   */
  function Shown(backgroundType: string, backgroundUrl: Option<string>): (r: (Background, Option<Media>))
    ensures r.0 == Choose(backgroundType, backgroundUrl)
    ensures r.0.CustomMedia? ==> r.1.Some? && r.1.value.src == r.0.url
    ensures r.0.CustomMedia? && IsVideo(r.0.url) ==> r.1 == Some(Video(r.0.url))
  {
    var b := Choose(backgroundType, backgroundUrl);
    (b, if b.CustomMedia? then MediaLayer(Some(b.url)) else None)
  }
}
