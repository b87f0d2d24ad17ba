/** The value types of the splash editor: the two string enums, the preset ids
    and the settings record that every control edits and the renderer reads. */
module Types {
  import opened Wrappers

  /** How the canvas background is painted; `Value` is the enum's string value. */
  datatype BackgroundType = Solid | Gradient | Image {
    function Value(): string {
      match this
      case Solid => "solid"
      case Gradient => "gradient"
      case Image => "image"
    }
  }

  /** Reads a background type from its string value, as the segmented control
      does when it casts its three labels to the enum. */
  function BackgroundTypeFromValue(v: string): (r: Option<BackgroundType>)
    ensures r.Some? <==> (v == "solid" || v == "gradient" || v == "image")
    ensures r.Some? ==> r.value.Value() == v
  {
    if v == "solid" then Some(Solid)
    else if v == "gradient" then Some(Gradient)
    else if v == "image" then Some(Image)
    else None
  }

  lemma BackgroundTypeRoundTrip(t: BackgroundType)
    ensures BackgroundTypeFromValue(t.Value()) == Some(t)
  {
  }

  /** CSS object-fit of the artwork image. */
  datatype FitMode = Contain | Cover {
    function Value(): string {
      match this
      case Contain => "contain"
      case Cover => "cover"
    }
  }

  function FitModeFromValue(v: string): (r: Option<FitMode>)
    ensures r.Some? <==> (v == "contain" || v == "cover")
    ensures r.Some? ==> r.value.Value() == v
  {
    if v == "contain" then Some(Contain)
    else if v == "cover" then Some(Cover)
    else None
  }

  lemma FitModeRoundTrip(m: FitMode)
    ensures FitModeFromValue(m.Value()) == Some(m)
  {
  }

  /** The four preset ids. The settings record stores its preset tag as a plain
      string, so a tag need not be one of these. */
  datatype PresetId = Dark | Light | Neon | Creative {
    function Id(): string {
      match this
      case Dark => "dark"
      case Light => "light"
      case Neon => "neon"
      case Creative => "creative"
    }
  }

  function PresetFromId(id: string): (r: Option<PresetId>)
    ensures r.Some? <==> (id == "dark" || id == "light" || id == "neon" || id == "creative")
    ensures r.Some? ==> r.value.Id() == id
  {
    if id == "dark" then Some(Dark)
    else if id == "light" then Some(Light)
    else if id == "neon" then Some(Neon)
    else if id == "creative" then Some(Creative)
    else None
  }

  lemma PresetRoundTrip(p: PresetId)
    ensures PresetFromId(p.Id()) == Some(p)
  {
  }

  /** Every field is present; a missing asset is the empty string. */
  datatype SplashSettings = SplashSettings(
    aeLogoUrl: string,
    ccLogoUrl: string,
    artworkUrl: string,
    artworkFit: FitMode,
    backgroundUrl: string,
    bgType: BackgroundType,
    bgColor: string,
    bgGradient: string,
    gradientStart: string,
    gradientEnd: string,
    title: string,
    subtitle: string,
    ccLogoText: string,
    titleColor: string,
    subtitleColor: string,
    ccLogoTextColor: string,
    preset: string,
    fontFamily: string)

  /** The keys of the settings record whose values are strings: the keys the
      generic updaters (`[field]: value`) can write without leaving the type. */
  datatype TextKey =
    | AeLogoUrl | CcLogoUrl | ArtworkUrl | BackgroundUrl
    | BgColor | BgGradient | GradientStart | GradientEnd
    | Title | Subtitle | CcLogoText
    | TitleColor | SubtitleColor | CcLogoTextColor
    | Preset | FontFamily

  /** `s[k]` */
  function Get(s: SplashSettings, k: TextKey): string {
    match k
    case AeLogoUrl => s.aeLogoUrl
    case CcLogoUrl => s.ccLogoUrl
    case ArtworkUrl => s.artworkUrl
    case BackgroundUrl => s.backgroundUrl
    case BgColor => s.bgColor
    case BgGradient => s.bgGradient
    case GradientStart => s.gradientStart
    case GradientEnd => s.gradientEnd
    case Title => s.title
    case Subtitle => s.subtitle
    case CcLogoText => s.ccLogoText
    case TitleColor => s.titleColor
    case SubtitleColor => s.subtitleColor
    case CcLogoTextColor => s.ccLogoTextColor
    case Preset => s.preset
    case FontFamily => s.fontFamily
  }

  /** The two records agree on every field except possibly `k`. */
  predicate SameExcept(a: SplashSettings, b: SplashSettings, k: TextKey) {
    && a.artworkFit == b.artworkFit
    && a.bgType == b.bgType
    && forall g :: g != k ==> Get(a, g) == Get(b, g)
  }

  /** A record is determined by its two enum fields and its sixteen strings. */
  lemma {:induction false} Extensionality(a: SplashSettings, b: SplashSettings)
    requires a.artworkFit == b.artworkFit && a.bgType == b.bgType
    requires forall k :: Get(a, k) == Get(b, k)
    ensures a == b
  {
    assert Get(a, AeLogoUrl) == Get(b, AeLogoUrl) && Get(a, CcLogoUrl) == Get(b, CcLogoUrl);
    assert Get(a, ArtworkUrl) == Get(b, ArtworkUrl) && Get(a, BackgroundUrl) == Get(b, BackgroundUrl);
    assert Get(a, BgColor) == Get(b, BgColor) && Get(a, BgGradient) == Get(b, BgGradient);
    assert Get(a, GradientStart) == Get(b, GradientStart) && Get(a, GradientEnd) == Get(b, GradientEnd);
    assert Get(a, Title) == Get(b, Title) && Get(a, Subtitle) == Get(b, Subtitle);
    assert Get(a, CcLogoText) == Get(b, CcLogoText) && Get(a, TitleColor) == Get(b, TitleColor);
    assert Get(a, SubtitleColor) == Get(b, SubtitleColor);
    assert Get(a, CcLogoTextColor) == Get(b, CcLogoTextColor);
    assert Get(a, Preset) == Get(b, Preset) && Get(a, FontFamily) == Get(b, FontFamily);
  }

  /** `{ ...s, [k]: v }` */
  function With(s: SplashSettings, k: TextKey, v: string): (r: SplashSettings)
    ensures Get(r, k) == v
    ensures SameExcept(r, s, k)
  {
    match k
    case AeLogoUrl => s.(aeLogoUrl := v)
    case CcLogoUrl => s.(ccLogoUrl := v)
    case ArtworkUrl => s.(artworkUrl := v)
    case BackgroundUrl => s.(backgroundUrl := v)
    case BgColor => s.(bgColor := v)
    case BgGradient => s.(bgGradient := v)
    case GradientStart => s.(gradientStart := v)
    case GradientEnd => s.(gradientEnd := v)
    case Title => s.(title := v)
    case Subtitle => s.(subtitle := v)
    case CcLogoText => s.(ccLogoText := v)
    case TitleColor => s.(titleColor := v)
    case SubtitleColor => s.(subtitleColor := v)
    case CcLogoTextColor => s.(ccLogoTextColor := v)
    case Preset => s.(preset := v)
    case FontFamily => s.(fontFamily := v)
  }

  /** Writing a field's own value back changes nothing; writing twice keeps the
      second value. */
  lemma WithLaws(s: SplashSettings, k: TextKey, v: string, w: string)
    ensures With(s, k, Get(s, k)) == s
    ensures With(With(s, k, v), k, w) == With(s, k, w)
  {
  }
}
