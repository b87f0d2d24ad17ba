/** The splash renderer as a pure function of (settings, export mode, pointer
    position). Instead of a DOM tree it returns a plan: what the tree holds. */
module SplashScreen {
  import opened Wrappers
  import opened Types

  const CANVAS_WIDTH: nat := 700
  const CANVAS_HEIGHT: nat := 500

  /** A pointer position normalised to the workspace: (0, 0) top left,
      (1, 1) bottom right. */
  datatype Point = Point(x: real, y: real)

  const CENTRE: Point := Point(0.5, 0.5)

  predicate InUnitSquare(p: Point) {
    0.0 <= p.x <= 1.0 && 0.0 <= p.y <= 1.0
  }

  /** `perspective(1000px) rotateY(..deg) rotateX(..deg)` with its eased
      transition; angles in degrees. */
  datatype Tilt = Tilt(rotateY: real, rotateX: real)

  /** The tilt for a pointer position: 15 degrees per unit of distance from
      the centre, around the vertical axis for x and against it for y. */
  function TiltFor(p: Point): (t: Tilt)
    ensures InUnitSquare(p) ==> -7.5 <= t.rotateY <= 7.5 && -7.5 <= t.rotateX <= 7.5
    ensures t.rotateY == 0.0 <==> p.x == 0.5
    ensures t.rotateX == 0.0 <==> p.y == 0.5
    ensures t.rotateY > 0.0 <==> p.x > 0.5
    ensures t.rotateX > 0.0 <==> p.y < 0.5
    ensures p.x == 1.0 ==> t.rotateY == 7.5
    ensures p.x == 0.0 ==> t.rotateY == -7.5
    ensures p.y == 0.0 ==> t.rotateX == 7.5
    ensures p.y == 1.0 ==> t.rotateX == -7.5
  {
    var moveX := (p.x - 0.5) * 15.0;
    var moveY := (p.y - 0.5) * 15.0;
    Tilt(moveX, -moveY)
  }

  /** The background style: exactly one of the three kinds, so no two are
      ever combined. */
  datatype BackgroundStyle =
    | ColorFill(backgroundColor: string)
    | GradientFill(background: string)
    | ImageFill(backgroundImage: string, backgroundSize: string, backgroundPosition: string)

  function BackgroundStyleFor(s: SplashSettings): (b: BackgroundStyle)
    ensures b.ColorFill? <==> s.bgType == Solid
    ensures b.GradientFill? <==> s.bgType == Gradient
    ensures b.ImageFill? <==> s.bgType == Image
    ensures b.ColorFill? ==> b.backgroundColor == s.bgColor
    ensures b.GradientFill? ==> b.background == s.bgGradient
    ensures b.ImageFill? ==>
      && b.backgroundImage == "url(" + s.backgroundUrl + ")"
      && b.backgroundSize == "cover"
      && b.backgroundPosition == "center"
  {
    match s.bgType
    case Solid => ColorFill(s.bgColor)
    case Gradient => GradientFill(s.bgGradient)
    case Image => ImageFill("url(" + s.backgroundUrl + ")", "cover", "center")
  }

  /** A coloured line of text. */
  datatype Text = Text(content: string, color: string)

  /** The right-hand band. */
  datatype ArtworkSlot = NoArtworkPlaceholder | Artwork(src: string, objectFit: FitMode)

  datatype RenderPlan = RenderPlan(
    width: nat,
    height: nat,
    fontFamily: string,
    background: BackgroundStyle,
    tilt: Option<Tilt>,
    guideOverlay: bool,
    appLogo: Option<string>,
    title: Text,
    subtitle: Text,
    ccLogo: Option<string>,
    caption: Text,
    artwork: ArtworkSlot)

  /** An image slot: present only for a non-empty source. */
  function ImageSlot(src: string): (r: Option<string>)
    ensures r.Some? <==> src != ""
    ensures r.Some? ==> r.value == src
  {
    if src != "" then Some(src) else None
  }

  function ArtworkSlotFor(s: SplashSettings): (a: ArtworkSlot)
    ensures a.NoArtworkPlaceholder? <==> s.artworkUrl == ""
    ensures a.Artwork? ==> a.src == s.artworkUrl && a.objectFit == s.artworkFit
  {
    if s.artworkUrl != "" then Artwork(s.artworkUrl, s.artworkFit) else NoArtworkPlaceholder
  }

  /** The splash component. */
  function Render(s: SplashSettings, isExporting: bool, mouse: Point): (r: RenderPlan)
    ensures r.width == CANVAS_WIDTH && r.height == CANVAS_HEIGHT
    ensures r.tilt.None? <==> isExporting
    ensures r.tilt.Some? ==> r.tilt.value == TiltFor(mouse)
    ensures r.guideOverlay <==> !isExporting
    ensures r.background == BackgroundStyleFor(s)
    ensures r.appLogo.Some? <==> s.aeLogoUrl != ""
    ensures r.ccLogo.Some? <==> s.ccLogoUrl != ""
    ensures r.caption == Text(s.ccLogoText, s.ccLogoTextColor)
    ensures r.artwork.NoArtworkPlaceholder? <==> s.artworkUrl == ""
    ensures r.artwork == ArtworkSlotFor(s)
    ensures r.appLogo == ImageSlot(s.aeLogoUrl) && r.ccLogo == ImageSlot(s.ccLogoUrl)
    ensures r.title == Text(s.title, s.titleColor) && r.subtitle == Text(s.subtitle, s.subtitleColor)
    ensures r.fontFamily == s.fontFamily
  {
    RenderPlan(
      width := CANVAS_WIDTH,
      height := CANVAS_HEIGHT,
      fontFamily := s.fontFamily,
      background := BackgroundStyleFor(s),
      tilt := if isExporting then None else Some(TiltFor(mouse)),
      guideOverlay := !isExporting,
      appLogo := ImageSlot(s.aeLogoUrl),
      title := Text(s.title, s.titleColor),
      subtitle := Text(s.subtitle, s.subtitleColor),
      ccLogo := ImageSlot(s.ccLogoUrl),
      caption := Text(s.ccLogoText, s.ccLogoTextColor),
      artwork := ArtworkSlotFor(s))
  }

  /** The exported picture does not depend on where the pointer is. */
  lemma ExportIgnoresPointer(s: SplashSettings, p: Point, q: Point)
    ensures Render(s, true, p) == Render(s, true, q)
  {
  }

  /** The two modes differ only in the tilt and the guide overlay. */
  lemma ModesShareLayout(s: SplashSettings, p: Point)
    ensures Render(s, true, p) == Render(s, false, p).(tilt := None, guideOverlay := false)
  {
  }

  /** With the pointer at rest in the centre the interactive tilt is zero. */
  lemma CentreIsFlat(s: SplashSettings)
    ensures Render(s, false, CENTRE).tilt == Some(Tilt(0.0, 0.0))
  {
  }
}
