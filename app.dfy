/** The editor shell: it owns the settings, the export flag, the normalised
    pointer position and the display scale, fits the 700x500 canvas into the
    workspace and runs the export sequence. */
module App {
  import opened Wrappers
  import opened Types
  import opened Constants
  import opened Controls
  import opened SplashScreen

  /** Space kept free around the canvas in the workspace, in CSS pixels. */
  const PADDING: real := 64.0

  /** `k` is a display scale at which the canvas fits the workspace without
      being enlarged. */
  predicate Fits(k: real, width: real, height: real) {
    && k <= 1.0
    && k * (CANVAS_WIDTH as real) <= width - PADDING
    && k * (CANVAS_HEIGHT as real) <= height - PADDING
  }

  function Min(a: real, b: real): real {
    if a <= b then a else b
  }

  /** `Math.min(1, (width - 64) / 700, (height - 64) / 500)`: the largest
      scale at which the canvas fits. There is no lower clamp, so a workspace
      no larger than the padding gets a scale of zero or less. */
  function FitScale(width: real, height: real): (scale: real)
    ensures Fits(scale, width, height)
    ensures forall k :: Fits(k, width, height) ==> k <= scale
    ensures scale > 0.0 <==> width > PADDING && height > PADDING
  {
    var scaleW := (width - PADDING) / (CANVAS_WIDTH as real);
    var scaleH := (height - PADDING) / (CANVAS_HEIGHT as real);
    Min(1.0, Min(scaleW, scaleH))
  }

  lemma FitScaleExamples()
    ensures FitScale(900.0, 700.0) == 1.0
    ensures FitScale(600.0, 400.0) == 0.672
  {
  }

  /** `getBoundingClientRect()` of the workspace. */
  datatype ClientRect = ClientRect(left: real, top: real, width: real, height: real)

  predicate Inside(clientX: real, clientY: real, rect: ClientRect) {
    && rect.left <= clientX <= rect.left + rect.width
    && rect.top <= clientY <= rect.top + rect.height
  }

  /** The pointer position relative to the workspace, as fractions of its
      width and height. */
  function PointerPosition(clientX: real, clientY: real, rect: ClientRect): (p: Point)
    requires rect.width > 0.0 && rect.height > 0.0
    ensures p.x * rect.width == clientX - rect.left
    ensures p.y * rect.height == clientY - rect.top
    ensures InUnitSquare(p) <==> Inside(clientX, clientY, rect)
  {
    var x := (clientX - rect.left) / rect.width;
    var y := (clientY - rect.top) / rect.height;
    FractionInUnit(clientX - rect.left, rect.width);
    FractionInUnit(clientY - rect.top, rect.height);
    Point(x, y)
  }

  lemma FractionInUnit(d: real, w: real)
    requires w > 0.0
    ensures (d / w) * w == d
    ensures 0.0 <= d / w <= 1.0 <==> 0.0 <= d <= w
  {
  }

  /** A pointer inside the workspace tilts the canvas by at most 7.5 degrees
      around either axis. */
  lemma PointerTiltBounded(clientX: real, clientY: real, rect: ClientRect)
    requires rect.width > 0.0 && rect.height > 0.0
    requires Inside(clientX, clientY, rect)
    ensures var t := TiltFor(PointerPosition(clientX, clientY, rect));
      -7.5 <= t.rotateY <= 7.5 && -7.5 <= t.rotateX <= 7.5
  {
  }

  // ---- export file names ----

  predicate IsDigit(c: char) {
    '0' <= c <= '9'
  }

  predicate AllDigits(s: string) {
    forall i :: 0 <= i < |s| ==> IsDigit(s[i])
  }

  function DigitChar(d: nat): (c: char)
    requires d < 10
    ensures IsDigit(c) && c as int - '0' as int == d
  {
    ('0' as int + d) as char
  }

  /** The decimal digits of a number, as a template literal prints it. */
  function Decimal(n: nat): (s: string)
    ensures |s| >= 1 && AllDigits(s)
    ensures s[0] == '0' ==> n == 0
    decreases n
  {
    if n < 10 then [DigitChar(n)] else Decimal(n / 10) + [DigitChar(n % 10)]
  }

  /** The number a string of decimal digits denotes. */
  function DigitsValue(s: string): nat
    requires AllDigits(s)
  {
    if s == [] then 0 else DigitsValue(s[..|s| - 1]) * 10 + (s[|s| - 1] as int - '0' as int)
  }

  lemma {:induction false} DecimalRoundTrip(n: nat)
    ensures DigitsValue(Decimal(n)) == n
    decreases n
  {
    if n >= 10 {
      var s := Decimal(n);
      assert s[..|s| - 1] == Decimal(n / 10);
      DecimalRoundTrip(n / 10);
    }
  }

  const FILE_PREFIX: string := "AE-Splash-"
  const FILE_SUFFIX: string := ".png"

  /** The name of the downloaded file for an export finished at `now`
      (milliseconds since the epoch). */
  function ExportFileName(now: nat): (name: string)
    ensures |name| == |FILE_PREFIX| + |Decimal(now)| + |FILE_SUFFIX|
    ensures name[..|FILE_PREFIX|] == FILE_PREFIX
    ensures name[|name| - |FILE_SUFFIX|..] == FILE_SUFFIX
    ensures name[|FILE_PREFIX|..|name| - |FILE_SUFFIX|] == Decimal(now)
  {
    FILE_PREFIX + Decimal(now) + FILE_SUFFIX
  }

  /** Reads the timestamp back out of an export file name. */
  function ExportTimestamp(name: string): (r: Option<nat>)
    ensures r.Some? ==> name == ExportFileName(r.value)
  {
    if |name| > |FILE_PREFIX| + |FILE_SUFFIX|
       && name[..|FILE_PREFIX|] == FILE_PREFIX
       && name[|name| - |FILE_SUFFIX|..] == FILE_SUFFIX
    then
      var digits := name[|FILE_PREFIX|..|name| - |FILE_SUFFIX|];
      if AllDigits(digits) && Decimal(DigitsValue(digits)) == digits then
        assert name == name[..|FILE_PREFIX|] + digits + name[|name| - |FILE_SUFFIX|..];
        Some(DigitsValue(digits))
      else
        None
    else
      None
  }

  lemma ExportTimestampRoundTrip(now: nat)
    ensures ExportTimestamp(ExportFileName(now)) == Some(now)
  {
    var name := ExportFileName(now);
    var digits := Decimal(now);
    assert name[..|FILE_PREFIX|] == FILE_PREFIX;
    assert name[|name| - |FILE_SUFFIX|..] == FILE_SUFFIX;
    assert name[|FILE_PREFIX|..|name| - |FILE_SUFFIX|] == digits;
    DecimalRoundTrip(now);
  }

  /** Distinct export times give distinct file names. */
  lemma ExportFileNameInjective(a: nat, b: nat)
    requires ExportFileName(a) == ExportFileName(b)
    ensures a == b
  {
    ExportTimestampRoundTrip(a);
    ExportTimestampRoundTrip(b);
  }

  // ---- capture ----

  /** The options handed to the rasterising library; a transparent background
      stands for `backgroundColor: null`. */
  datatype CaptureOptions = CaptureOptions(
    width: nat, height: nat, scale: real,
    useCors: bool, transparentBackground: bool, logging: bool)

  const CAPTURE_OPTIONS: CaptureOptions :=
    CaptureOptions(CANVAS_WIDTH, CANVAS_HEIGHT, 1.0, true, true, false)

  /** An opaque handle on the bitmap the library produced. */
  datatype Canvas = Canvas(handle: nat)

  /** What the library call does: resolves with a canvas, resolves with
      nothing (a falsy value), or throws. */
  datatype LibraryOutcome = Resolved(canvas: Canvas) | ResolvedEmpty | Threw

  /** `captureCanvas`: no target element or a throwing library gives no
      canvas; otherwise the library's canvas for the fixed options. */
  function CaptureCanvas(mounted: bool, html2canvas: CaptureOptions -> LibraryOutcome): (r: Option<Canvas>)
    ensures r.None? <==> !mounted || !html2canvas(CAPTURE_OPTIONS).Resolved?
    ensures r.Some? ==> html2canvas(CAPTURE_OPTIONS) == Resolved(r.value)
  {
    if !mounted then None
    else match html2canvas(CAPTURE_OPTIONS)
      case Resolved(c) => Some(c)
      case ResolvedEmpty => None
      case Threw => None
  }

  /** The capture is at 1:1 and at the canvas's own size, whatever the
      display scale. */
  lemma CaptureAtCanvasSize(s: SplashSettings, isExporting: bool, mouse: Point)
    ensures CAPTURE_OPTIONS.width == Render(s, isExporting, mouse).width
    ensures CAPTURE_OPTIONS.height == Render(s, isExporting, mouse).height
    ensures CAPTURE_OPTIONS.scale == 1.0
  {
  }

  class Editor {
    var settings: SplashSettings
    var isExporting: bool
    var mouse: Point
    var scale: real
    /** The names of the files downloaded so far, oldest first. */
    var downloads: seq<string>
    /** How many failure notices have been shown. */
    var alerts: nat
    /** An export handler is still running: set by a click that starts an
        export and cleared when that export settles, so each click is
        followed by at most one capture. */
    ghost var pending: bool

    /** Every download is named after the time of its export. */
    predicate Valid()
      reads this`downloads
    {
      forall d :: d in downloads ==> ExportTimestamp(d).Some?
    }

    constructor ()
      ensures Valid()
      ensures settings == DEFAULT_SETTINGS && !isExporting && mouse == CENTRE && scale == 1.0
      ensures downloads == [] && alerts == 0 && !pending
    {
      settings := DEFAULT_SETTINGS;
      isExporting := false;
      mouse := CENTRE;
      scale := 1.0;
      downloads := [];
      alerts := 0;
      pending := false;
    }

    /** What the splash component currently shows: the current settings,
        tilted by the pointer only while no export is in flight. */
    function Plan(): (r: RenderPlan)
      reads this`settings, this`isExporting, this`mouse
      ensures r.tilt.None? <==> isExporting
      ensures !isExporting ==> r.tilt == Some(TiltFor(mouse))
      ensures r.guideOverlay <==> !isExporting
      ensures r.background == BackgroundStyleFor(settings)
      ensures r.artwork == ArtworkSlotFor(settings)
      ensures r.title == Text(settings.title, settings.titleColor)
    {
      Render(settings, isExporting, mouse)
    }

    /** A resize: with a workspace element the scale is refitted to its size,
        without one nothing happens. */
    method UpdateScale(workspace: Option<(real, real)>)
      modifies this`scale
      ensures workspace.None? ==> scale == old(scale)
      ensures workspace.Some? ==> scale == FitScale(workspace.value.0, workspace.value.1)
    {
      if workspace.Some? {
        var (width, height) := workspace.value;
        scale := FitScale(width, height);
      }
    }

    /** Pointer movement over the workspace; ignored while exporting. */
    method MouseMove(clientX: real, clientY: real, rect: ClientRect)
      requires rect.width > 0.0 && rect.height > 0.0
      modifies this`mouse
      ensures isExporting ==> mouse == old(mouse)
      ensures !isExporting ==> mouse == PointerPosition(clientX, clientY, rect)
    {
      if isExporting {
        return;
      }
      mouse := PointerPosition(clientX, clientY, rect);
    }

    /** The pointer left the workspace: back to the centre, even mid-export. */
    method MouseLeave()
      modifies this`mouse
      ensures mouse == CENTRE
    {
      mouse := CENTRE;
    }

    /** A click on the export button. The button is disabled while an export
        is in flight, so only a click from idle starts one. */
    method ExportClick() returns (started: bool)
      modifies this`isExporting, this`pending
      ensures started <==> ExportEnabled(old(isExporting))
      ensures isExporting
      ensures pending == (started || old(pending))
    {
      started := ExportEnabled(isExporting);
      if started {
        isExporting := true;
        pending := true;
      }
    }

    /** The rest of the export once capture has settled: one download when a
        canvas came back, one failure notice otherwise, and back to idle in
        both cases. `packagingThrows` says that turning the canvas into a
        download threw (`toDataURL` on a tainted canvas, say); the handler has
        no `finally`, so the exception leaves the handler before the flag is
        cleared and the editor stays in the exporting state, with no handler
        left to capture again until a reload. */
    method FinishExport(mounted: bool, html2canvas: CaptureOptions -> LibraryOutcome, now: nat,
                        packagingThrows: bool)
      requires isExporting && pending && Valid()
      modifies this`isExporting, this`downloads, this`alerts, this`pending
      ensures Valid() && !pending
      ensures CaptureCanvas(mounted, html2canvas).Some? && !packagingThrows ==>
        downloads == old(downloads) + [ExportFileName(now)] && alerts == old(alerts) && !isExporting
      ensures CaptureCanvas(mounted, html2canvas).Some? && packagingThrows ==>
        downloads == old(downloads) && alerts == old(alerts) && isExporting
      ensures CaptureCanvas(mounted, html2canvas).None? ==>
        downloads == old(downloads) && alerts == old(alerts) + 1 && !isExporting
    {
      pending := false;
      var canvas := CaptureCanvas(mounted, html2canvas);
      if canvas.Some? {
        if packagingThrows {
          return;
        }
        ExportTimestampRoundTrip(now);
        downloads := downloads + [ExportFileName(now)];
      } else {
        alerts := alerts + 1;
      }
      isExporting := false;
    }

    /** A control writes the settings through one of its updaters. */
    method Dispatch(u: Update)
      modifies this`settings
      ensures settings == Apply(old(settings), u)
    {
      settings := Apply(settings, u);
    }
  }

  /** One successful and one failed export, as a user would drive them. */
  method ExportSequence()
  {
    var editor := new Editor();
    var started := editor.ExportClick();
    assert started && editor.isExporting;
    assert editor.Plan().tilt.None? && !editor.Plan().guideOverlay;

    var again := editor.ExportClick();
    assert !again && editor.isExporting;

    editor.MouseMove(10.0, 20.0, ClientRect(0.0, 0.0, 100.0, 100.0));
    assert editor.mouse == CENTRE;

    editor.FinishExport(true, _ => Resolved(Canvas(1)), 1760000000000, false);
    assert !editor.isExporting && |editor.downloads| == 1 && editor.alerts == 0;

    started := editor.ExportClick();
    editor.FinishExport(true, _ => Threw, 1760000005000, false);
    assert !editor.isExporting && |editor.downloads| == 1 && editor.alerts == 1;
  }
}
