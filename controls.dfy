/** The control panel's updaters. Each takes the previous settings record and
    returns the next one (the `prev => ({ ...prev, ... })` callbacks); the
    panel hands them to the editor, which stores the result. */
module Controls {
  import opened Wrappers
  import opened Types
  import opened Gradients
  import opened Constants

  /** A file input changed. `file` is the object URL created for the chosen
      file, or None when the dialog closed with no file. */
  function HandleFileUpload(s: SplashSettings, k: TextKey, file: Option<string>): (r: SplashSettings)
    ensures file.None? ==> r == s
    ensures file.Some? ==> Get(r, k) == file.value && SameExcept(r, s, k)
  {
    if file.Some? then With(s, k, file.value) else s
  }

  /** The trash button: the asset becomes the empty string. */
  function ClearFile(s: SplashSettings, k: TextKey): (r: SplashSettings)
    ensures Get(r, k) == ""
    ensures SameExcept(r, s, k)
  {
    With(s, k, "")
  }

  /** The reset button: the asset goes back to its default value. */
  function ResetFile(s: SplashSettings, k: TextKey): (r: SplashSettings)
    ensures Get(r, k) == Get(DEFAULT_SETTINGS, k)
    ensures SameExcept(r, s, k)
  {
    With(s, k, Get(DEFAULT_SETTINGS, k))
  }

  lemma ClearAndResetIdempotent(s: SplashSettings, k: TextKey)
    ensures ClearFile(ClearFile(s, k), k) == ClearFile(s, k)
    ensures ResetFile(ResetFile(s, k), k) == ResetFile(s, k)
  {
  }

  /** `r` holds every value the patch sets. */
  predicate Patched(r: SplashSettings, p: PresetPatch) {
    && r.bgColor == p.bgColor
    && r.bgGradient == p.bgGradient
    && r.gradientStart == p.gradientStart
    && r.gradientEnd == p.gradientEnd
    && r.titleColor == p.titleColor
    && r.subtitleColor == p.subtitleColor
    && r.ccLogoTextColor == p.ccLogoTextColor
    && r.artworkFit == p.artworkFit
    && r.bgType == p.bgType
  }

  /** The records agree on every field no preset patch sets, the tag aside. */
  predicate SameOutsidePatch(a: SplashSettings, b: SplashSettings) {
    forall k :: !InPatch(k) && k != Preset ==> Get(a, k) == Get(b, k)
  }

  /** A preset button: the patch is merged over the record and the tag set;
      an id with no entry in the table leaves the record as it was. */
  function ApplyPreset(s: SplashSettings, id: string): (r: SplashSettings)
    ensures PresetPatchFor(id).None? ==> r == s
    ensures PresetPatchFor(id).Some? ==>
      Patched(r, PresetPatchFor(id).value) && r.preset == id && SameOutsidePatch(r, s)
  {
    match PresetPatchFor(id)
    case None => s
    case Some(p) =>
      s.(bgColor := p.bgColor, bgGradient := p.bgGradient,
         gradientStart := p.gradientStart, gradientEnd := p.gradientEnd,
         titleColor := p.titleColor, subtitleColor := p.subtitleColor,
         ccLogoTextColor := p.ccLogoTextColor, artworkFit := p.artworkFit,
         bgType := p.bgType, preset := id)
  }

  lemma ApplyPresetIdempotent(s: SplashSettings, id: string)
    ensures ApplyPreset(ApplyPreset(s, id), id) == ApplyPreset(s, id)
  {
  }

  /** Applying a known preset keeps the gradient consistent exactly when the
      preset is not `creative`, whatever the record was before. */
  lemma ApplyPresetConsistency(s: SplashSettings, id: string)
    requires PresetPatchFor(id).Some?
    ensures Consistent(ApplyPreset(s, id)) <==> id != Creative.Id()
  {
    PresetGradients(id);
  }

  /** The gradient keys: the two colours and the string derived from them. */
  predicate IsGradientKey(k: TextKey) {
    k == BgGradient || k == GradientStart || k == GradientEnd
  }

  /** Both colours change together and the gradient string is rebuilt from
      them; nothing else changes. */
  function UpdateGradient(s: SplashSettings, start: string, end: string): (r: SplashSettings)
    ensures r.gradientStart == start && r.gradientEnd == end
    ensures Consistent(r)
    ensures r.artworkFit == s.artworkFit && r.bgType == s.bgType
    ensures forall k :: !IsGradientKey(k) ==> Get(r, k) == Get(s, k)
  {
    s.(gradientStart := start, gradientEnd := end, bgGradient := LinearGradient(start, end))
  }

  lemma UpdateGradientIdempotent(s: SplashSettings, start: string, end: string)
    ensures UpdateGradient(UpdateGradient(s, start, end), start, end) == UpdateGradient(s, start, end)
  {
  }

  /** After a gradient update the gradient string names exactly the two
      colours picked, at 0% and 100%. */
  lemma UpdateGradientStops(s: SplashSettings, start: string, end: string)
    requires IsHexColor(start) && IsHexColor(end)
    ensures Stops(UpdateGradient(s, start, end).bgGradient) == Some((start, end))
  {
    StopsRoundTrip(start, end);
  }

  /** The start-colour picker keeps the current end colour and, through the
      gradient update, every field outside the gradient. */
  function PickGradientStart(s: SplashSettings, c: string): (r: SplashSettings)
    ensures r.gradientStart == c && r.gradientEnd == s.gradientEnd && Consistent(r)
    ensures r.artworkFit == s.artworkFit && r.bgType == s.bgType
    ensures forall k :: !IsGradientKey(k) ==> Get(r, k) == Get(s, k)
    ensures r == UpdateGradient(s, c, s.gradientEnd)
  {
    UpdateGradient(s, c, s.gradientEnd)
  }

  /** The end-colour picker keeps the current start colour and, through the
      gradient update, every field outside the gradient. */
  function PickGradientEnd(s: SplashSettings, c: string): (r: SplashSettings)
    ensures r.gradientEnd == c && r.gradientStart == s.gradientStart && Consistent(r)
    ensures r.artworkFit == s.artworkFit && r.bgType == s.bgType
    ensures forall k :: !IsGradientKey(k) ==> Get(r, k) == Get(s, k)
    ensures r == UpdateGradient(s, s.gradientStart, c)
  {
    UpdateGradient(s, s.gradientStart, c)
  }

  /** Picking the two colours one after the other, in either order, is one
      gradient update. */
  lemma PickersCommute(s: SplashSettings, a: string, b: string)
    ensures PickGradientEnd(PickGradientStart(s, a), b) == UpdateGradient(s, a, b)
    ensures PickGradientStart(PickGradientEnd(s, b), a) == UpdateGradient(s, a, b)
  {
  }

  /** The export button is disabled while an export is in flight. */
  predicate ExportEnabled(isExporting: bool) {
    !isExporting
  }

  /** Everything the panel can do to the settings record. */
  datatype Update =
    | Upload(key: TextKey, file: Option<string>)
    | Clear(key: TextKey)
    | Reset(key: TextKey)
    | ApplyPresetId(id: string)
    | PickStart(color: string)
    | PickEnd(color: string)
    | SetText(key: TextKey, value: string)
    | SetBackgroundType(bgType: BackgroundType)
    | SetArtworkFit(fit: FitMode)

  /** The text keys an update may write. */
  function Writes(u: Update): set<TextKey> {
    match u
    case Upload(k, _) => {k}
    case Clear(k) => {k}
    case Reset(k) => {k}
    case SetText(k, _) => {k}
    case ApplyPresetId(_) =>
      {BgColor, BgGradient, GradientStart, GradientEnd, TitleColor, SubtitleColor, CcLogoTextColor, Preset}
    case PickStart(_) => {BgGradient, GradientStart, GradientEnd}
    case PickEnd(_) => {BgGradient, GradientStart, GradientEnd}
    case SetBackgroundType(_) => {}
    case SetArtworkFit(_) => {}
  }

  /** An update changes no text field outside `Writes(u)`, and only a preset
      or the matching setter changes an enum field. A typed value lands in
      its field, and every other update is exactly the updater it names. */
  function Apply(s: SplashSettings, u: Update): (r: SplashSettings)
    ensures forall k :: k !in Writes(u) ==> Get(r, k) == Get(s, k)
    ensures u.SetText? ==> Get(r, u.key) == u.value
    ensures u.Upload? ==> r == HandleFileUpload(s, u.key, u.file)
    ensures u.Clear? ==> r == ClearFile(s, u.key)
    ensures u.Reset? ==> r == ResetFile(s, u.key)
    ensures u.ApplyPresetId? ==> r == ApplyPreset(s, u.id)
    ensures u.PickStart? ==> r == PickGradientStart(s, u.color)
    ensures u.PickEnd? ==> r == PickGradientEnd(s, u.color)
    ensures !(u.ApplyPresetId? || u.SetBackgroundType?) ==> r.bgType == s.bgType
    ensures !(u.ApplyPresetId? || u.SetArtworkFit?) ==> r.artworkFit == s.artworkFit
    ensures u.SetBackgroundType? ==> r.bgType == u.bgType
    ensures u.SetArtworkFit? ==> r.artworkFit == u.fit
  {
    match u
    case Upload(k, file) => HandleFileUpload(s, k, file)
    case Clear(k) => ClearFile(s, k)
    case Reset(k) => ResetFile(s, k)
    case ApplyPresetId(id) => ApplyPreset(s, id)
    case PickStart(c) => PickGradientStart(s, c)
    case PickEnd(c) => PickGradientEnd(s, c)
    case SetText(k, v) => With(s, k, v)
    case SetBackgroundType(t) => s.(bgType := t)
    case SetArtworkFit(m) => s.(artworkFit := m)
  }

  /** The updates that can leave the gradient string out of step with its
      colours: writing one of the three gradient keys directly, and the
      creative preset. */
  predicate MayBreakGradient(u: Update) {
    match u
    case Upload(k, _) => IsGradientKey(k)
    case Clear(k) => IsGradientKey(k)
    case Reset(k) => IsGradientKey(k)
    case SetText(k, _) => IsGradientKey(k)
    case ApplyPresetId(id) => id == Creative.Id()
    case _ => false
  }

  /** Every other update keeps a consistent record consistent. */
  lemma {:induction false} ApplyKeepsConsistency(s: SplashSettings, u: Update)
    requires Consistent(s) && !MayBreakGradient(u)
    ensures Consistent(Apply(s, u))
  {
    match u
    case Upload(k, _) =>
      assert !IsGradientKey(k);
    case Clear(k) =>
      assert !IsGradientKey(k);
    case Reset(k) =>
      assert !IsGradientKey(k);
    case SetText(k, _) =>
      assert !IsGradientKey(k);
    case ApplyPresetId(id) =>
      if PresetPatchFor(id).Some? {
        ApplyPresetConsistency(s, id);
      }
    case _ =>
  }

  /** The updates the panel's widgets actually issue: uploads and clears of
      the artwork, app-logo and background image, resets of the first two,
      the four preset buttons, the two gradient pickers, the title, subtitle,
      their colours and the solid colour, and the two segmented controls. */
  predicate PanelIssues(u: Update) {
    match u
    case Upload(k, _) => k == ArtworkUrl || k == AeLogoUrl || k == BackgroundUrl
    case Clear(k) => k == ArtworkUrl || k == AeLogoUrl || k == BackgroundUrl
    case Reset(k) => k == ArtworkUrl || k == AeLogoUrl
    case ApplyPresetId(id) => PresetFromId(id).Some?
    case SetText(k, _) => k == Title || k == Subtitle || k == TitleColor || k == SubtitleColor || k == BgColor
    case _ => true
  }

  /** Of everything the panel does, only the creative preset button can
      take a consistent record out of step with its gradient colours. */
  lemma {:induction false} PanelKeepsConsistency(s: SplashSettings, u: Update)
    requires Consistent(s) && PanelIssues(u)
    ensures Consistent(Apply(s, u)) <==> u != ApplyPresetId(Creative.Id())
  {
    if u.ApplyPresetId? {
      ApplyPresetConsistency(s, u.id);
    } else {
      ApplyKeepsConsistency(s, u);
    }
  }

  /** The creative preset breaks consistency from every record, and the next
      move of either colour picker restores it. */
  lemma CreativeBreaksConsistency(s: SplashSettings, c: string)
    ensures !Consistent(ApplyPreset(s, Creative.Id()))
    ensures Consistent(PickGradientStart(ApplyPreset(s, Creative.Id()), c))
    ensures Consistent(PickGradientEnd(ApplyPreset(s, Creative.Id()), c))
  {
  }
}
