/** The default settings the session starts from and the preset table: four
    partial records keyed by preset id. */
module Constants {
  import opened Wrappers
  import opened Types
  import opened Gradients

  const DEFAULT_SETTINGS: SplashSettings := SplashSettings(
    aeLogoUrl := "https://upload.wikimedia.org/wikipedia/commons/c/cb/Adobe_After_Effects_CC_icon.svg",
    ccLogoUrl := "https://upload.wikimedia.org/wikipedia/commons/4/4c/Adobe_Creative_Cloud_rainbow_icon.svg",
    artworkUrl := "https://picsum.photos/seed/ae-splash/400/500",
    artworkFit := Cover,
    backgroundUrl := "",
    bgType := Gradient,
    bgColor := "#1a1a1a",
    bgGradient := "linear-gradient(135deg, #1a1a1a 0%, #000000 100%)",
    gradientStart := "#1a1a1a",
    gradientEnd := "#000000",
    title := "After Effects",
    subtitle := "2025 Release",
    ccLogoText := "Adobe Creative Cloud",
    titleColor := "#ffffff",
    subtitleColor := "#a1a1aa",
    ccLogoTextColor := "#a1a1aa",
    preset := "dark",
    fontFamily := "Inter, sans-serif")

  /** The default record starts with no background image, the three other
      assets set, the gradient background of the dark preset, and a gradient
      string that agrees with its two colours. */
  lemma DefaultSettingsShape()
    ensures DEFAULT_SETTINGS.backgroundUrl == ""
    ensures DEFAULT_SETTINGS.aeLogoUrl != "" && DEFAULT_SETTINGS.ccLogoUrl != ""
    ensures DEFAULT_SETTINGS.artworkUrl != ""
    ensures DEFAULT_SETTINGS.bgType == Gradient && DEFAULT_SETTINGS.preset == Dark.Id()
    ensures Consistent(DEFAULT_SETTINGS)
  {
    assert DEFAULT_SETTINGS.bgGradient == PREFIX + "#1a1a1a" + MIDDLE + "#000000" + SUFFIX;
  }

  /** The fields a preset sets. Every entry of the table sets exactly these
      nine, so a record of them stands for `Partial<SplashSettings>`. */
  datatype PresetPatch = PresetPatch(
    bgColor: string,
    bgGradient: string,
    gradientStart: string,
    gradientEnd: string,
    titleColor: string,
    subtitleColor: string,
    ccLogoTextColor: string,
    artworkFit: FitMode,
    bgType: BackgroundType)

  /** The patch's gradient string agrees with its two colours. */
  predicate PatchConsistent(p: PresetPatch) {
    p.bgGradient == LinearGradient(p.gradientStart, p.gradientEnd)
  }

  /** Which text keys a preset patch writes. */
  predicate InPatch(k: TextKey) {
    k in {BgColor, BgGradient, GradientStart, GradientEnd, TitleColor, SubtitleColor, CcLogoTextColor}
  }

  /** `PRESETS[id]`, for a table whose only keys are the four preset ids. */
  function PresetPatchFor(id: string): (r: Option<PresetPatch>)
    ensures r.Some? <==> PresetFromId(id).Some?
    ensures r.Some? ==> r.value.bgType == Gradient && r.value.artworkFit == Cover
  {
    if id == "dark" then
      Some(PresetPatch(
        bgColor := "#111111",
        bgGradient := "linear-gradient(135deg, #1e1e1e 0%, #0a0a0a 100%)",
        gradientStart := "#1e1e1e",
        gradientEnd := "#0a0a0a",
        titleColor := "#ffffff",
        subtitleColor := "#a1a1aa",
        ccLogoTextColor := "#a1a1aa",
        artworkFit := Cover,
        bgType := Gradient))
    else if id == "light" then
      Some(PresetPatch(
        bgColor := "#f4f4f5",
        bgGradient := "linear-gradient(135deg, #ffffff 0%, #e4e4e7 100%)",
        gradientStart := "#ffffff",
        gradientEnd := "#e4e4e7",
        titleColor := "#18181b",
        subtitleColor := "#71717a",
        ccLogoTextColor := "#71717a",
        artworkFit := Cover,
        bgType := Gradient))
    else if id == "neon" then
      Some(PresetPatch(
        bgColor := "#000000",
        bgGradient := "linear-gradient(135deg, #1a0b2e 0%, #000000 100%)",
        gradientStart := "#1a0b2e",
        gradientEnd := "#000000",
        titleColor := "#d8b4fe",
        subtitleColor := "#818cf8",
        ccLogoTextColor := "#818cf8",
        artworkFit := Cover,
        bgType := Gradient))
    else if id == "creative" then
      Some(PresetPatch(
        bgColor := "#2e1065",
        bgGradient := "radial-gradient(circle at top left, #4c1d95, #1e1b4b)",
        gradientStart := "#4c1d95",
        gradientEnd := "#1e1b4b",
        titleColor := "#ffffff",
        subtitleColor := "#c4b5fd",
        ccLogoTextColor := "#c4b5fd",
        artworkFit := Cover,
        bgType := Gradient))
    else
      None
  }

  /** The dark, light and neon patches carry the linear gradient of their own
      two colours; the creative patch carries a radial gradient that is not
      derived from them. */
  lemma PresetGradients(id: string)
    requires PresetPatchFor(id).Some?
    ensures PatchConsistent(PresetPatchFor(id).value) <==> id != Creative.Id()
  {
    if id == "dark" {
      DarkGradient();
    } else if id == "light" {
      LightGradient();
    } else if id == "neon" {
      NeonGradient();
    } else {
      assert id == "creative";
      CreativeGradient();
    }
  }

  lemma DarkGradient()
    ensures PatchConsistent(PresetPatchFor("dark").value)
  {
    assert PresetPatchFor("dark").value.bgGradient == PREFIX + "#1e1e1e" + MIDDLE + "#0a0a0a" + SUFFIX;
  }

  lemma LightGradient()
    ensures PatchConsistent(PresetPatchFor("light").value)
  {
    assert PresetPatchFor("light").value.bgGradient == PREFIX + "#ffffff" + MIDDLE + "#e4e4e7" + SUFFIX;
  }

  lemma NeonGradient()
    ensures PatchConsistent(PresetPatchFor("neon").value)
  {
    assert PresetPatchFor("neon").value.bgGradient == PREFIX + "#1a0b2e" + MIDDLE + "#000000" + SUFFIX;
  }

  lemma CreativeGradient()
    ensures !PatchConsistent(PresetPatchFor("creative").value)
  {
  }

  /** Every colour a patch sets for the gradient is a `#rrggbb` colour. */
  lemma PresetColorsAreHex(id: string)
    requires PresetPatchFor(id).Some?
    ensures IsHexColor(PresetPatchFor(id).value.gradientStart)
    ensures IsHexColor(PresetPatchFor(id).value.gradientEnd)
  {
  }
}
