# Splash editor model

A Dafny model of the logic underneath a small React editor for a 700×500
After Effects splash image. The user edits a settings record (texts, colours,
asset URLs, background mode), picks style presets and exports the picture as
a PNG. The model has four parts:

- **Settings and updaters** (`Types`, `Gradients`, `Constants`, `Controls`).
  `SplashSettings` is a record with every field present: a missing asset is
  the empty string. `DEFAULT_SETTINGS` is the starting record, and
  `PresetPatchFor` is the preset table (dark, light, neon, creative). The
  control panel's updaters are pure functions from the previous record to the
  next one: file upload, clear, reset, apply a preset, update the gradient and
  the two colour pickers. Each says which field it writes and that nothing
  else changes. `Apply` folds all of them, plus the plain text, colour,
  background-mode and fit setters, into one `Update` datatype.
- **Gradient consistency.** `bgGradient` is meant to be the string
  `linear-gradient(135deg, <start> 0%, <end> 100%)` built from
  `gradientStart` and `gradientEnd`. `Gradients.Stops` decodes such a string
  back into its two `#rrggbb` colours. The invariant holds for the default
  record and for the dark, light and neon presets, and every gradient update
  restores it. It does not hold for the creative preset: that entry sets a
  radial gradient whose string is not built from its two colours, so the
  record is inconsistent from the moment creative is applied until a colour
  picker is moved or a non-creative preset is applied. The model follows the code. It proves the invariant
  where it holds and proves that creative breaks it from every record
  (`Controls.CreativeBreaksConsistency`).
- **Renderer** (`SplashScreen`). `Render(settings, isExporting, mouse)`
  returns a `RenderPlan` instead of a DOM tree. The plan holds the fixed
  700×500 size, the background style selected by `bgType`, an optional tilt,
  the guide overlay flag, the filled image slots, the texts, and either the
  artwork or the "No Artwork" placeholder. The display scale is not an input,
  so the canvas size cannot depend on it.
- **Editor shell** (`App`). The class `Editor` holds the settings,
  `isExporting`, the normalised pointer position `mouse`, the display `scale`,
  the names of the downloaded files and the number of failure notices. Its
  methods are the resize handler, the pointer handlers and export, split into
  a click that enters the exporting state and a finish that captures and then
  downloads or alerts. The handler has no `finally`. If packaging the canvas
  as a download throws, the flag is never cleared and the editor stays in the
  exporting state. `FinishExport` models that path too. The rasterising library is a function parameter, and
  its outcome is a canvas, an empty resolve or a throw. `Date.now()` is a parameter
  too. Re-entrancy is guarded only by the export button being disabled while
  an export runs, so `ExportClick` carries that guard.
  `handleExport` itself does not check the flag.

## Model

| member | source | states |
|---|---|---|
| Types.BackgroundTypeFromValue | types.ts:2-6 | exactly the three strings 'solid', 'gradient', 'image' name a background type, and each names the variant whose value it is |
| Types.BackgroundTypeRoundTrip | types.ts:2-6 | every background type is read back from its own string value |
| Types.FitModeFromValue | types.ts:8 | exactly 'contain' and 'cover' are fit modes |
| Types.FitModeRoundTrip | types.ts:8 | every fit mode is read back from its string value |
| Types.PresetFromId | types.ts:31 | exactly the four ids dark, light, neon and creative are presets; the record's `preset` field is a wider plain string |
| Types.PresetRoundTrip | types.ts:31 | every preset is read back from its id |
| Types.Extensionality | types.ts:10-29 | a settings record is determined by its two enum fields and its sixteen string fields |
| Types.With | components/Controls.tsx:41 | `{ ...prev, [field]: value }` sets the named field to the value and leaves every other field as it was |
| Types.WithLaws | components/Controls.tsx:41 | writing a field's current value back is the identity; a second write to a field overrides the first |
| Gradients.LinearGradient | components/Controls.tsx:63 | the string is the fixed prefix, the start colour, the ` 0%, ` separator, the end colour and the ` 100%)` suffix, in that order |
| Gradients.Stops | components/Controls.tsx:63 | a decoded gradient string has two `#rrggbb` stops and is exactly the linear gradient built from them |
| Gradients.StopsRoundTrip | components/Controls.tsx:63 | the linear gradient built from two `#rrggbb` colours decodes back to exactly those colours, start at 0% and end at 100% |
| Gradients.LinearGradientInjective | components/Controls.tsx:63 | different `#rrggbb` colour pairs give different gradient strings |
| Gradients.AmbiguousWithoutHexColors | components/Controls.tsx:63 | for colour strings that contain a stop separator, two different pairs give the same gradient string |
| Constants.DefaultSettingsShape | constants.tsx:4-23 | the default has no background image, the other three assets set, a gradient background, preset 'dark', and a gradient string built from its two colours |
| Constants.PresetPatchFor | constants.tsx:25-70 | the table has an entry for exactly the four preset ids, and every entry sets `bgType` to gradient and `artworkFit` to cover |
| Constants.PresetGradients | constants.tsx:25-70 | a preset's gradient string is the linear gradient of its own colours exactly when the preset is not creative |
| Constants.DarkGradient | constants.tsx:26-36 | the dark entry's gradient string is built from its two colours |
| Constants.LightGradient | constants.tsx:37-47 | the light entry's gradient string is built from its two colours |
| Constants.NeonGradient | constants.tsx:48-58 | the neon entry's gradient string is built from its two colours |
| Constants.CreativeGradient | constants.tsx:59-69 | the creative entry's radial gradient is not the linear gradient of its colours |
| Constants.PresetColorsAreHex | constants.tsx:25-70 | every gradient colour in the table is a `#rrggbb` colour |
| Controls.HandleFileUpload | components/Controls.tsx:37-43 | with no file chosen the record is unchanged; with one, only the named field changes, to the file's URL |
| Controls.ClearFile | components/Controls.tsx:45-48 | the named field becomes '' and no other field changes |
| Controls.ResetFile | components/Controls.tsx:50-53 | the named field gets its default value and no other field changes |
| Controls.ClearAndResetIdempotent | components/Controls.tsx:45-53 | clearing twice is clearing once; resetting twice is resetting once |
| Controls.ApplyPreset | components/Controls.tsx:55-60 | a known id writes every patch field and sets `preset` to the id, and the fields outside the patch are unchanged; an unknown id leaves the record unchanged |
| Controls.ApplyPresetIdempotent | components/Controls.tsx:55-60 | applying a preset twice gives the same record as applying it once |
| Controls.ApplyPresetConsistency | components/Controls.tsx:55-60 | after a known preset, the gradient is consistent exactly when the preset is not creative, whatever the record was before |
| Controls.UpdateGradient | components/Controls.tsx:62-70 | sets both colours, leaves the gradient string consistent with them, and changes no other field |
| Controls.UpdateGradientIdempotent | components/Controls.tsx:62-70 | the same update twice is the update once |
| Controls.UpdateGradientStops | components/Controls.tsx:62-70 | after an update with `#rrggbb` colours, the gradient string decodes to exactly the start and end picked |
| Controls.PickGradientStart | components/Controls.tsx:365-370 | the start picker is the gradient update with the current end colour: it sets the start colour, keeps the end colour, leaves the gradient consistent and changes no field outside the gradient |
| Controls.PickGradientEnd | components/Controls.tsx:374-379 | the end picker is the gradient update with the current start colour: it sets the end colour, keeps the start colour, leaves the gradient consistent and changes no field outside the gradient |
| Controls.PickersCommute | components/Controls.tsx:365-379 | moving the two pickers one after the other, in either order, is one gradient update |
| Controls.Apply | components/Controls.tsx:205-355 | an inline setter puts the typed value in its field; an upload, clear, reset, preset or picker is exactly the updater of that name; every update leaves the text fields outside the keys it writes unchanged, and only a preset or the matching setter changes `bgType` or `artworkFit`, which that setter sets to its value. `Upload`, `Clear`, `Reset` and `SetText` range over all sixteen text keys. The panel writes only the keys `PanelIssues` lists: title, subtitle, their colours and the solid colour (205, 214, 225, 234, 355), the fit buttons (280, 288) and the background-mode buttons (341) |
| Controls.PanelKeepsConsistency | components/Controls.tsx:179-401 | of every update the panel's widgets issue, only the creative preset button takes a consistent record out of step with its gradient colours |
| Controls.ApplyKeepsConsistency | components/Controls.tsx:37-70 | any update except a direct write to a gradient field or the creative preset keeps a consistent record consistent |
| Controls.CreativeBreaksConsistency | constants.tsx:59-69 | the creative preset makes every record inconsistent, and the next move of either picker makes it consistent again |
| SplashScreen.TiltFor | components/SplashScreen.tsx:13-21 | within ±7.5 degrees for a pointer in the unit square, reaching +7.5 and -7.5 at the edges (x = 1 and 0 for rotateY, y = 0 and 1 for rotateX), zero exactly at the centre line, with the signs of the offsets; the body is the source's (x-0.5)·15 and -(y-0.5)·15 |
| SplashScreen.BackgroundStyleFor | components/SplashScreen.tsx:23-38 | solid uses only `bgColor`, gradient only `bgGradient`, image only `url(backgroundUrl)` with cover and center; exactly one kind is chosen |
| SplashScreen.ImageSlot | components/SplashScreen.tsx:67-73 | a logo image is present exactly when its URL is non-empty, with that URL as source |
| SplashScreen.ArtworkSlotFor | components/SplashScreen.tsx:115-129 | an empty artwork URL gives the placeholder; otherwise the artwork with `objectFit` = `artworkFit` |
| SplashScreen.Render | components/SplashScreen.tsx:12-138 | always 700×500; tilt and guide overlay present exactly when not exporting; the background by `bgType`; both logos present exactly when their URLs are non-empty; the caption always shown; the placeholder exactly when the artwork URL is empty, otherwise the artwork with `objectFit` = `artworkFit`; the logo sources, title, subtitle and font family taken from the settings |
| SplashScreen.ExportIgnoresPointer | components/SplashScreen.tsx:13-14 | in export mode the rendered plan does not depend on the pointer position |
| SplashScreen.ModesShareLayout | components/SplashScreen.tsx:40-61 | the export plan is the interactive one with the tilt and the overlay removed and nothing else changed |
| SplashScreen.CentreIsFlat | components/SplashScreen.tsx:15-18 | with the pointer at (0.5, 0.5) the interactive tilt is zero on both axes |
| App.FitScale | App.tsx:23-35 | `min(1, (w-64)/700, (h-64)/500)` is the largest scale at most 1 at which the canvas fits the padded workspace; it is positive exactly when both sides exceed the padding |
| App.FitScaleExamples | App.tsx:26-32 | (900, 700) gives 1 and (600, 400) gives 0.672 |
| App.PointerPosition | App.tsx:45-47 | the position is the offset from the workspace's corner divided by its size, and lies in the unit square exactly when the pointer is inside the workspace |
| App.PointerTiltBounded | App.tsx:43-49 | a pointer inside the workspace tilts the canvas by at most 7.5 degrees on each axis |
| App.Decimal | App.tsx:79 | the timestamp's decimal form is non-empty, all digits, and has no leading zero |
| App.DecimalRoundTrip | App.tsx:79 | the decimal form reads back to the same number |
| App.ExportFileName | App.tsx:79 | the name is "AE-Splash-", then the timestamp's decimal digits, then ".png" |
| App.ExportTimestamp | App.tsx:79 | an accepted name is exactly "AE-Splash-" + timestamp + ".png" for the timestamp read |
| App.ExportTimestampRoundTrip | App.tsx:79 | the timestamp is read back from every export file name |
| App.ExportFileNameInjective | App.tsx:79 | exports at different times get different file names |
| App.CaptureCanvas | App.tsx:55-72 | no canvas when the target is missing, the library throws or it resolves with nothing; otherwise the library's canvas for the fixed options |
| App.CaptureAtCanvasSize | App.tsx:60-67 | for every settings record, mode and pointer position, the capture asks for the rendered canvas's own 700×500 size at scale 1 |
| App.Editor.constructor | App.tsx:16-19 | the session starts from the default settings, idle, with the pointer centred and scale 1 |
| App.Editor.Plan | App.tsx:121-126 | the splash is shown with the current settings (background, artwork, title), tilted by the current pointer exactly when no export is in flight and with the guide overlay exactly then |
| App.Editor.UpdateScale | App.tsx:23-35 | with a workspace element the scale becomes its fit scale; without one it is unchanged |
| App.Editor.MouseMove | App.tsx:43-49 | while exporting the pointer position is unchanged; otherwise it becomes the normalised position |
| App.Editor.MouseLeave | App.tsx:51-53 | the pointer position becomes exactly (0.5, 0.5), also during an export |
| App.Editor.ExportClick | components/Controls.tsx:84-86 | an enabled click starts an export; a click while exporting does nothing; the editor is exporting afterwards, and a started export leaves one handler pending |
| App.Editor.FinishExport | App.tsx:74-86 | a capture yields one download named from the timestamp, no alert, and idle; no capture yields one alert, no download, and idle; a capture whose packaging throws yields neither and leaves the editor exporting; all downloads stay well named; it runs only for a pending handler and clears it, so a stuck export is never captured a second time |
| App.Editor.Dispatch | App.tsx:142-147 | the settings become the control's updater applied to the previous settings |

## Left out

- Markup, styling classes, icons, the decorative overlays, the band geometry of the layout, and the static installation guide (components/Controls.tsx:98-173) are presentation only. The plan records what is shown, not where.
- The rasterising library's internals, `toDataURL`, the synthetic link click, `alert`, `console.error` and `URL.createObjectURL` are browser and library calls. Capture is a function parameter whose outcome is a canvas, an empty resolve or a throw, and the canvas is an opaque handle. Whether packaging the canvas as a download throws is a boolean parameter of `FinishExport`. A download is the file name appended to `downloads`, and an alert is a counter. An uploaded file is the URL the browser made for it.
- The 300 ms settle delay and the async scheduling are not modelled. Export is two steps, `ExportClick` and `FinishExport`, with no timing between them.
- `getBoundingClientRect`, the registration and removal of the resize listener (App.tsx:37-41) and React's state and memo machinery are DOM plumbing. Sizes and rectangles are parameters.
- The arithmetic uses exact reals, not IEEE floats. The CSS text of the `rotateY(..)`/`rotateX(..)` transform and the `perspective(1000px)` prefix is not modelled; the plan holds the two angles.
- Resetting the file input's value after clear and reset is a DOM side effect.
- Loading images is not modelled. The plan records which slots have a source, not whether the image loads.
- The field parameter of the upload, clear and reset updaters ranges over the sixteen string-typed keys. `artworkFit` and `bgType` are left out: writing a string into them would leave their types, and no call site does it.
- `bgType` is an enum in the model, so the `default` branch of the background switch cannot be reached.
- Lookups in the preset table see only the four preset ids. Keys a plain object inherits, such as `constructor`, are not modelled.
- App.Editor.MouseMove, App.PointerPosition, App.PointerTiltBounded: require a workspace of positive width and height. A zero-size element, where the division gives Infinity or NaN, is not modelled.
- `ccLogoUrl` can be written by the generic updaters, but no control in the panel calls them for it.
