# VR menu and 360° viewers — a Dafny model

This project models the state logic of a small VR application made of three
engine components:

- **VRMenuManager** (`catalog.dfy`, module `Catalog`): a catalog of
  categories. Each category has a name and an append-only list of photo or
  video items in display order. A fixed demonstration catalog is built at
  start-up, with a photo category ("Fotos 360°": Praia, Montanha, Cidade)
  and a video category ("Vídeos 360°": Tour Virtual, Natureza). One menu
  button is shown per category. The first category is selected by default.
  Selecting a category shows one content button per item. An item's
  thumbnail path is derived from its title.
- **PhotoViewer360** (`photo_viewer.dfy`, module `PhotoViewer`): loads one
  panorama at a time. An `isLoading` flag makes loading single-flight: a
  request made while a load is in flight is ignored, and the flag is
  cleared whether the texture was found or not. All per-frame input is
  ignored while loading. Otherwise the right stick zooms, and the zoom is
  clamped to [5, 20].
- **VideoPlayer360** (`video_player.dfy`, module `VideoPlayer`): play,
  pause, toggle, volume and seek controls over the engine's video player.
  Two flags drive it. `isPlaying` is set by play, pause and toggle.
  `isDraggingSlider` lets a seek through only during a drag, and stops the
  per-frame refresh of the progress slider during a drag. Loading a video
  has no in-flight guard. The time label reads "MM:SS / MM:SS".

Two helper modules support them. `runtime.dfy` (module `Runtime`) stands in
for the library calls the components use: nullable strings, controller
polling results, `Mathf.Clamp`, `string.ToLower` and
`Path.GetFileNameWithoutExtension`. `time_format.dfy` (module `TimeFormat`)
holds the player's `FormatTime` with its numeral formatting, and
`ParseClock`, an inverse used to state the format as a round trip.

How the engine is represented:

- Each component is a class. The objects it is wired to in the scene
  (material, title text, time text, sliders, control panel, video player)
  become `const` presence flags plus fields for their state. These are the
  material's texture as an `Option`, the text contents, the slider values,
  the panel's active flag, and the player's playing flag, time, clip length
  and audio volume.
- Controller discovery is a parameter of `Start`. Each frame's
  `TryGetFeatureValue` results are a `ControllerInput` parameter, with
  `None` for a failed read.
- The stored menu selection (`PlayerPrefs`) is a parameter of `Start`. The
  resource loader's result is a parameter of the step that consumes it.
- Each coroutine is split at its wait into a start step and a finish step.
  The photo viewer keeps the waiting coroutine's path in `suspendedLoad`.
  The video player keeps the paths of its waiting coroutines in
  `pendingLoads`, oldest first; they all wait the same 1.0 s, so they
  resume in the order they were started.
- `ReturnToMainMenu` changes no scene in either viewer. `Update` returns
  `menuRequested`, which says whether it was invoked.
- `ContentItem` has only private setters, assigned once by its
  constructor, so it is a datatype. Its datatype constructor stores title,
  resource path and type exactly as given.

Behaviour kept as the code has it:

- Every guard is a silent early return. There are no error results and no
  Idle/Ready/Error states.
- `SetVolume` forwards the value unclamped.
- `OpenContent` does not check that the item belongs to the current
  category.
- `ReturnToMainMenu` in the video player stops the engine player but
  leaves `isPlaying` as it was.

## Model

| member | source | states |
|---|---|---|
| `Runtime.Clamp` | PhotoViewer360.cs:132 | the result lies in [min, max], equals the value when it is already inside, and is the point of [min, max] nearest to the value |
| `Runtime.IsNullOrEmpty` | PhotoViewer360.cs:64 | a nullable string counts as null-or-empty exactly when it is null or has no characters |
| `Runtime.ToLower` | VRMenuManager.cs:199 | lower-casing keeps the length and lower-cases each character in place |
| `Runtime.LowerChar` | VRMenuManager.cs:199 | a lowered character is never upper case; capitals map to their lower-case letter, every other character is kept |
| `Runtime.ToLowerIdempotent` | VRMenuManager.cs:199 | lower-casing twice is the same as lower-casing once |
| `Runtime.ToLowerFixesLowerCase` | VRMenuManager.cs:199 | a string with no capitals is unchanged by lower-casing |
| `Runtime.LastIndexOf` | PhotoViewer360.cs:97 | the result is the last position holding the character, or -1 when there is none |
| `Runtime.GetFileName` | PhotoViewer360.cs:97 | the file name is the longest suffix of the path that contains no '/' |
| `Runtime.GetFileNameWithoutExtension` | PhotoViewer360.cs:97 | the stem is the file name cut before its last '.', or the whole file name when it has no '.'; it holds no '/' |
| `Runtime.PlainNameIsOwnStem` | VideoPlayer360.cs:113 | a path with no '/' and no '.' is its own stem |
| `Runtime.PhotoPathStem` | PhotoViewer360.cs:97 | the stem of "Photos/beach" is "beach" |
| `Runtime.VideoPathStem` | VideoPlayer360.cs:113 | the stem of "Videos/tour.mp4" is "tour": only the last extension is cut |
| `Runtime.HiddenFileStem` | PhotoViewer360.cs:97 | the stem of ".hidden" is empty |
| `TimeFormat.DigitChar` | VideoPlayer360.cs:212 | a digit character denotes exactly its digit |
| `TimeFormat.Decimal` | VideoPlayer360.cs:212 | the numeral of n is all digits, one digit exactly when n < 10, at most two when n < 100, and starts with '0' only for 0 |
| `TimeFormat.DecimalValue` | VideoPlayer360.cs:212 | reading back the numeral of n gives n |
| `TimeFormat.LeadingZeroValue` | VideoPlayer360.cs:212 | a leading zero does not change a numeral's value |
| `TimeFormat.Pad2` | VideoPlayer360.cs:212 | the "00" format of n is all digits, at least two wide, exactly two when n < 100, and has no leading zero when wider |
| `TimeFormat.Pad2Value` | VideoPlayer360.cs:212 | the "00" format of n denotes n |
| `TimeFormat.ParseClock` | VideoPlayer360.cs:207-213 | a label is read back only when it is at least two minute digits, a ':' and exactly two second digits worth less than 60 |
| `TimeFormat.FormatSecondsRoundTrip` | VideoPlayer360.cs:207-213 | the label of s seconds ends in ':' and two digits worth s % 60 (below 60), its minutes denote s / 60, and reading it back gives s |
| `TimeFormat.FloorNat` | VideoPlayer360.cs:209-210 | `FloorToInt` of a non-negative value is the whole number n with n <= x < n + 1 |
| `TimeFormat.FloatRemainderBounds` | VideoPlayer360.cs:210 | the float `%` leaves a remainder that differs from the dividend by a whole multiple of the divisor and, for a positive divisor such as the 60 the player uses, has the dividend's sign and is smaller than the divisor in size |
| `TimeFormat.FormatTime` | VideoPlayer360.cs:207-213 | the label has a ':' before its last two characters and at least two characters before it, and is exactly five characters below 100 minutes |
| `TimeFormat.FormatTimeWholeSeconds` | VideoPlayer360.cs:207-213 | `FormatTime(t)`, which floors t / 60 and the float remainder t % 60, equals the label of the whole seconds floor(t) |
| `TimeFormat.FormatTimeRoundTrip` | VideoPlayer360.cs:207-213 | reading back `FormatTime(t)` gives floor(t) for every t >= 0 |
| `TimeFormat.FormatTimeExample125` | VideoPlayer360.cs:207-213 | 125 s is formatted "02:05" |
| `TimeFormat.FormatTimeExampleBelowMinute` | VideoPlayer360.cs:207-213 | 59.999 s is formatted "00:59" |
| `TimeFormat.FormatSecondsExampleHundredMinutes` | VideoPlayer360.cs:212 | 6000 s is formatted "100:00": minutes widen instead of wrapping |
| `Catalog.ContentItem.ThumbnailPath` | VRMenuManager.cs:199 | the thumbnail path is "Thumbnails/" followed by one lowered character per title character, with no capital after the folder |
| `Catalog.Category.constructor` | VRMenuManager.cs:177-182 | a new category has the given name and no items |
| `Catalog.Category.AddContent` | VRMenuManager.cs:184-187 | the item is appended: one more item, the earlier ones unchanged and in order; the name cannot change |
| `Catalog.DemoCatalogConsistent` | VRMenuManager.cs:48-57 | every demo photo item is of type Photo, every demo video item of type Video, and every resource path is non-empty |
| `Catalog.VRMenuManager.constructor` | VRMenuManager.cs:22-23 | a new menu has no categories, no current category and no buttons |
| `Catalog.VRMenuManager.Start` | VRMenuManager.cs:25-38 | the two demo categories are appended with their items, one button per category is shown, and the first category is selected with its items shown |
| `Catalog.VRMenuManager.SelectDefaultCategory` | VRMenuManager.cs:33-37 | the first category is selected exactly when the list is non-empty; otherwise selection, title and buttons are unchanged |
| `Catalog.VRMenuManager.LoadCategories` | VRMenuManager.cs:43-58 | exactly two fresh categories are appended, "Fotos 360°" with Praia, Montanha, Cidade and then "Vídeos 360°" with Tour Virtual, Natureza; existing categories and their contents are untouched |
| `Catalog.VRMenuManager.CreateCategoryButtons` | VRMenuManager.cs:63-97 | the menu buttons are replaced by one per category, in catalog order |
| `Catalog.VRMenuManager.SelectCategory` | VRMenuManager.cs:102-143 | the category becomes current, its name the title, and the content buttons are one per item in the category's order; the catalog is untouched |
| `Catalog.VRMenuManager.OpenContent` | VRMenuManager.cs:148-167 | opening an item changes no menu state |
| `Catalog.StartScenario` | VRMenuManager.cs:25-58 | after start-up on a fresh menu there are two categories, the photo category is selected, and its three items are shown |
| `PhotoViewer.PhotoViewer360.constructor` | PhotoViewer360.cs:10-25 | the viewer starts with zoom 10, no load in flight, no photo path and no controllers, and satisfies its invariant |
| `PhotoViewer.PhotoViewer360.Start` | PhotoViewer360.cs:27-43 | records which controllers were found and starts loading the stored photo unless it is empty or a load is in flight |
| `PhotoViewer.PhotoViewer360.Update` | PhotoViewer360.cs:45-57 | while loading nothing changes and the menu is not requested; otherwise the zoom moves as `HandleZoom` says and the menu is requested exactly when the left menu button is pressed |
| `PhotoViewer.PhotoViewer360.ZoomAfter` | PhotoViewer360.cs:116-137 | the new zoom is in [5, 20] or unchanged, and unchanged when a controller is missing or a stick read fails |
| `PhotoViewer.PhotoViewer360.HandleZoom` | PhotoViewer360.cs:116-137 | the zoom moves by stick × speed × frame time and is clamped to [5, 20], only with both controllers and both reads; the invariant 5 <= zoom <= 20 is kept |
| `PhotoViewer.PhotoViewer360.CheckReturnToMenu` | PhotoViewer360.cs:142-152 | the menu is requested exactly when the left controller exists and reports its menu button pressed |
| `PhotoViewer.PhotoViewer360.ReturnToMainMenu` | PhotoViewer360.cs:157-162 | leaving the viewer changes no viewer state |
| `PhotoViewer.PhotoViewer360.LoadPhoto` | PhotoViewer360.cs:62-67 | nothing changes while a load is in flight or for a null or empty path; otherwise the load starts with the loading title |
| `PhotoViewer.PhotoViewer360.LoadPhotoCoroutineStart` | PhotoViewer360.cs:69-78 | starting a load sets `isLoading`, the current path and "Carregando..." as the title when there is a title text |
| `PhotoViewer.PhotoViewer360.LoadPhotoCoroutineFinish` | PhotoViewer360.cs:80-111 | `isLoading` is cleared either way; on success the texture is applied and the title becomes the file name without extension; on failure the texture is kept and the title is "Erro ao carregar foto" |
| `PhotoViewer.PhotoViewer360.ToggleControlPanel` | PhotoViewer360.cs:167-173 | the panel's active flag flips when there is a panel |
| `PhotoViewer.SingleFlightScenario` | PhotoViewer360.cs:62-111 | a second request while the first load is in flight is ignored, and the first photo's name is the title when it finishes |
| `VideoPlayer.VideoPlayer360.constructor` | VideoPlayer360.cs:11-28 | the player starts paused, not dragging, with no path and no pending load, takes the scene's initial title, time text, volume and slider values as given, and satisfies its invariant |
| `VideoPlayer.VideoPlayer360.Start` | VideoPlayer360.cs:30-69 | records the controllers, sets the volume slider to 0.8 when present and loads the stored video unless it is empty or there is no player |
| `VideoPlayer.VideoPlayer360.Update` | VideoPlayer360.cs:71-81 | the display is refreshed from the state before the frame, the primary button toggles playback, the secondary button toggles the panel, and the menu button stops the engine player |
| `VideoPlayer.VideoPlayer360.LoadVideo` | VideoPlayer360.cs:86-103 | nothing changes for a null or empty path or a missing player; otherwise the path and loading title are set and the load is queued, with no in-flight guard |
| `VideoPlayer.VideoPlayer360.SimulateVideoLoadingFinish` | VideoPlayer360.cs:105-119 | the oldest pending load's file name becomes the title and playback starts, so `isPlaying` ends true |
| `VideoPlayer.VideoPlayer360.PlayVideo` | VideoPlayer360.cs:124-130 | with a player, both the flag and the engine player are playing, whatever the state before; without one nothing changes |
| `VideoPlayer.VideoPlayer360.PauseVideo` | VideoPlayer360.cs:135-141 | with a player, both the flag and the engine player are paused, whatever the state before; without one nothing changes |
| `VideoPlayer.VideoPlayer360.TogglePlayPause` | VideoPlayer360.cs:146-156 | with a player, `isPlaying` is negated and the engine player follows it; without one nothing changes |
| `VideoPlayer.VideoPlayer360.SetVolume` | VideoPlayer360.cs:161-166 | with a player the volume is forwarded unclamped; without one nothing changes |
| `VideoPlayer.VideoPlayer360.SetVideoProgress` | VideoPlayer360.cs:171-176 | the time becomes progress × length only while dragging with a player; otherwise it is unchanged |
| `VideoPlayer.VideoPlayer360.UpdateTimeDisplay` | VideoPlayer360.cs:181-202 | nothing changes unless the engine player is playing; then the time label is "current / total" in "MM:SS" and the slider becomes time / length unless dragging; the playback time is not disturbed |
| `VideoPlayer.VideoPlayer360.CheckPlaybackControls` | VideoPlayer360.cs:218-235 | with a right controller, a pressed primary button toggles playback and a pressed secondary button toggles the panel |
| `VideoPlayer.VideoPlayer360.CheckReturnToMenu` | VideoPlayer360.cs:240-250 | the menu is requested exactly when the left controller reports its menu button pressed, and then the engine player is stopped |
| `VideoPlayer.VideoPlayer360.ReturnToMainMenu` | VideoPlayer360.cs:255-266 | the engine player is not playing afterwards, and `isPlaying` is left as it was |
| `VideoPlayer.VideoPlayer360.ToggleControlPanel` | VideoPlayer360.cs:271-277 | the panel's active flag flips when there is a panel |
| `VideoPlayer.VideoPlayer360.OnProgressDragStart` | VideoPlayer360.cs:282-285 | only sets the dragging flag |
| `VideoPlayer.VideoPlayer360.OnProgressDragEnd` | VideoPlayer360.cs:290-293 | only clears the dragging flag |
| `VideoPlayer.TimeLabelReadsBack` | VideoPlayer360.cs:191-194 | the time text is the current time's label, " / " and the clip length's label, and each label reads back as the whole seconds of its time |
| `VideoPlayer.LastLoadWinsScenario` | VideoPlayer360.cs:86-119 | two loads back to back both complete in order; the second path is current, its name is the title and the video plays |
| `VideoPlayer.ToggleTwiceScenario` | VideoPlayer360.cs:146-156 | toggling twice restores `isPlaying`, with the engine player in step |
| `VideoPlayer.SeekScenario` | VideoPlayer360.cs:171-176 | drag, seek to half and release puts the time at half the clip; a seek after release is ignored |

## Left out

- Rendering: the material and sphere setup, the camera's field of view and near plane, and the video player's render configuration in `Start` (play on awake, looping, render mode, target material).
- The engine player's own behaviour: time advancing during playback, clip preparation, and `Stop` resetting the time. Play, pause and stop are modelled only by their effect on the player's playing flag.
- Controller discovery and per-frame polling. These are parameters (`ControllerInput`); a button counts as pressed on every frame the read reports it.
- Coroutine scheduling and the waits of 0.5 s and 1.0 s. Each load is a start step followed by a finish step.
- `Resources.Load` and `PlayerPrefs`. They are an optional texture passed to the finish step and a stored path passed to `Start`.
- Button instantiation, prefab components, captions, positions (`posX`/`posY` spacing), listener lambdas and `Destroy`. Buttons are the list of categories or items they act on.
- Slider listener wiring in the video player's `Start`. The slider's own clamping of its value is not modelled either.
- `Debug.Log` and `Debug.LogError`.
- Scene changes in `OpenContent` and both `ReturnToMainMenu` methods. They are commented out in the code.
- Floating point: all quantities are real numbers, so rounding in the zoom step, the seek and the slider fraction is not modelled.
- Runtime.ToLower: culture-specific case mapping is limited to the letters whose lower case is 32 code points higher (ASCII A–Z and the Latin-1 capitals except ×).
- Runtime.GetFileName: '/' is the only directory separator, as on Unix-like targets; '\\' and drive prefixes on Windows are not modelled.
- Catalog.VRMenuManager.SelectCategory: the title text, the content panel and the content button prefab are assumed present; the code dereferences them without a check (VRMenuManager.cs:105, 108 and 117), so a missing one throws a null reference that ends the selection part-way, and that is not modelled.
- Scene references the code uses without a null check are assumed present: `playerSphere` (VideoPlayer360.cs:42), `menuContainer` and `categoryButtonPrefab` (VRMenuManager.cs:66 and 75), `contentPanel` and `contentButtonPrefab` (VRMenuManager.cs:108 and 117) and `Camera.main` (PhotoViewer360.cs:41-42 and 135, VideoPlayer360.cs:67-68). In the code a missing one throws and ends the step early: the video player's `Start` then never sets the volume slider, wires its listeners or loads the stored video; the menu's `Start` never selects a category; the photo viewer's `Update` skips the return-to-menu check after a zoom. Only the objects the code checks for null are presence flags in the model.
- TimeFormat.FormatTime: requires a non-negative time. The format of negative times is not modelled. Its own contract gives the label's shape only; the full value, the label of floor(t), is stated by `TimeFormat.FormatTimeWholeSeconds` beside it, which keeps the callers that unfold the label cheap to verify.
- TimeFormat.FloatRemainder: its properties are stated by `TimeFormat.FloatRemainderBounds` rather than by its own contract, for the same reason.
- VideoPlayer.TimeLabel: what the label holds is stated by `VideoPlayer.TimeLabelReadsBack` rather than by its own contract, for the same reason.
- VideoPlayer.VideoPlayer360.SetVideoProgress: requires progress in [0, 1], the range of the progress slider that calls it.
- VideoPlayer.VideoPlayer360.constructor: requires a positive clip length. With length 0 the code's time / length is not a number, and that case is not modelled.
