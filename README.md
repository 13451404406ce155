# geoclip UI: a Dafny model of the two-step wizard

The geoclip front end is a small React application. The user uploads a photo, and
an inference service predicts where the photo was taken as a list of locations,
each with a latitude, a longitude and a confidence. The locations are then drawn
on a Leaflet map. This project models the three components that hold the
application's state, and proves what each promises:

- `TwoStepProcess` (`wizard.dfy`, module `Wizard`). A wizard with a step counter
  clamped to 1 and 2, and the location list handed over by the upload step. The
  counter and the list are the fields of the class `TwoStepProcess`. The active
  view, the progress value and the two buttons' disabled flags are functions of
  those fields. The sequence of user actions has a reference semantics (`Apply`,
  `Trace`, `Run`), and lemmas about it prove that the step never leaves {1, 2},
  that it moves by at most one per action, and that the stored list is always the
  last one received.
- `FileUploadStep` (`upload.dfy`, module `Upload`). The selected file, the inline
  error message and the loading flag are the fields of the class
  `FileUploadStep`.
  - `OnDrop` validates the first dropped file by its media type.
  - Submission is split at the awaited request. `StartSubmit` sets `loading`
    and issues the POST. `CompleteSubmit(outcome)` handles the answer, which
    arrives as an abstract `Outcome` value: a response with its status and
    parsed `predictions`, or a thrown exception. `HandleSubmit` composes the
    two.
- `MapStep` (`mapview.dfy`, module `MapView`). The Leaflet map is reduced to its
  creation options and its layers. The layers are a map from the layer object's
  identity to its kind: a tile layer of one theme, a plain marker, or a circle
  marker. So "is this exact object on the map" (`hasLayer`) can be modelled.
  - The component class `MapStep` keeps the map instance, the registered
    theme-change listeners and the cleanup pending from the last effect run.
  - `RunEffect` runs the pending cleanup, then the effect body. That body
    creates the map lazily, builds four fresh tile layer objects, adds the
    default one if absent, registers a listener, removes the layers that pass
    `instanceof L.Marker`, and adds one circle marker per location.
  - Its result is stated with the function `EffectLayers`.
  - The loops of the effect keep their loop form: the clearing loops over
    `eachLayer` and the `forEach` that adds markers.
  - The theme registry (`Source`, `ThemeKey`) is constant data.

Module `Common` (`common.dfy`) holds the location record and an `Option` type.

Two behaviours of the source are modelled as written, and lemmas state them:

- Leaflet's circle marker is a vector path, not an `L.Marker`. So the marker
  clear loop never removes the circle markers of earlier runs.
  `RerunKeepsEarlierCircleMarkers` shows that two runs leave two circle
  markers.
- Every run builds new tile layer objects, so the `hasLayer` test never finds
  the default layer. A new default tile layer is added on each run.

## Model

| member | source | states |
|---|---|---|
| Wizard.Advance | src/components/TwoStepProcess.tsx:10 | the new step is min(step + 1, 2): at most 2, at most one more, and equal to one of the two |
| Wizard.Retreat | src/components/TwoStepProcess.tsx:11 | the new step is max(step - 1, 1): at least 1, at least one less, and equal to one of the two |
| Wizard.RenderStepContent | src/components/TwoStepProcess.tsx:18-27 | step 1 shows the upload view, and only step 1 does; step 2 shows the map over the stored locations, and only step 2 does; any other step shows nothing |
| Wizard.Progress | src/components/TwoStepProcess.tsx:31 | the progress value is step / 2 * 100 percent: 50 on step 1 and 100 on step 2 |
| Wizard.PreviousDisabled | src/components/TwoStepProcess.tsx:36 | the Previous button's flag (`step === 1`) is set exactly where going back would leave the step unchanged |
| Wizard.NextDisabled | src/components/TwoStepProcess.tsx:39 | the Next button's flag (`step === 2`) is set exactly where going forward would leave the step unchanged |
| Wizard.ButtonsDisabledExactlyWhereInert | src/components/TwoStepProcess.tsx:36-39 | on steps 1 and 2, Previous is disabled exactly when going back would not move the step, and Next exactly when going forward would not; Next on step 1 reaches step 2 without any upload |
| Wizard.ReachableStepShowsAView | src/components/TwoStepProcess.tsx:18-31 | on a reachable step some view is shown and the progress is 50 or 100 |
| Wizard.Apply | src/components/TwoStepProcess.tsx:10-16 | one action of the reference semantics (Next, Previous, or the upload step's completion callback): from step 1 or 2 it stays on step 1 or 2 and moves by at most one; a completion replaces the list with exactly the received one, and the buttons keep the list |
| Wizard.TraceStaysOnSteps | src/components/TwoStepProcess.tsx:10-16 | from step 1 or 2, every state reached by any sequence of Next, Previous and upload completions is on step 1 or 2, and each action changes the step by at most one |
| Wizard.RunKeepsLastReceived | src/components/TwoStepProcess.tsx:11-16 | after any sequence of actions the stored list is the one from the latest upload completion (or the initial one); Previous and Next never reset it |
| Wizard.TwoStepProcess.constructor | src/components/TwoStepProcess.tsx:7-8 | the wizard starts on step 1 with no locations |
| Wizard.TwoStepProcess.NextStep | src/components/TwoStepProcess.tsx:10 | the step becomes min(step + 1, 2), the locations are unchanged, and the step stays in {1, 2} |
| Wizard.TwoStepProcess.PrevStep | src/components/TwoStepProcess.tsx:11 | the step becomes max(step - 1, 1), the locations are unchanged, and the step stays in {1, 2} |
| Wizard.TwoStepProcess.HandleNextStep | src/components/TwoStepProcess.tsx:13-16 | the stored locations become exactly the received list, then the step advances as with Next |
| Upload.IsImageType | src/components/FileUploadStep.tsx:17 | a file counts as an image exactly when "image/" is a prefix of its media type |
| Upload.IsOk | src/components/FileUploadStep.tsx:47 | `response.ok` holds exactly for the statuses of the 2xx class (status / 100 is 2) |
| Upload.Resolve | src/components/FileUploadStep.tsx:41-59 | a 2xx response whose body parses forwards its predictions unchanged, and only such a response forwards anything; a non-2xx response gives "Failed to upload image or process inference."; an exception, including a 2xx body that does not parse, gives "An error occurred during file upload." |
| Upload.SubmitEnabled | src/components/FileUploadStep.tsx:91 | the Upload button is enabled exactly when a file is selected and no upload is in flight |
| Upload.FileUploadStep.constructor | src/components/FileUploadStep.tsx:10-12 | no file, no error, not loading |
| Upload.FileUploadStep.OnDrop | src/components/FileUploadStep.tsx:14-25 | an empty drop changes nothing; only the first file is examined; an image is selected and the error cleared; a non-image clears the selection and sets "Only image files are allowed."; loading is never touched |
| Upload.FileUploadStep.StartSubmit | src/components/FileUploadStep.tsx:35-45 | without a file: no request, the prompt only, no state change; with a file: loading is set, so the button is disabled while the request is in flight, and a POST to the inference endpoint carries that file under the part name "file" |
| Upload.FileUploadStep.CompleteSubmit | src/components/FileUploadStep.tsx:47-59 | whatever the outcome, loading ends false and the file stays selected; a forwarded list is exactly what `Resolve` forwards and leaves the error as it was; a failure records exactly `Resolve`'s message; afterwards the button is enabled again exactly when a file is selected |
| Upload.FileUploadStep.HandleSubmit | src/components/FileUploadStep.tsx:35-63 | the whole submission: no file means no request and no state change; otherwise the request is issued and then the outcome is handled as in `CompleteSubmit`, ending with loading off and the button enabled again |
| Upload.ServerErrorScenario | src/components/FileUploadStep.tsx:51-59 | an image followed by a non-2xx response: the request failure message, loading off, the file still selected, nothing forwarded |
| Upload.SuccessScenario | src/components/FileUploadStep.tsx:14-63 | a list returned by a 200 response is forwarded verbatim; a later non-image drop clears the selection, so submitting only prompts |
| MapView.ThemeKey | src/components/MapStep.tsx:107-110 | the registry key of a theme is the value of the selector option at the theme's position in the registry |
| MapView.Source | src/components/MapStep.tsx:24-41 | the registry's tile sources: every maximum zoom is 18 or 19, and only the default imagery's is 18 |
| MapView.ThemeOfKey | src/components/MapStep.tsx:24-41 | the registry lookup gives back the theme of each of the four keys and fails for every other key |
| MapView.TileOffset | src/components/MapStep.tsx:24-45 | the offset of a theme's fresh tile object is its position in the registry, so it is below 4 and determines the theme; the default theme comes first |
| MapView.TileOffsetsDistinct | src/components/MapStep.tsx:24-41 | two different themes never share a tile object: the four `themes[key]` are distinct objects |
| MapView.IsLeafletMarker | src/components/MapStep.tsx:62 | `instanceof L.Marker` fails for tile layers and for circle markers, and holds for plain markers only |
| MapView.Hue | src/components/MapStep.tsx:72 | the fill hue is 0 for confidence 0, 120 for confidence 1 and 60 for confidence 0.5 |
| MapView.HueIsLinear | src/components/MapStep.tsx:72 | the hue is additive and strictly increasing in the confidence, without clamping |
| MapView.CircleMarkerFor | src/components/MapStep.tsx:69-81 | a location's marker is a circle marker, not an `L.Marker`, centred at its latitude and longitude, with the hue of its confidence |
| MapView.MarkerStyleIndependentOfLocation | src/components/MapStep.tsx:74-81 | every marker has radius 8, border #000, weight 1, opacity 1 and fill opacity 0.8; two markers' styles differ only in hue |
| MapView.WithoutMarkers | src/components/MapStep.tsx:61-65 | a layer survives the clearing exactly when it does not pass `instanceof L.Marker`, and it survives unchanged |
| MapView.NewMarkers | src/components/MapStep.tsx:68-82 | defined by recursion on the list: the markers of all but the last location, then the last location's circle marker at identity `base + |locs| - 1`; its properties are the four `NewMarkers*` lemmas |
| MapView.NewMarkersKeys | src/components/MapStep.tsx:68-82 | the markers added for a list occupy exactly the identities `base` to `base + |locs| - 1` |
| MapView.NewMarkersAt | src/components/MapStep.tsx:68-82 | the layer with identity `base + i` is the circle marker of the i-th location, so markers are added in list order |
| MapView.NewMarkersNoMarker | src/components/MapStep.tsx:74-81 | every added layer is a circle marker |
| MapView.NewMarkersCount | src/components/MapStep.tsx:68-82 | exactly one layer is added per location |
| MapView.EffectLayers | src/components/MapStep.tsx:43-82 | defined as the earlier layers plus the fresh default tile at identity `base`, without the `L.Marker` layers, together with the new circle markers from identity `base + 5`; its properties are the `Effect*` lemmas |
| MapView.EffectLayersSpec | src/components/MapStep.tsx:43-65 | after an effect run the fresh default tile layer is on the map, and every earlier layer that is not an `L.Marker` is still there unchanged |
| MapView.EffectLeavesNoMarker | src/components/MapStep.tsx:61-82 | after an effect run no plain marker is left, and every layer is an earlier one, the default tile layer or one of the new circle markers |
| MapView.EffectPlacesMarker | src/components/MapStep.tsx:68-82 | after an effect run the i-th location's circle marker is on the map |
| MapView.EffectCounts | src/components/MapStep.tsx:24-82 | an effect run keeps every earlier circle marker and adds exactly one per location, and it adds exactly one tile layer |
| MapView.RerunCircleMarkers | src/components/MapStep.tsx:61-82 | two runs over the same one-location list leave two circle markers |
| MapView.RerunTiles | src/components/MapStep.tsx:24-45 | two runs leave two default tile layers, because the `hasLayer` test never finds a fresh object |
| MapView.ThemeLayers | src/components/MapStep.tsx:47-56 | after a theme change the map holds only the selected theme's tile layer of that run; for a key outside the registry it holds nothing |
| MapView.ThemeChangeDropsAllMarkers | src/components/MapStep.tsx:47-56 | a theme change to a registered key leaves no marker and exactly one layer, the tile layer of that theme |
| MapView.WithoutListener | src/components/MapStep.tsx:85 | removing a listener drops every registration of that handler and keeps all others; removing a handler that is not registered changes nothing |
| MapView.LeafletMap.constructor | src/components/MapStep.tsx:15-19 | a new map has the given centre, zoom and zoom-control flag and no layers |
| MapView.LeafletMap.HasLayer | src/components/MapStep.tsx:43 | `map.hasLayer` answers whether that exact layer object is on the map |
| MapView.LeafletMap.AddLayer | src/components/MapStep.tsx:44 | `addTo(map)` puts the object on the map, and does nothing if it is already there |
| MapView.LeafletMap.RemoveLayer | src/components/MapStep.tsx:63 | `map.removeLayer` takes exactly that object off the map and keeps every other one |
| MapView.ClearMarkers | src/components/MapStep.tsx:61-65 | the `eachLayer` clearing loop leaves exactly the layers that do not pass `instanceof L.Marker` |
| MapView.ClearAllLayers | src/components/MapStep.tsx:51-53 | the theme handler's `eachLayer` loop removes every layer |
| MapView.AddCircleMarkers | src/components/MapStep.tsx:68-82 | the `forEach` loop adds exactly the circle markers of the list, numbered in list order, and keeps the other layers |
| MapView.AddDefaultTile | src/components/MapStep.tsx:43-45 | a tile object not yet on the map is added |
| MapView.RefreshMarkers | src/components/MapStep.tsx:60-82 | the clearing loop then the `forEach` loop: the non-`L.Marker` layers plus the new circle markers |
| MapView.DrawEffect | src/components/MapStep.tsx:43-82 | the map side of an effect run produces `EffectLayers` of the previous layers |
| MapView.MapStep.constructor | src/components/MapStep.tsx:11 | before the first run there is no map and no listener |
| MapView.MapStep.AtMostOneListener | src/components/MapStep.tsx:58-87 | at any point at most one theme handler is registered, and it is the one whose cleanup is pending |
| MapView.MapStep.Cleanup | src/components/MapStep.tsx:84-86 | the cleanup unregisters its own handler, leaving no listener |
| MapView.MapStep.Unmount | src/components/MapStep.tsx:84-87 | unmounting removes the listener and keeps the map instance |
| MapView.MapStep.RunEffect | src/components/MapStep.tsx:13-87 | the map is created only if none exists, at (0, 0), zoom 2, without zoom control, and it is reused afterwards; the layers become `EffectLayers` of the previous ones; exactly the new handler is registered and its cleanup is pending |
| MapView.MapStep.ThemeChange | src/components/MapStep.tsx:47-56 | with a listener registered the layers become `ThemeLayers` for the selected key; without one nothing changes |
| MapView.ThemeChangeRegression | src/components/MapStep.tsx:47-82 | after a first run there is one circle marker per location, and after a theme change to a registered key there are none |
| MapView.RerunKeepsEarlierCircleMarkers | src/components/MapStep.tsx:61-82 | two effect runs over one location leave two circle markers and two tile layers on the map |

## Left out

- Numbers: the source's numbers are IEEE-754 doubles; here they are reals, with no rounding.
- The `hsl(...)` colour string is not modelled: a marker keeps its hue as a real.
- `fetch`, `FormData` and `response.json()` are not performed. Their result is the `Outcome` parameter of `CompleteSubmit`.
  - A body that fails to parse is the `None` case of `predictions`.
  - A parsed body without a `predictions` field would forward `undefined`; that case is not modelled.
- `console.error` and the `alert` prompt are browser side effects. The prompt is returned as a value and never stored.
- The upload library's own `accept` and `maxFiles` filtering (src/components/FileUploadStep.tsx:27-33) is library behaviour. `OnDrop` receives whatever list it passes on.
- The race between an upload in flight and unmounting is a concurrency matter, outside this sequential model.
- The DOM is not modelled. `document.getElementById('theme')` is taken to find the selector, so registration and removal always happen.
  - The selected option's value is the `key` parameter of `ThemeChange`.
- Leaflet's internals are not modelled: tile fetching, rendering, and the user's own panning and zooming.
  - Layer objects are identified by fresh numbers, not by Leaflet's stamps.
  - Leaflet's shared vector renderer, which Leaflet adds to the map's layers along with the first circle marker, is not modelled. So `eachLayer` in the model never visits it, and the theme handler's clearing loop never removes it. No count by kind is affected. But `MapView.EffectLeavesNoMarker`'s claim that every layer is an earlier one, the default tile or a new circle marker covers only the three modelled kinds of layer.
  - The registry's URL templates and attributions are constant data (`Source`) and are never used.
- JSX markup, Bootstrap components, styles and the spinner are not modelled. `src/App.tsx` only renders the wizard.
- MapView.MapStep.ThemeChange: dispatches the change event to the first registered listener only. `MapStep.Valid()` keeps at most one listener registered, so this is all of them.
- For a key outside the registry, the handler throws after removing every layer. The model ends with no layers and models no exception.
