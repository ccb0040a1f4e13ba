# Virtual tour editor: the tour store, the hotspot form and the exporters

This project models the core of a browser editor for 360° panorama tours.
A tour has scenes. Each scene has a panorama image, an initial view and a
list of hotspots. A hotspot is an info marker, a link to another scene, or
an embedded page.

The model covers four parts of the editor:

- **The tour store** (`tour_store.dfy`, module `TourStore`). The store holds
  the tour being edited and the selected scene id. Its actions add, update
  and remove scenes and hotspots by id, building a new tour each time. A
  store without a tour stays without one. The class `Store` holds the two
  fields that change. The pure functions `SceneAdded` … `HotspotRemoved`
  give the new tour each action builds. Lemmas relate the actions to each
  other, and `ReplaySurvivors` describes any sequence of scene additions
  and removals. The store never keeps scene or hotspot ids unique: adding
  appends without a check, and an update can give a scene an id already in
  use, so "the scene with the id" below means every scene with it.
- **The viewer-data generator and the full export** (`tour_exporter.dfy`,
  module `DataExport`). The generator turns each scene into a viewer record
  with fixed geometry and two hotspot lists:
  - link records: link hotspots with a non-empty target;
  - info records: info hotspots, with the text used as the title.

  Embed hotspots are dropped. The full export is the list of files the
  archive receives, in order, and the name it is saved under.
- **The hotspot placement form** (`add_hotspots.dfy`, module
  `HotspotPlacement`). The class `HotspotForm` holds the form's fields and
  the adding-mode flag. Its methods are reset, toggle, image upload and the
  click that places a hotspot. `PlacedHotspot` is the hotspot a click
  builds. `LinkTargetOptions` lists the scenes a link may point to.
- **The export panel** (`export_panel.dfy`, module `ExportPanel`). The panel
  offers two downloads: the tour as JSON and a four-file bundle. Each is
  saved under a name derived from the title, with every whitespace run
  replaced by one underscore. The generated page title falls back to
  "Virtual Tour".

Shared types are in `types.dfy` (module `TourTypes`). Generic `Map` and
`Filter` on sequences and their algebra are in `lists.dfy` (module
`Lists`).

Yaw, pitch and field of view are values of an abstract type `Angle`. No
property depends on them being numbers.

The export checks only that a link's target is non-empty. It does not check
that the target names a scene of the tour, so a link to a missing scene is
still exported. `DataExport.DanglingLinkIsExported` and
`HotspotPlacement.LinkBetweenTwoScenes` state this.

## Model

| member | source | states |
|---|---|---|
| TourStore.Store.constructor | src/store/tourStore.ts:22-24 | the store starts with no tour and no selected scene |
| TourStore.Store.SetTour | src/store/tourStore.ts:25 | the tour is replaced and the selection is kept |
| TourStore.Store.AddScene | src/store/tourStore.ts:26-31 | with a tour, the tour becomes `SceneAdded` of it; without one, it stays absent; the selection is kept |
| TourStore.Store.UpdateScene | src/store/tourStore.ts:32-42 | with a tour, the tour becomes `SceneUpdated` of it; without one, it stays absent; the selection is kept |
| TourStore.Store.RemoveScene | src/store/tourStore.ts:43-51 | with a tour, the tour becomes `SceneRemoved` of it; without one, it stays absent; the selection is kept |
| TourStore.Store.SetCurrentScene | src/store/tourStore.ts:52 | the selection becomes the given id, unchecked against the scenes; the tour is kept |
| TourStore.Store.AddHotspot | src/store/tourStore.ts:53-65 | with a tour, the tour becomes `HotspotAdded` of it; without one, it stays absent; the selection is kept |
| TourStore.Store.UpdateHotspot | src/store/tourStore.ts:66-85 | with a tour, the tour becomes `HotspotUpdated` of it; without one, it stays absent; the selection is kept |
| TourStore.Store.RemoveHotspot | src/store/tourStore.ts:86-103 | with a tour, the tour becomes `HotspotRemoved` of it; without one, it stays absent; the selection is kept |
| TourStore.SceneAdded | src/store/tourStore.ts:26-31 | the scene list grows by one; the old scenes form its prefix and the new scene is last; the other tour fields are unchanged |
| TourStore.MergeScene | src/store/tourStore.ts:38 | each field the update carries takes the update's value; every other field keeps the scene's |
| TourStore.MergeHotspot | src/store/tourStore.ts:77 | each field the update carries takes the update's value, and an optional field can be cleared; every other field keeps the hotspot's |
| TourStore.SceneUpdated | src/store/tourStore.ts:32-42 | same length and order; each scene with the id is merged with the update field by field; every other scene and tour field is unchanged |
| TourStore.SceneRemoved | src/store/tourStore.ts:43-51 | a scene is in the result exactly when it was in the tour and its id differs; the other tour fields are unchanged |
| TourStore.HotspotAdded | src/store/tourStore.ts:53-65 | each scene with the id gets the hotspot appended; every other scene and tour field is unchanged |
| TourStore.HotspotUpdated | src/store/tourStore.ts:66-85 | only hotspots with the hotspot id, inside scenes with the scene id, are merged with the update; no list changes length or order |
| TourStore.HotspotRemoved | src/store/tourStore.ts:86-103 | in scenes with the scene id, a hotspot remains exactly when its id differs; other scenes and the scene's other fields are unchanged |
| TourStore.RemoveAfterAdd | src/store/tourStore.ts:26-51 | removing an id after adding a scene equals removing it from the old scenes, with the new scene appended when its id differs |
| TourStore.RemoveAbsentScene | src/store/tourStore.ts:43-51 | removing an id no scene has leaves the tour equal |
| TourStore.RemoveSceneTwice | src/store/tourStore.ts:43-51 | removing a scene id is idempotent |
| TourStore.UpdateSceneTwice | src/store/tourStore.ts:32-42 | applying the same scene update twice equals applying it once, even when the update changes the id |
| TourStore.UpdateAbsentScene | src/store/tourStore.ts:32-42 | updating an id no scene has leaves the tour equal |
| TourStore.AddHotspotToAbsentScene | src/store/tourStore.ts:53-65 | adding a hotspot to a scene id no scene has leaves the tour equal, so the hotspot is silently lost |
| TourStore.TextUpdateChangesOnlyText | src/store/tourStore.ts:66-85 | an update that carries only a text changes the matching hotspot's text and nothing else about it |
| TourStore.RemoveHotspotAfterAdd | src/store/tourStore.ts:53-103 | removing a hotspot id after adding a hotspot to the same scene id drops the added hotspot when its id matches, and otherwise gives the remaining hotspots in their original order followed by the added one |
| TourStore.AddSceneCanDuplicateId | src/store/tourStore.ts:26-31 | adding a scene whose id is already taken leaves two scenes with that id |
| TourStore.RemoveHotspotSparesOtherScenes | src/store/tourStore.ts:86-103 | a hotspot in a scene other than the named one survives removal even when it has the removed id |
| TourStore.ReplaySurvivors | src/store/tourStore.ts:26-51 | after any sequence of adds and removes, the scenes are: the original scenes no later action removes, then the added scenes no later action removes, each in order; the other tour fields are unchanged |
| Lists.Map | src/store/tourStore.ts:37-39 | the result has the input's length, and element i is f of input element i |
| Lists.Filter | src/store/tourStore.ts:48 | the result is no longer than the input, and it holds exactly the input elements that pass |
| Lists.FilterAppend | src/utils/tourExporter.ts:55-61 | filtering a concatenation is concatenating the filtered parts |
| Lists.FilterFilter | src/store/tourStore.ts:48 | filtering twice equals filtering once by the conjunction |
| DataExport.TemplateOrDefault | src/utils/tourExporter.ts:67 | the template is never empty; it is the hotspot's own template when that is present and non-empty, and "default" otherwise |
| DataExport.IsExportedLink | src/utils/tourExporter.ts:56-61 | a hotspot passes exactly when it is a link with a present, non-empty target; no info or embed hotspot passes |
| DataExport.LinkRecordOf | src/utils/tourExporter.ts:62-68 | copies yaw and pitch, rotation 0; for a hotspot that passed the filter, the target is its non-empty linked scene id; the template is never empty and is the hotspot's own when non-empty |
| DataExport.InfoRecordOf | src/utils/tourExporter.ts:74-80 | copies yaw and pitch; both title and text are the hotspot's text; the template is never empty and is the hotspot's own when non-empty |
| DataExport.LinkHotspots | src/utils/tourExporter.ts:55-68 | one record per hotspot passing the link filter; each record has rotation 0, a non-empty target and a non-empty template |
| DataExport.InfoHotspots | src/utils/tourExporter.ts:69-80 | one record per info hotspot; each record has title equal to text and a non-empty template |
| DataExport.SceneRecordOf | src/utils/tourExporter.ts:43-81 | id, name and initial view are copied; one 256/256 fallback level and face size 4000; link and info records together number at most the hotspots |
| DataExport.GenerateData | src/utils/tourExporter.ts:42-93 | one record per scene in scene order; the name is the tour title; the settings are drag mode, no autorotate, fullscreen and view-control buttons |
| DataExport.RecordsOfAppend | src/utils/tourExporter.ts:55-80 | both record lists of a concatenation are the concatenated lists of the parts, so hotspot order is kept |
| DataExport.RecordsOfOne | src/utils/tourExporter.ts:55-80 | a single hotspot gives a link record exactly when it passes the link filter, and an info record exactly when it is an info hotspot |
| DataExport.DanglingLinkIsExported | src/utils/tourExporter.ts:55-68 | a link whose non-empty target names no scene of the tour still yields its link record |
| DataExport.EmbedsAreDropped | src/utils/tourExporter.ts:55-80 | removing embed hotspots first changes neither list: embeds contribute nothing |
| DataExport.ExportArchive | src/utils/tourExporter.ts:6-34 | the archive is named "virtual-tour.zip"; it holds the library, the generated data, the page and the script, then one image per scene at images/ + id + .jpg from that scene's panorama URL, in scene order |
| DataExport.ImagePathsAreDistinct | src/utils/tourExporter.ts:25-29 | distinct scene ids give distinct image paths, and no image path equals a fixed entry's path |
| HotspotPlacement.PlacedHotspot | src/components/editors/hotspots/addHotspots.tsx:111-124 | the id is "hotspot-" + stamp; the text is the entered text, or "New Hotspot" when that is empty, for every kind; only links carry the selected target; the embed URL is present exactly for embeds; the image URL is present exactly when the preview is non-empty; template, title and description are copied |
| HotspotPlacement.LinkTargetOptions | src/components/editors/hotspots/addHotspots.tsx:290-291 | a scene is offered exactly when it is in the tour and is not the scene being edited; the options are the tour's scenes after `removeScene` of the edited id, so tour order is kept; no tour, no options |
| HotspotPlacement.PlacedHotspotExport | src/components/editors/hotspots/addHotspots.tsx:111-124 | a placed link with a target exports as one link record to it; a placed info hotspot exports as one info record with its text or the placeholder; a placed embed exports as nothing |
| HotspotPlacement.LinkBetweenTwoScenes | src/components/editors/hotspots/addHotspots.tsx:111-127 | in a two-scene tour, a link placed in A to B is A's only link record, and it stays after B is removed |
| HotspotPlacement.HotspotForm.constructor | src/components/editors/hotspots/addHotspots.tsx:59-72 | the form starts in the reset state |
| HotspotPlacement.HotspotForm.Reset | src/components/editors/hotspots/addHotspots.tsx:74-85 | adding mode is off, type is info, template is "expand", and every other field is empty |
| HotspotPlacement.HotspotForm.Toggle | src/components/editors/hotspots/addHotspots.tsx:146-152 | leaving adding mode resets the form; entering it changes only the flag |
| HotspotPlacement.HotspotForm.UploadImage | src/components/editors/hotspots/addHotspots.tsx:87-95 | a chosen file is kept with its preview URL and nothing else changes; no file changes nothing |
| HotspotPlacement.HotspotForm.Click | src/components/editors/hotspots/addHotspots.tsx:97-144 | without a viewer or outside adding mode, nothing changes; otherwise the store gains `PlacedHotspot` of the form in the shown scene and the form is reset |
| ExportPanel.WhitespaceClass | src/components/editors/TourExporter.tsx:15 | `IsWhitespace`, the `\s` class, holds space, tab, newline, carriage return and the no-break space, and no letter, digit, underscore, hyphen or period |
| ExportPanel.StemFrom | src/components/editors/TourExporter.tsx:15 | the stem is never longer than the title |
| ExportPanel.StemHasNoWhitespace | src/components/editors/TourExporter.tsx:15 | the stem contains no whitespace character |
| ExportPanel.JsonFilename | src/components/editors/TourExporter.tsx:15 | the name is the stem followed by "_tour_config.json" and contains no whitespace |
| ExportPanel.ZipFilename | src/components/editors/TourExporter.tsx:92 | the name is the stem followed by "_tour_export.zip" and contains no whitespace |
| ExportPanel.StemOfPlainTitle | src/components/editors/TourExporter.tsx:15 | a title without whitespace is its own stem |
| ExportPanel.StemOfWhitespaceRun | src/components/editors/TourExporter.tsx:15 | a non-empty all-whitespace title becomes a single underscore |
| ExportPanel.StemKeepsText | src/components/editors/TourExporter.tsx:15 | apart from underscores, the stem is exactly the title's non-whitespace characters, in order |
| ExportPanel.StemFromAppend | src/components/editors/TourExporter.tsx:15 | the stem of a concatenation is the stem of the first part, then the stem of the second read on from where the first ended |
| ExportPanel.StemAppend | src/components/editors/TourExporter.tsx:15 | when the first part ends in a non-whitespace character, the stem of the concatenation is the concatenation of the stems |
| ExportPanel.StemAppendMergesRuns | src/components/editors/TourExporter.tsx:15 | when whitespace meets whitespace at the joint, the two runs give one underscore |
| ExportPanel.PageTitle | src/components/editors/TourExporter.tsx:26 | the page title is the tour title when there is a non-empty one, and "Virtual Tour" otherwise; it is never empty |
| ExportPanel.JsonExport | src/components/editors/TourExporter.tsx:11-17 | no download without a tour; otherwise the tour itself, saved under `JsonFilename` of its title |
| ExportPanel.ZipExport | src/components/editors/TourExporter.tsx:82-94 | no download without a tour; otherwise exactly index.html with the page title, styles.css, tour-config.js with the tour, and tour.js, saved under `ZipFilename` |
| ExportPanel.ZipHasNoImages | src/components/editors/TourExporter.tsx:86-89 | the bundle holds no panorama image, unlike the full export |

## Left out

- Rendering and the viewer library: creating the panorama viewer and turning a click position into yaw and pitch (`screenToCoordinates`). Yaw and pitch are parameters of `HotspotForm.Click`.
- Network and browser services: the downloads (`fetch` of the viewer library and the panoramas), zip compression, `saveAs` and `URL.createObjectURL`. An archive is modelled as the list of files added, in order, with their content described by a datatype. The object URL is a parameter of `UploadImage`.
- DataExport.ExportArchive: always returns the full archive; the model has no failing downloads. In the source, a network error makes `fetch` reject, so `exportTour` rejects and saves no archive. An HTTP error status is different: `fetch` resolves, the response is not checked, its body is stored in place of the library or image, and the archive is still saved.
- `Date.now()`: the clock reading that makes a hotspot id is the `stamp` parameter.
- Text templates: the JSON serialisation, and the HTML, CSS and JavaScript text of the generated files. The generated runtime script, and which scene it opens first, is not part of this model. The page title and the viewer data are modelled as values.
- Zip path collisions: two scenes with the same id would write one image path twice, and the archive keeps the later file. The model lists both additions. `ImagePathsAreDistinct` shows distinct ids never collide.
- Partial updates are modelled with one optional value per field. An update that explicitly sets a required field to `undefined` is not modelled. Optional hotspot fields can be set to absent.
- The JSON round trip of a tour (serialise, then parse back): the serialiser is not modelled.
- DOM event wiring, drag handling, the form's individual field setters and the remaining editor components.
- DataExport.LinkRecordOf: uses "" for a missing target, but it is only applied to hotspots that passed the link filter, which guarantees a non-empty target.
