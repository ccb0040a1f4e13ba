/** The hotspot placement form: the adding-mode switch, the form fields, the
    hotspot a click on the panorama places, and the link-target choices. */
module HotspotPlacement {
  import opened TourTypes
  import opened Lists
  import opened TourStore
  import opened DataExport

  const DefaultTemplate := "expand"
  const PlaceholderText := "New Hotspot"

  /** The form fields a click reads. */
  datatype Draft = Draft(
    kind: HotspotKind,
    selectedSceneId: Option<string>,
    template: string,
    title: string,
    text: string,
    description: string,
    embedUrl: string,
    previewImageUrl: Option<string>)

  /** The hotspot placed at (yaw, pitch), which the viewer computes from the
      click position; `stamp` is the clock reading the id is made from. */
  function PlacedHotspot(d: Draft, stamp: string, yaw: Angle, pitch: Angle): (h: Hotspot)
    ensures h.id == "hotspot-" + stamp && h.kind == d.kind && h.yaw == yaw && h.pitch == pitch
    ensures h.text == (if d.text != "" then d.text else PlaceholderText) && h.text != ""
    ensures h.linkedSceneId == (if d.kind == Link then d.selectedSceneId else None)
    ensures h.embedUrl.Some? <==> d.kind == Embed
    ensures h.embedUrl.Some? ==> h.embedUrl.value == d.embedUrl
    ensures h.template == Some(d.template) && h.title == Some(d.title) && h.description == Some(d.description)
    ensures h.imageUrl.Some? ==> h.imageUrl == d.previewImageUrl && h.imageUrl.value != ""
    ensures d.previewImageUrl.Some? && d.previewImageUrl.value != "" ==> h.imageUrl == d.previewImageUrl
  {
    Hotspot(
      "hotspot-" + stamp,
      d.kind,
      if d.text != "" then d.text else PlaceholderText,
      yaw,
      pitch,
      if d.kind == Link then d.selectedSceneId else None,
      Some(d.template),
      Some(d.title),
      Some(d.description),
      if d.previewImageUrl.Some? && d.previewImageUrl.value != "" then d.previewImageUrl else None,
      if d.kind == Embed then Some(d.embedUrl) else None)
  }

  /** The scenes a link may target: every scene of the tour except the one
      being edited, in tour order; no choices while there is no tour. */
  function LinkTargetOptions(tour: Option<Tour>, currentSceneId: string): (r: seq<Scene>)
    ensures forall s :: s in r <==> tour.Some? && s in tour.value.scenes && s.id != currentSceneId
    ensures tour.Some? ==> r == SceneRemoved(tour.value, currentSceneId).scenes
    ensures tour.None? ==> r == []
  {
    if tour.Some? then Filter(tour.value.scenes, SceneIdIsNot(currentSceneId)) else []
  }

  /** What the export makes of a placed hotspot: a link with a chosen target
      becomes one link record to that target, an info hotspot one info record
      with its text (or the placeholder), an embed hotspot nothing. */
  lemma PlacedHotspotExport(d: Draft, stamp: string, yaw: Angle, pitch: Angle)
    ensures var h := PlacedHotspot(d, stamp, yaw, pitch);
      && (d.kind == Link && d.selectedSceneId.Some? && d.selectedSceneId.value != "" ==>
            LinkHotspots([h]) == [LinkRecord(yaw, pitch, 0, d.selectedSceneId.value, TemplateOrDefault(Some(d.template)))]
            && InfoHotspots([h]) == [])
      && (d.kind == Info ==>
            LinkHotspots([h]) == []
            && InfoHotspots([h]) == [InfoRecord(yaw, pitch, h.text, h.text, TemplateOrDefault(Some(d.template)))]
            && h.text == (if d.text == "" then PlaceholderText else d.text))
      && (d.kind == Embed ==> LinkHotspots([h]) == [] && InfoHotspots([h]) == [])
  {
    RecordsOfOne(PlacedHotspot(d, stamp, yaw, pitch));
  }

  /** Two scenes A and B; a link to B placed in A (which had no hotspots)
      exports as A's only link record, with B's id as target. Removing B
      afterwards leaves the record in place: the dangling target is exported. */
  lemma LinkBetweenTwoScenes(t: Tour, d: Draft, stamp: string, yaw: Angle, pitch: Angle)
    requires |t.scenes| == 2 && t.scenes[0].id != t.scenes[1].id && t.scenes[0].hotspots == []
    requires d.kind == Link && d.selectedSceneId == Some(t.scenes[1].id) && t.scenes[1].id != ""
    ensures var placed := HotspotAdded(t, t.scenes[0].id, PlacedHotspot(d, stamp, yaw, pitch));
            var link := LinkRecord(yaw, pitch, 0, t.scenes[1].id, TemplateOrDefault(Some(d.template)));
            && GenerateData(placed).scenes[0].linkHotspots == [link]
            && |SceneRemoved(placed, t.scenes[1].id).scenes| == 1
            && GenerateData(SceneRemoved(placed, t.scenes[1].id)).scenes[0].linkHotspots == [link]
  {
    var h := PlacedHotspot(d, stamp, yaw, pitch);
    var placed := HotspotAdded(t, t.scenes[0].id, h);
    PlacedHotspotExport(d, stamp, yaw, pitch);
    assert placed.scenes[0].hotspots == [h];
    var a, b := placed.scenes[0], placed.scenes[1];
    assert placed.scenes == [a, b];
    FilterAppend([a], [b], SceneIdIsNot(t.scenes[1].id));
    FilterSingleton(a, SceneIdIsNot(t.scenes[1].id));
    FilterSingleton(b, SceneIdIsNot(t.scenes[1].id));
    assert [a] + [b] == [a, b];
    assert SceneRemoved(placed, t.scenes[1].id).scenes == [a];
  }

  /** The placement form's state. `isAdding` belongs to the panorama view
      that hosts the form and is handed to it with its setter; the other
      fields are the form's own. The image file is represented by its name. */
  class HotspotForm {
    var isAdding: bool
    var kind: HotspotKind
    var selectedSceneId: Option<string>
    var template: string
    var title: string
    var text: string
    var description: string
    var image: Option<string>
    var embedUrl: string
    var previewImageUrl: Option<string>

    /** The fields a click reads. */
    function Snapshot(): Draft
      reads this
    {
      Draft(kind, selectedSceneId, template, title, text, description, embedUrl, previewImageUrl)
    }

    /** The state `resetHotspotState` leaves, which is also the initial one. */
    ghost predicate IsReset()
      reads this
    {
      && !isAdding && kind == Info && selectedSceneId == None && template == DefaultTemplate
      && title == "" && text == "" && description == "" && image == None
      && embedUrl == "" && previewImageUrl == None
    }

    constructor()
      ensures IsReset()
    {
      isAdding := false;
      kind := Info;
      selectedSceneId := None;
      template := DefaultTemplate;
      title := "";
      text := "";
      description := "";
      image := None;
      embedUrl := "";
      previewImageUrl := None;
    }

    /** `resetHotspotState` */
    method Reset()
      modifies this
      ensures IsReset()
    {
      isAdding := false;
      kind := Info;
      selectedSceneId := None;
      template := DefaultTemplate;
      title := "";
      text := "";
      description := "";
      image := None;
      embedUrl := "";
      previewImageUrl := None;
    }

    /** `toggleAddHotspotMode`: cancelling resets everything; starting only
        turns adding on. */
    method Toggle()
      modifies this
      ensures old(isAdding) ==> IsReset()
      ensures !old(isAdding) ==> isAdding && Snapshot() == old(Snapshot()) && image == old(image)
    {
      if isAdding {
        Reset();
      } else {
        isAdding := true;
      }
    }

    /** `handleImageUpload`: a chosen file is kept together with the preview
        URL the browser made for it; no file changes nothing. */
    method UploadImage(file: Option<string>, objectUrl: string)
      modifies this
      ensures file.Some? ==> image == file && previewImageUrl == Some(objectUrl)
      ensures file.Some? ==> Snapshot() == old(Snapshot()).(previewImageUrl := Some(objectUrl)) && isAdding == old(isAdding)
      ensures file.None? ==> unchanged(this)
    {
      if file.Some? {
        image := file;
        previewImageUrl := Some(objectUrl);
      }
    }

    /** `handleViewerClick`: without a viewer or outside adding mode nothing
        happens; otherwise the hotspot built from the form is added to the
        scene shown and the form is reset. */
    method Click(hasViewer: bool, store: Store, sceneId: string, stamp: string, yaw: Angle, pitch: Angle)
      modifies this, store
      ensures !(hasViewer && old(isAdding)) ==> unchanged(this) && unchanged(store)
      ensures hasViewer && old(isAdding) ==>
        && IsReset()
        && store.tour == (if old(store.tour).Some?
                          then Some(HotspotAdded(old(store.tour).value, sceneId, PlacedHotspot(old(Snapshot()), stamp, yaw, pitch)))
                          else None)
        && store.currentSceneId == old(store.currentSceneId)
    {
      if !hasViewer || !isAdding {
        return;
      }
      var h := PlacedHotspot(Snapshot(), stamp, yaw, pitch);
      store.AddHotspot(sceneId, h);
      Reset();
    }
  }
}
