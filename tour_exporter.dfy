/** The static-site export: the description of every scene that the generated
    `data.js` carries, and the list of files the archive receives. */
module DataExport {
  import opened TourTypes
  import opened Lists

  datatype Level = Level(tileSize: int, size: int, fallbackOnly: bool)

  datatype LinkRecord = LinkRecord(yaw: Angle, pitch: Angle, rotation: int, target: string, template: string)

  datatype InfoRecord = InfoRecord(yaw: Angle, pitch: Angle, title: string, text: string, template: string)

  datatype SceneRecord = SceneRecord(
    id: string,
    name: string,
    levels: seq<Level>,
    faceSize: int,
    initialViewParameters: ViewParameters,
    linkHotspots: seq<LinkRecord>,
    infoHotspots: seq<InfoRecord>)

  datatype Settings = Settings(
    mouseViewMode: string,
    autorotateEnabled: bool,
    fullscreenButton: bool,
    viewControlButtons: bool)

  /** The `APP_DATA` object of `data.js`. */
  datatype AppData = AppData(scenes: seq<SceneRecord>, name: string, settings: Settings)

  /** The single resolution level every exported scene gets. */
  const TileLevel := Level(256, 256, true)
  const FaceSize := 4000
  const ViewerSettings := Settings("drag", false, true, true)

  /** `hotspot.template || "default"`: a missing or empty template falls back. */
  function TemplateOrDefault(template: Option<string>): (r: string)
    ensures r != ""
    ensures r == "default" || template == Some(r)
    ensures template.Some? && template.value != "" ==> r == template.value
  {
    if template.Some? && template.value != "" then template.value else "default"
  }

  /** The link filter: type "link" and a non-empty target. Whether the target
      names a scene of the tour is not checked. */
  predicate IsExportedLink(h: Hotspot): (b: bool)
    ensures b ==> h.kind != Info && h.kind != Embed
    ensures b <==> h.kind == Link && h.linkedSceneId.Some? && h.linkedSceneId.value != ""
  {
    h.kind == Link && h.linkedSceneId.Some? && h.linkedSceneId.value != ""
  }

  predicate IsInfo(h: Hotspot) {
    h.kind == Info
  }

  /** The record of a hotspot that passed the link filter (the filter
      guarantees the target is present; the empty fallback is never used). */
  function LinkRecordOf(h: Hotspot): (r: LinkRecord)
    ensures r.yaw == h.yaw && r.pitch == h.pitch && r.rotation == 0
    ensures IsExportedLink(h) ==> r.target == h.linkedSceneId.value && r.target != ""
    ensures r.template != "" && (h.template.Some? && h.template.value != "" ==> r.template == h.template.value)
  {
    LinkRecord(h.yaw, h.pitch, 0,
               if h.linkedSceneId.Some? then h.linkedSceneId.value else "",
               TemplateOrDefault(h.template))
  }

  /** The record of an info hotspot: its text serves as both title and text. */
  function InfoRecordOf(h: Hotspot): (r: InfoRecord)
    ensures r.yaw == h.yaw && r.pitch == h.pitch
    ensures r.title == h.text && r.text == h.text
    ensures r.template != "" && (h.template.Some? && h.template.value != "" ==> r.template == h.template.value)
  {
    InfoRecord(h.yaw, h.pitch, h.text, h.text, TemplateOrDefault(h.template))
  }

  /** `linkHotspots`: every record points somewhere, never rotates, and has a
      template. */
  function LinkHotspots(hs: seq<Hotspot>): (r: seq<LinkRecord>)
    ensures |r| == |Filter(hs, IsExportedLink)| <= |hs|
    ensures forall k :: 0 <= k < |r| ==> r[k].rotation == 0 && r[k].target != "" && r[k].template != ""
  {
    var links := Filter(hs, IsExportedLink);
    assert forall k :: 0 <= k < |links| ==> links[k] in links;
    Map(links, LinkRecordOf)
  }

  /** `infoHotspots`: every record shows the hotspot's text as both title and
      text, and has a template. */
  function InfoHotspots(hs: seq<Hotspot>): (r: seq<InfoRecord>)
    ensures |r| == |Filter(hs, IsInfo)| <= |hs|
    ensures forall k :: 0 <= k < |r| ==> r[k].title == r[k].text && r[k].template != ""
  {
    Map(Filter(hs, IsInfo), InfoRecordOf)
  }

  /** One scene's description. Identity and initial view are copied, the
      geometry is fixed, and no hotspot lands in both lists. */
  function SceneRecordOf(s: Scene): (r: SceneRecord)
    ensures r.id == s.id && r.name == s.name && r.initialViewParameters == s.initialViewParameters
    ensures r.levels == [TileLevel] && r.faceSize == 4000
    ensures |r.linkHotspots| + |r.infoHotspots| <= |s.hotspots|
  {
    FilterDisjointLength(s.hotspots, IsExportedLink, IsInfo);
    SceneRecord(s.id, s.name, [TileLevel], FaceSize, s.initialViewParameters,
                LinkHotspots(s.hotspots), InfoHotspots(s.hotspots))
  }

  /** `generateDataJs`: one record per scene, in scene order. */
  function GenerateData(t: Tour): (d: AppData)
    ensures |d.scenes| == |t.scenes|
    ensures forall i :: 0 <= i < |t.scenes| ==> d.scenes[i] == SceneRecordOf(t.scenes[i])
    ensures d.name == t.title && d.settings == ViewerSettings
  {
    AppData(Map(t.scenes, SceneRecordOf), t.title, ViewerSettings)
  }

  // ---------------------------------------------------------------------
  // Properties of the hotspot lists.
  // ---------------------------------------------------------------------

  /** Both lists are built hotspot by hotspot: the records of a concatenation
      are the records of the parts, so the original order is kept. */
  lemma RecordsOfAppend(hs: seq<Hotspot>, more: seq<Hotspot>)
    ensures LinkHotspots(hs + more) == LinkHotspots(hs) + LinkHotspots(more)
    ensures InfoHotspots(hs + more) == InfoHotspots(hs) + InfoHotspots(more)
  {
    FilterAppend(hs, more, IsExportedLink);
    MapAppend(Filter(hs, IsExportedLink), Filter(more, IsExportedLink), LinkRecordOf);
    FilterAppend(hs, more, IsInfo);
    MapAppend(Filter(hs, IsInfo), Filter(more, IsInfo), InfoRecordOf);
  }

  /** What one hotspot contributes: a link record when it passes the link
      filter, an info record when it is an info hotspot, nothing otherwise. */
  lemma RecordsOfOne(h: Hotspot)
    ensures LinkHotspots([h]) == if IsExportedLink(h) then [LinkRecord(h.yaw, h.pitch, 0, h.linkedSceneId.value, TemplateOrDefault(h.template))] else []
    ensures InfoHotspots([h]) == if h.kind == Info then [InfoRecord(h.yaw, h.pitch, h.text, h.text, TemplateOrDefault(h.template))] else []
  {
    FilterSingleton(h, IsExportedLink);
    FilterSingleton(h, IsInfo);
  }

  /** A link whose target names no scene of the tour is exported all the same:
      the filter looks only at whether the target is non-empty. */
  lemma DanglingLinkIsExported(t: Tour, i: int, h: Hotspot)
    requires 0 <= i < |t.scenes| && h in t.scenes[i].hotspots
    requires h.kind == Link && h.linkedSceneId.Some? && h.linkedSceneId.value != ""
    requires forall s :: s in t.scenes ==> s.id != h.linkedSceneId.value
    ensures LinkRecord(h.yaw, h.pitch, 0, h.linkedSceneId.value, TemplateOrDefault(h.template))
            in GenerateData(t).scenes[i].linkHotspots
  {
    var links := Filter(t.scenes[i].hotspots, IsExportedLink);
    assert h in links;
    var k :| 0 <= k < |links| && links[k] == h;
    assert LinkHotspots(t.scenes[i].hotspots)[k] == LinkRecordOf(h);
  }

  predicate IsNotEmbed(h: Hotspot) {
    h.kind != Embed
  }

  /** Embed hotspots (and any other kind but the two exported ones) leave no
      trace: dropping them first changes neither list. */
  lemma EmbedsAreDropped(hs: seq<Hotspot>)
    ensures LinkHotspots(Filter(hs, IsNotEmbed)) == LinkHotspots(hs)
    ensures InfoHotspots(Filter(hs, IsNotEmbed)) == InfoHotspots(hs)
  {
    FilterNarrow(hs, IsExportedLink, IsNotEmbed);
    FilterNarrow(hs, IsInfo, IsNotEmbed);
  }

  // ---------------------------------------------------------------------
  // The archive.
  // ---------------------------------------------------------------------

  /** What an archive entry holds: the downloaded viewer library, the
      generated files, or the image downloaded from a scene's panorama URL. */
  datatype Content = ViewerLibrary | DataScript(data: AppData) | IndexPage | IndexScript | PanoramaImage(url: string)

  datatype Entry = Entry(path: string, content: Content)

  const ArchiveName := "virtual-tour.zip"

  function ImagePath(sceneId: string): string {
    "images/" + sceneId + ".jpg"
  }

  /** The files `exportTour` adds, in the order it adds them, and the name it
      saves the archive under. */
  method ExportArchive(t: Tour) returns (name: string, entries: seq<Entry>)
    ensures name == ArchiveName
    ensures |entries| == 4 + |t.scenes|
    ensures entries[..4] == [Entry("js/marzipano.js", ViewerLibrary),
                             Entry("data.js", DataScript(GenerateData(t))),
                             Entry("index.html", IndexPage),
                             Entry("index.js", IndexScript)]
    ensures forall i :: 0 <= i < |t.scenes| ==>
      entries[4 + i] == Entry(ImagePath(t.scenes[i].id), PanoramaImage(t.scenes[i].panoramaUrl))
  {
    var images: seq<Entry> := [];
    for i := 0 to |t.scenes|
      invariant |images| == i
      invariant forall j :: 0 <= j < i ==>
        images[j] == Entry(ImagePath(t.scenes[j].id), PanoramaImage(t.scenes[j].panoramaUrl))
    {
      var scene := t.scenes[i];
      images := images + [Entry(ImagePath(scene.id), PanoramaImage(scene.panoramaUrl))];
    }
    var data := GenerateData(t);
    entries := [Entry("js/marzipano.js", ViewerLibrary), Entry("data.js", DataScript(data)),
                Entry("index.html", IndexPage), Entry("index.js", IndexScript)] + images;
    name := ArchiveName;
  }

  /** Scenes with different ids get different image paths, and no image path
      is one of the four fixed ones, so distinct scene ids give an archive
      without two entries on one path. */
  lemma ImagePathsAreDistinct(a: string, b: string)
    ensures ImagePath(a) == ImagePath(b) ==> a == b
    ensures ImagePath(a) !in ["js/marzipano.js", "data.js", "index.html", "index.js"]
  {
    if ImagePath(a) == ImagePath(b) {
      assert |a| == |b|;
      assert a == ImagePath(a)[7..7 + |a|];
      assert b == ImagePath(b)[7..7 + |b|];
    }
    assert ImagePath(a)[0] == 'i' && ImagePath(a)[2] == 'a';
  }
}
