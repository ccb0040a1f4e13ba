/** The editor's tour store: a nullable tour and the id of the scene on
    screen. Every action replaces the tour with a copy built by `map`, `filter`
    and object spread; those copies are the pure functions below, and the
    `Store` class at the end assigns them to its fields. */
module TourStore {
  import opened TourTypes
  import opened Lists

  /** `Partial<Scene>`: each field is either absent (`None`) or present with
      the value it gives the scene. */
  datatype SceneUpdate = SceneUpdate(
    id: Option<string>,
    name: Option<string>,
    panoramaUrl: Option<string>,
    thumbnail: Option<string>,
    hotspots: Option<seq<Hotspot>>,
    initialViewParameters: Option<ViewParameters>)

  /** `Partial<Hotspot>`. For a field the hotspot itself may lack, a present
      entry carries an `Option`, so that an update can also clear the field. */
  datatype HotspotUpdate = HotspotUpdate(
    id: Option<string>,
    kind: Option<HotspotKind>,
    text: Option<string>,
    yaw: Option<Angle>,
    pitch: Option<Angle>,
    linkedSceneId: Option<Option<string>>,
    template: Option<Option<string>>,
    title: Option<Option<string>>,
    description: Option<Option<string>>,
    imageUrl: Option<Option<string>>,
    embedUrl: Option<Option<string>>)

  /** The value a field has after `{ ...current, ...updates }`. */
  function Pick<T>(update: Option<T>, current: T): T {
    if update.Some? then update.value else current
  }

  /** `{ ...scene, ...updates }`: a field the update carries takes the
      update's value; every other field keeps the scene's. */
  function MergeScene(s: Scene, u: SceneUpdate): (r: Scene)
    ensures (u.id.Some? ==> r.id == u.id.value) && (u.id.None? ==> r.id == s.id)
    ensures (u.name.Some? ==> r.name == u.name.value) && (u.name.None? ==> r.name == s.name)
    ensures (u.panoramaUrl.Some? ==> r.panoramaUrl == u.panoramaUrl.value) && (u.panoramaUrl.None? ==> r.panoramaUrl == s.panoramaUrl)
    ensures (u.thumbnail.Some? ==> r.thumbnail == u.thumbnail.value) && (u.thumbnail.None? ==> r.thumbnail == s.thumbnail)
    ensures (u.hotspots.Some? ==> r.hotspots == u.hotspots.value) && (u.hotspots.None? ==> r.hotspots == s.hotspots)
    ensures (u.initialViewParameters.Some? ==> r.initialViewParameters == u.initialViewParameters.value)
         && (u.initialViewParameters.None? ==> r.initialViewParameters == s.initialViewParameters)
  {
    Scene(
      Pick(u.id, s.id),
      Pick(u.name, s.name),
      Pick(u.panoramaUrl, s.panoramaUrl),
      Pick(u.thumbnail, s.thumbnail),
      Pick(u.hotspots, s.hotspots),
      Pick(u.initialViewParameters, s.initialViewParameters))
  }

  /** `{ ...hotspot, ...updates }`: a field the update carries takes the
      update's value (for an optional field, possibly absent); every other
      field keeps the hotspot's. */
  function MergeHotspot(h: Hotspot, u: HotspotUpdate): (r: Hotspot)
    ensures (u.id.Some? ==> r.id == u.id.value) && (u.id.None? ==> r.id == h.id)
    ensures (u.kind.Some? ==> r.kind == u.kind.value) && (u.kind.None? ==> r.kind == h.kind)
    ensures (u.text.Some? ==> r.text == u.text.value) && (u.text.None? ==> r.text == h.text)
    ensures (u.yaw.Some? ==> r.yaw == u.yaw.value) && (u.yaw.None? ==> r.yaw == h.yaw)
    ensures (u.pitch.Some? ==> r.pitch == u.pitch.value) && (u.pitch.None? ==> r.pitch == h.pitch)
    ensures (u.linkedSceneId.Some? ==> r.linkedSceneId == u.linkedSceneId.value) && (u.linkedSceneId.None? ==> r.linkedSceneId == h.linkedSceneId)
    ensures (u.template.Some? ==> r.template == u.template.value) && (u.template.None? ==> r.template == h.template)
    ensures (u.title.Some? ==> r.title == u.title.value) && (u.title.None? ==> r.title == h.title)
    ensures (u.description.Some? ==> r.description == u.description.value) && (u.description.None? ==> r.description == h.description)
    ensures (u.imageUrl.Some? ==> r.imageUrl == u.imageUrl.value) && (u.imageUrl.None? ==> r.imageUrl == h.imageUrl)
    ensures (u.embedUrl.Some? ==> r.embedUrl == u.embedUrl.value) && (u.embedUrl.None? ==> r.embedUrl == h.embedUrl)
  {
    Hotspot(
      Pick(u.id, h.id),
      Pick(u.kind, h.kind),
      Pick(u.text, h.text),
      Pick(u.yaw, h.yaw),
      Pick(u.pitch, h.pitch),
      Pick(u.linkedSceneId, h.linkedSceneId),
      Pick(u.template, h.template),
      Pick(u.title, h.title),
      Pick(u.description, h.description),
      Pick(u.imageUrl, h.imageUrl),
      Pick(u.embedUrl, h.embedUrl))
  }

  /** An update that sets only the hotspot's text. */
  function TextOnly(text: string): HotspotUpdate {
    HotspotUpdate(None, None, Some(text), None, None, None, None, None, None, None, None)
  }

  /** The filter predicate of `removeScene`: keep the scenes whose id differs. */
  function SceneIdIsNot(sceneId: string): Scene -> bool {
    (s: Scene) => s.id != sceneId
  }

  /** The filter predicate of `removeHotspot`. */
  function HotspotIdIsNot(hotspotId: string): Hotspot -> bool {
    (h: Hotspot) => h.id != hotspotId
  }

  // ---------------------------------------------------------------------
  // The new tour each action builds (when there is a tour at all).
  // ---------------------------------------------------------------------

  /** `addScene`: the scene goes last; the scenes before it and the tour's
      other fields are kept. */
  function SceneAdded(t: Tour, scene: Scene): (r: Tour)
    ensures |r.scenes| == |t.scenes| + 1
    ensures r.scenes[..|t.scenes|] == t.scenes && r.scenes[|t.scenes|] == scene
    ensures r.(scenes := t.scenes) == t
  {
    t.(scenes := t.scenes + [scene])
  }

  /** `updateScene`: every scene with the id is shallow-merged with the update;
      the others, the order and the length are kept. */
  function SceneUpdated(t: Tour, sceneId: string, u: SceneUpdate): (r: Tour)
    ensures r.(scenes := t.scenes) == t
    ensures |r.scenes| == |t.scenes|
    ensures forall i :: 0 <= i < |t.scenes| ==>
      r.scenes[i] == if t.scenes[i].id == sceneId then MergeScene(t.scenes[i], u) else t.scenes[i]
  {
    t.(scenes := Map(t.scenes, (s: Scene) => if s.id == sceneId then MergeScene(s, u) else s))
  }

  /** `removeScene`: exactly the scenes whose id differs remain. */
  function SceneRemoved(t: Tour, sceneId: string): (r: Tour)
    ensures r.(scenes := t.scenes) == t
    ensures forall s :: s in r.scenes <==> s in t.scenes && s.id != sceneId
  {
    t.(scenes := Filter(t.scenes, SceneIdIsNot(sceneId)))
  }

  /** `addHotspot`: every scene with the id gets the hotspot appended. */
  function HotspotAdded(t: Tour, sceneId: string, h: Hotspot): (r: Tour)
    ensures r.(scenes := t.scenes) == t
    ensures |r.scenes| == |t.scenes|
    ensures forall i :: 0 <= i < |t.scenes| ==>
      r.scenes[i] == if t.scenes[i].id == sceneId
                     then t.scenes[i].(hotspots := t.scenes[i].hotspots + [h])
                     else t.scenes[i]
  {
    t.(scenes := Map(t.scenes, (s: Scene) =>
      if s.id == sceneId then s.(hotspots := s.hotspots + [h]) else s))
  }

  /** `updateHotspot`: inside every scene with the scene id, every hotspot with
      the hotspot id is shallow-merged with the update; nothing else changes,
      and no list changes length or order. */
  function HotspotUpdated(t: Tour, sceneId: string, hotspotId: string, u: HotspotUpdate): (r: Tour)
    ensures r.(scenes := t.scenes) == t
    ensures |r.scenes| == |t.scenes|
    ensures forall i :: 0 <= i < |t.scenes| && t.scenes[i].id != sceneId ==> r.scenes[i] == t.scenes[i]
    ensures forall i :: 0 <= i < |t.scenes| && t.scenes[i].id == sceneId ==>
      && r.scenes[i].(hotspots := t.scenes[i].hotspots) == t.scenes[i]
      && |r.scenes[i].hotspots| == |t.scenes[i].hotspots|
      && forall j :: 0 <= j < |t.scenes[i].hotspots| ==>
           r.scenes[i].hotspots[j] == if t.scenes[i].hotspots[j].id == hotspotId
                                      then MergeHotspot(t.scenes[i].hotspots[j], u)
                                      else t.scenes[i].hotspots[j]
  {
    t.(scenes := Map(t.scenes, (s: Scene) =>
      if s.id == sceneId
      then s.(hotspots := Map(s.hotspots, (h: Hotspot) => if h.id == hotspotId then MergeHotspot(h, u) else h))
      else s))
  }

  /** `removeHotspot`: inside every scene with the scene id, exactly the
      hotspots whose id differs remain; other scenes are untouched. */
  function HotspotRemoved(t: Tour, sceneId: string, hotspotId: string): (r: Tour)
    ensures r.(scenes := t.scenes) == t
    ensures |r.scenes| == |t.scenes|
    ensures forall i :: 0 <= i < |t.scenes| && t.scenes[i].id != sceneId ==> r.scenes[i] == t.scenes[i]
    ensures forall i :: 0 <= i < |t.scenes| && t.scenes[i].id == sceneId ==>
      && r.scenes[i].(hotspots := t.scenes[i].hotspots) == t.scenes[i]
      && forall h :: h in r.scenes[i].hotspots <==> h in t.scenes[i].hotspots && h.id != hotspotId
  {
    t.(scenes := Map(t.scenes, (s: Scene) =>
      if s.id == sceneId then s.(hotspots := Filter(s.hotspots, HotspotIdIsNot(hotspotId))) else s))
  }

  // ---------------------------------------------------------------------
  // Properties relating several actions.
  // ---------------------------------------------------------------------

  /** Removing a scene from a tour whose last scene was just added: the new
      scene survives exactly when its id differs, and stays last. */
  lemma RemoveAfterAdd(t: Tour, scene: Scene, sceneId: string)
    ensures SceneRemoved(SceneAdded(t, scene), sceneId).scenes
         == SceneRemoved(t, sceneId).scenes + (if scene.id == sceneId then [] else [scene])
  {
    FilterAppend(t.scenes, [scene], SceneIdIsNot(sceneId));
    assert Filter([scene], SceneIdIsNot(sceneId))
        == (if scene.id == sceneId then [] else [scene]) + Filter([], SceneIdIsNot(sceneId));
  }

  /** Removing an id that no scene has changes nothing. */
  lemma RemoveAbsentScene(t: Tour, sceneId: string)
    requires forall s :: s in t.scenes ==> s.id != sceneId
    ensures SceneRemoved(t, sceneId) == t
  {
    FilterKeepsAll(t.scenes, SceneIdIsNot(sceneId));
  }

  /** Removing the same scene id twice is removing it once. */
  lemma RemoveSceneTwice(t: Tour, sceneId: string)
    ensures SceneRemoved(SceneRemoved(t, sceneId), sceneId) == SceneRemoved(t, sceneId)
  {
    FilterIdempotent(t.scenes, SceneIdIsNot(sceneId));
  }

  /** Applying the same scene update twice is applying it once, even when the
      update renames the scene. */
  lemma UpdateSceneTwice(t: Tour, sceneId: string, u: SceneUpdate)
    ensures SceneUpdated(SceneUpdated(t, sceneId, u), sceneId, u) == SceneUpdated(t, sceneId, u)
  {
    var once := SceneUpdated(t, sceneId, u);
    var twice := SceneUpdated(once, sceneId, u);
    assert twice.scenes == once.scenes;
  }

  /** Updating an id that no scene has changes nothing. */
  lemma UpdateAbsentScene(t: Tour, sceneId: string, u: SceneUpdate)
    requires forall s :: s in t.scenes ==> s.id != sceneId
    ensures SceneUpdated(t, sceneId, u) == t
  {
    assert SceneUpdated(t, sceneId, u).scenes == t.scenes;
  }

  /** Adding a hotspot to an id that no scene has changes nothing. */
  lemma AddHotspotToAbsentScene(t: Tour, sceneId: string, h: Hotspot)
    requires forall s :: s in t.scenes ==> s.id != sceneId
    ensures HotspotAdded(t, sceneId, h) == t
  {
    assert HotspotAdded(t, sceneId, h).scenes == t.scenes;
  }

  /** A text-only update of a hotspot changes its text and nothing else. */
  lemma TextUpdateChangesOnlyText(t: Tour, sceneId: string, hotspotId: string, text: string, i: int, j: int)
    requires 0 <= i < |t.scenes| && t.scenes[i].id == sceneId
    requires 0 <= j < |t.scenes[i].hotspots| && t.scenes[i].hotspots[j].id == hotspotId
    ensures HotspotUpdated(t, sceneId, hotspotId, TextOnly(text)).scenes[i].hotspots[j]
         == t.scenes[i].hotspots[j].(text := text)
  {
  }

  /** Removing a hotspot id after adding a hotspot to the same scene id:
      the added hotspot goes when its id matches and otherwise stays last,
      behind the survivors in their original order. */
  lemma RemoveHotspotAfterAdd(t: Tour, sceneId: string, h: Hotspot, hotspotId: string)
    ensures HotspotRemoved(HotspotAdded(t, sceneId, h), sceneId, hotspotId)
         == if h.id == hotspotId then HotspotRemoved(t, sceneId, hotspotId)
            else HotspotAdded(HotspotRemoved(t, sceneId, hotspotId), sceneId, h)
  {
    var lhs := HotspotRemoved(HotspotAdded(t, sceneId, h), sceneId, hotspotId);
    var rhs := if h.id == hotspotId then HotspotRemoved(t, sceneId, hotspotId)
               else HotspotAdded(HotspotRemoved(t, sceneId, hotspotId), sceneId, h);
    forall i | 0 <= i < |t.scenes| && t.scenes[i].id == sceneId
      ensures lhs.scenes[i] == rhs.scenes[i]
    {
      var hs := t.scenes[i].hotspots;
      FilterAppend(hs, [h], HotspotIdIsNot(hotspotId));
      FilterSingleton(h, HotspotIdIsNot(hotspotId));
      assert Filter(hs, HotspotIdIsNot(hotspotId)) + [] == Filter(hs, HotspotIdIsNot(hotspotId));
    }
    assert lhs.scenes == rhs.scenes;
  }

  /** The store does not keep scene ids unique: adding a scene whose id is
      already taken gives two scenes with that id. */
  lemma AddSceneCanDuplicateId(t: Tour, scene: Scene, i: int)
    requires 0 <= i < |t.scenes| && t.scenes[i].id == scene.id
    ensures var r := SceneAdded(t, scene);
            i != |t.scenes| && r.scenes[i].id == r.scenes[|t.scenes|].id == scene.id
  {
  }

  /** A hotspot in a scene other than the one named survives `removeHotspot`,
      even when it carries the id being removed. */
  lemma RemoveHotspotSparesOtherScenes(t: Tour, sceneId: string, hotspotId: string, i: int, h: Hotspot)
    requires 0 <= i < |t.scenes| && t.scenes[i].id != sceneId && h in t.scenes[i].hotspots
    ensures h in HotspotRemoved(t, sceneId, hotspotId).scenes[i].hotspots
  {
  }

  // ---------------------------------------------------------------------
  // Sequences of scene additions and removals.
  // ---------------------------------------------------------------------

  datatype SceneOp = AddOp(scene: Scene) | RemoveOp(sceneId: string)

  /** The tour after applying the actions in order. */
  function Replay(t: Tour, ops: seq<SceneOp>): Tour
    decreases |ops|
  {
    if ops == [] then t
    else
      var next := match ops[0]
        case AddOp(s) => SceneAdded(t, s)
        case RemoveOp(id) => SceneRemoved(t, id);
      Replay(next, ops[1..])
  }

  /** Whether no later action removes the id. */
  function NotRemovedBy(ops: seq<SceneOp>): Scene -> bool {
    (s: Scene) => RemoveOp(s.id) !in ops
  }

  /** The added scenes that no later action removes, in the order added. */
  function AddedSurvivors(ops: seq<SceneOp>): seq<Scene>
    decreases |ops|
  {
    if ops == [] then []
    else
      (if ops[0].AddOp? && RemoveOp(ops[0].scene.id) !in ops[1..] then [ops[0].scene] else [])
      + AddedSurvivors(ops[1..])
  }

  /** An addition that is the first action does not change which of the
      earlier scenes survive. */
  lemma AddDoesNotRemove(scenes: seq<Scene>, s: Scene, ops: seq<SceneOp>)
    requires ops != [] && ops[0] == AddOp(s)
    ensures Filter(scenes, NotRemovedBy(ops[1..])) == Filter(scenes, NotRemovedBy(ops))
  {
    var rest := ops[1..];
    forall x | x in scenes
      ensures NotRemovedBy(rest)(x) == NotRemovedBy(ops)(x)
    {
      assert ops == [AddOp(s)] + rest;
    }
    FilterSamePredicate(scenes, NotRemovedBy(rest), NotRemovedBy(ops));
  }

  lemma {:induction false} AddStep(scenes: seq<Scene>, s: Scene, ops: seq<SceneOp>)
    requires ops != [] && ops[0] == AddOp(s)
    ensures Filter(scenes + [s], NotRemovedBy(ops[1..])) + AddedSurvivors(ops[1..])
         == Filter(scenes, NotRemovedBy(ops)) + AddedSurvivors(ops)
  {
    var rest := ops[1..];
    var kept := if RemoveOp(s.id) !in rest then [s] else [];
    var earlier := Filter(scenes, NotRemovedBy(ops));
    var later := AddedSurvivors(rest);
    assert AddedSurvivors(ops) == kept + later;
    assert Filter(scenes + [s], NotRemovedBy(rest)) == earlier + kept by {
      FilterAppend(scenes, [s], NotRemovedBy(rest));
      FilterSingleton(s, NotRemovedBy(rest));
      AddDoesNotRemove(scenes, s, ops);
    }
    assert (earlier + kept) + later == earlier + (kept + later);
  }

  lemma {:induction false} RemoveStep(scenes: seq<Scene>, id: string, ops: seq<SceneOp>)
    requires ops != [] && ops[0] == RemoveOp(id)
    ensures Filter(Filter(scenes, SceneIdIsNot(id)), NotRemovedBy(ops[1..])) + AddedSurvivors(ops[1..])
         == Filter(scenes, NotRemovedBy(ops)) + AddedSurvivors(ops)
  {
    var rest := ops[1..];
    assert ops == [ops[0]] + rest;
    FilterFilter(scenes, SceneIdIsNot(id), NotRemovedBy(rest), NotRemovedBy(ops));
  }

  /** After any sequence of additions and removals, the scenes are the
      original ones not removed later, then the added ones not removed later,
      each group in its original relative order; the tour's other fields are
      kept. */
  lemma {:induction false} ReplaySurvivors(t: Tour, ops: seq<SceneOp>)
    ensures Replay(t, ops).scenes == Filter(t.scenes, NotRemovedBy(ops)) + AddedSurvivors(ops)
    ensures Replay(t, ops).(scenes := t.scenes) == t
    decreases |ops|
  {
    if ops == [] {
      FilterKeepsAll(t.scenes, NotRemovedBy(ops));
    } else {
      match ops[0]
      case AddOp(s) =>
        ReplaySurvivors(SceneAdded(t, s), ops[1..]);
        AddStep(t.scenes, s, ops);
      case RemoveOp(id) =>
        ReplaySurvivors(SceneRemoved(t, id), ops[1..]);
        RemoveStep(t.scenes, id, ops);
    }
  }

  // ---------------------------------------------------------------------
  // The store itself.
  // ---------------------------------------------------------------------

  /** The store's state: the tour being edited (none before one is loaded)
      and the selected scene id. Every scene and hotspot action leaves a
      missing tour missing, and none of them touches the selection. */
  class Store {
    var tour: Option<Tour>
    var currentSceneId: Option<string>

    constructor()
      ensures tour == None && currentSceneId == None
    {
      tour := None;
      currentSceneId := None;
    }

    method SetTour(t: Tour)
      modifies this
      ensures tour == Some(t) && currentSceneId == old(currentSceneId)
    {
      tour := Some(t);
    }

    method AddScene(scene: Scene)
      modifies this
      ensures tour == if old(tour).Some? then Some(SceneAdded(old(tour).value, scene)) else None
      ensures currentSceneId == old(currentSceneId)
    {
      if tour.Some? {
        tour := Some(SceneAdded(tour.value, scene));
      }
    }

    method UpdateScene(sceneId: string, u: SceneUpdate)
      modifies this
      ensures tour == if old(tour).Some? then Some(SceneUpdated(old(tour).value, sceneId, u)) else None
      ensures currentSceneId == old(currentSceneId)
    {
      if tour.Some? {
        tour := Some(SceneUpdated(tour.value, sceneId, u));
      }
    }

    method RemoveScene(sceneId: string)
      modifies this
      ensures tour == if old(tour).Some? then Some(SceneRemoved(old(tour).value, sceneId)) else None
      ensures currentSceneId == old(currentSceneId)
    {
      if tour.Some? {
        tour := Some(SceneRemoved(tour.value, sceneId));
      }
    }

    /** The selection is not checked against the tour's scenes. */
    method SetCurrentScene(sceneId: string)
      modifies this
      ensures currentSceneId == Some(sceneId) && tour == old(tour)
    {
      currentSceneId := Some(sceneId);
    }

    method AddHotspot(sceneId: string, h: Hotspot)
      modifies this
      ensures tour == if old(tour).Some? then Some(HotspotAdded(old(tour).value, sceneId, h)) else None
      ensures currentSceneId == old(currentSceneId)
    {
      if tour.Some? {
        tour := Some(HotspotAdded(tour.value, sceneId, h));
      }
    }

    method UpdateHotspot(sceneId: string, hotspotId: string, u: HotspotUpdate)
      modifies this
      ensures tour == if old(tour).Some? then Some(HotspotUpdated(old(tour).value, sceneId, hotspotId, u)) else None
      ensures currentSceneId == old(currentSceneId)
    {
      if tour.Some? {
        tour := Some(HotspotUpdated(tour.value, sceneId, hotspotId, u));
      }
    }

    method RemoveHotspot(sceneId: string, hotspotId: string)
      modifies this
      ensures tour == if old(tour).Some? then Some(HotspotRemoved(old(tour).value, sceneId, hotspotId)) else None
      ensures currentSceneId == old(currentSceneId)
    {
      if tour.Some? {
        tour := Some(HotspotRemoved(tour.value, sceneId, hotspotId));
      }
    }
  }
}
