/** The tour data model: a tour owns an ordered list of scenes, each scene an
    ordered list of hotspots, every entity addressed by a string id. */
module TourTypes {

  datatype Option<+T> = None | Some(value: T)

  /** A yaw, pitch or field-of-view angle. The editor only copies these values
      from one record to another and never computes with them, so the model
      gives them no structure at all. */
  type Angle(==, 0, !new)

  datatype ViewParameters = ViewParameters(yaw: Angle, pitch: Angle, fov: Angle)

  /** The hotspot types the editor creates: the placement form offers "embed"
      besides the two types the interface declares. */
  datatype HotspotKind = Info | Link | Embed

  /** A hotspot with the optional display fields the placement form adds. A
      field that is `None` is absent (or `undefined`). The template is a free
      string: the form offers names outside the declared template union, and
      data loaded from elsewhere may lack it. */
  datatype Hotspot = Hotspot(
    id: string,
    kind: HotspotKind,
    text: string,
    yaw: Angle,
    pitch: Angle,
    linkedSceneId: Option<string>,
    template: Option<string>,
    title: Option<string>,
    description: Option<string>,
    imageUrl: Option<string>,
    embedUrl: Option<string>)

  datatype Scene = Scene(
    id: string,
    name: string,
    panoramaUrl: string,
    thumbnail: string,
    hotspots: seq<Hotspot>,
    initialViewParameters: ViewParameters)

  datatype Tour = Tour(
    id: string,
    title: string,
    scenes: seq<Scene>,
    initialSceneId: string,
    template: string)
}
