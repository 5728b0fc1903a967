/**
 * The list comprehension that get_places/get_places_data.py and vroom.py
 * share: one `Circle` per entry of the input's `coordinates`, all with the
 * same radius.
 */
module InputCircles {
  import opened Wrappers
  import opened JsonValue
  import opened DekaTypes

  /** `Circle(lat=circle['lat'], lng=circle['lng'], radius=radius)` */
  function CircleOf(entry: Json, radius: Json): (r: Result<Circle>)
    ensures r.Ok? <==> entry.JObj? && "lat" in entry.fields && "lng" in entry.fields
    ensures r.Ok? ==> r.value.lat == entry.fields["lat"] && r.value.lng == entry.fields["lng"] && r.value.radius == radius
  {
    match (Get(entry, "lat"), Get(entry, "lng"))
    case (Some(lat), Some(lng)) => Ok(Circle(lat, lng, radius))
    case _ => Err("KeyError or TypeError: 'lat' or 'lng'")
  }

  /** The comprehension over a list: it fails on the first entry that is not a coordinate. */
  function CirclesOf(entries: seq<Json>, radius: Json): (r: Result<seq<Circle>>)
    ensures r.Ok? <==> forall i :: 0 <= i < |entries| ==> CircleOf(entries[i], radius).Ok?
    ensures r.Ok? ==> |r.value| == |entries|
                      && forall i :: 0 <= i < |entries| ==> Ok(r.value[i]) == CircleOf(entries[i], radius)
  {
    if entries == [] then Ok([])
    else
      match CirclesOf(entries[..|entries| - 1], radius)
      case Err(e) => Err(e)
      case Ok(front) =>
        match CircleOf(entries[|entries| - 1], radius)
        case Err(e) => Err(e)
        case Ok(c) => Ok(front + [c])
  }

  /** `[... for circle in coordinates]`, over what `Elements` says the loop yields. */
  function CoordinateCircles(coordinates: Json, radius: Json): (r: Result<seq<Circle>>)
    ensures coordinates.JArr? ==> r == CirclesOf(coordinates.items, radius)
    ensures !coordinates.JArr? ==> (r.Ok? <==> coordinates == JObj(map[]) || coordinates == JStr(""))
    ensures !coordinates.JArr? && r.Ok? ==> r.value == []
  {
    match Elements(coordinates)
    case None => Err("TypeError: not iterable, or string indices must be integers")
    case Some(entries) => CirclesOf(entries, radius)
  }
}
