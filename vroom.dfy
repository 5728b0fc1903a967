/** vroom.py: the older entry point, which reads only the circles. */
module Vroom {
  import GetPlacesData
  import opened Wrappers
  import opened JsonValue
  import opened DekaTypes
  import opened InputCircles

  /** `prepare_raw_input`: a missing `circle_radius` or `coordinates`, or a bad coordinate, raises. */
  function PrepareRawInput(rawInput: Json): (r: Result<seq<Circle>>)
    ensures r.Ok? <==> && rawInput.JObj? && "circle_radius" in rawInput.fields && "coordinates" in rawInput.fields
                       && CoordinateCircles(rawInput.fields["coordinates"], rawInput.fields["circle_radius"]).Ok?
    ensures r.Ok? ==> r == CoordinateCircles(rawInput.fields["coordinates"], rawInput.fields["circle_radius"])
  {
    match Get(rawInput, "circle_radius")
    case None => Err("KeyError: 'circle_radius'")
    case Some(circleRadius) =>
      match Get(rawInput, "coordinates")
      case None => Err("KeyError: 'coordinates'")
      case Some(coordinates) => CoordinateCircles(coordinates, circleRadius)
  }

  /** It yields the same circles as the newer entry point does for the same document. */
  lemma SameCirclesAsGetPlacesData(rawInput: Json)
    requires GetPlacesData.PrepareRawInput(rawInput).Ok?
    ensures PrepareRawInput(rawInput) == Ok(GetPlacesData.PrepareRawInput(rawInput).value.0)
  {
  }
}
