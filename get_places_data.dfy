/** get_places/get_places_data.py: the input document in, the saved document out. */
module GetPlacesData {
  import opened Wrappers
  import opened JsonValue
  import opened DekaTypes
  import opened InputCircles

  /** The three fields `prepare_raw_input` copies into the metadata. */
  function MetadataOf(circleRadius: Json, areaName: Json, boundingRectangle: Json): (m: Json)
    ensures m.JObj? && m.fields.Keys == {"circle_radius", "area_name", "bounding_rectangle"}
    ensures Get(m, "circle_radius") == Some(circleRadius) && Get(m, "area_name") == Some(areaName)
            && Get(m, "bounding_rectangle") == Some(boundingRectangle)
  {
    JObj(map["circle_radius" := circleRadius, "area_name" := areaName, "bounding_rectangle" := boundingRectangle])
  }

  /**
   * `prepare_raw_input`: the circles to query, one per coordinate with the
   * common radius, and the metadata to save with the results. A missing key
   * or a coordinate without lat and lng raises.
   */
  function PrepareRawInput(rawInput: Json): (r: Result<(seq<Circle>, Json)>)
    ensures r.Ok? <==> && rawInput.JObj?
                       && "circle_radius" in rawInput.fields && "area_name" in rawInput.fields
                       && "bounding_rectangle" in rawInput.fields && "coordinates" in rawInput.fields
                       && CoordinateCircles(rawInput.fields["coordinates"], rawInput.fields["circle_radius"]).Ok?
    ensures r.Ok? ==>
              var f := rawInput.fields;
              && r.value.1 == MetadataOf(f["circle_radius"], f["area_name"], f["bounding_rectangle"])
              && Ok(r.value.0) == CoordinateCircles(f["coordinates"], f["circle_radius"])
  {
    match (Get(rawInput, "circle_radius"), Get(rawInput, "area_name"), Get(rawInput, "bounding_rectangle"))
    case (Some(circleRadius), Some(areaName), Some(boundingRectangle)) =>
      (match Get(rawInput, "coordinates")
       case None => Err("KeyError: 'coordinates'")
       case Some(coordinates) =>
         match CoordinateCircles(coordinates, circleRadius)
         case Err(e) => Err(e)
         case Ok(circles) => Ok((circles, MetadataOf(circleRadius, areaName, boundingRectangle))))
    case _ => Err("KeyError: 'circle_radius', 'area_name' or 'bounding_rectangle'")
  }

  /**
   * For a list of coordinates: one circle per entry, in order, each with the
   * entry's lat and lng and the common radius.
   */
  lemma PrepareRawInputCircles(rawInput: Json)
    requires PrepareRawInput(rawInput).Ok?
    requires rawInput.fields["coordinates"].JArr?
    ensures var circles, coordinates := PrepareRawInput(rawInput).value.0, rawInput.fields["coordinates"].items;
            && |circles| == |coordinates|
            && forall i :: 0 <= i < |circles| ==>
                 && circles[i].lat == coordinates[i].fields["lat"]
                 && circles[i].lng == coordinates[i].fields["lng"]
                 && circles[i].radius == rawInput.fields["circle_radius"]
  {
    var circles, coordinates := PrepareRawInput(rawInput).value.0, rawInput.fields["coordinates"].items;
    var radius := rawInput.fields["circle_radius"];
    forall i | 0 <= i < |circles|
      ensures circles[i].lat == coordinates[i].fields["lat"] && circles[i].lng == coordinates[i].fields["lng"]
      ensures circles[i].radius == radius
    {
      assert Ok(circles[i]) == CircleOf(coordinates[i], radius);
    }
  }

  /** `to_save`: the document written to disk. */
  function ToSave(metadata: Json, allPlaces: ResultSet): (doc: Json)
    ensures doc.JObj? && doc.fields.Keys == {"metadata", "places"}
    ensures Get(doc, "metadata") == Some(metadata) && Get(doc, "places") == Some(JObj(allPlaces))
  {
    JObj(map["metadata" := metadata, "places" := JObj(allPlaces)])
  }
}
