/** load_data/main.py: reading the saved document back for loading. */
module LoadMain {
  import opened Wrappers
  import opened JsonValue
  import opened LoadDataTypes

  /**
   * `parse_raw_input`: the places exactly as saved and the two metadata
   * fields the loader uses; any other metadata field is dropped. A missing
   * key raises.
   */
  function ParseRawInput(rawInput: Json): (r: Result<(Json, Metadata)>)
    ensures r.Ok? <==> && rawInput.JObj? && "metadata" in rawInput.fields && "places" in rawInput.fields
                       && var meta := rawInput.fields["metadata"];
                          meta.JObj? && "bounding_rectangle" in meta.fields && "area_name" in meta.fields
    ensures r.Ok? ==>
              var meta := rawInput.fields["metadata"].fields;
              r.value == (rawInput.fields["places"], Metadata(meta["area_name"], meta["bounding_rectangle"]))
  {
    match Get(rawInput, "metadata")
    case None => Err("KeyError: 'metadata'")
    case Some(inputMeta) =>
      match Get(inputMeta, "bounding_rectangle")
      case None => Err("KeyError: 'bounding_rectangle'")
      case Some(boundingRect) =>
        match Get(inputMeta, "area_name")
        case None => Err("KeyError: 'area_name'")
        case Some(areaName) =>
          match Get(rawInput, "places")
          case None => Err("KeyError: 'places'")
          case Some(places) => Ok((places, Metadata(areaName, boundingRect)))
  }
}
