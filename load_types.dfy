/** The record shapes of the loading side (load_data/deka_types.py). */
module LoadDataTypes {
  import opened JsonValue

  datatype LatLng = LatLng(lat: Json, lng: Json)

  /** What the loader needs to know about an area; the fields are as the input document held them. */
  datatype Metadata = Metadata(areaName: Json, boundingRectangle: Json)
}
