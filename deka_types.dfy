/** The record shapes shared by the fetch side (deka_types.py). */
module DekaTypes {
  import opened JsonValue

  /** A circular query area; the fields are whatever the input document held. */
  datatype Circle = Circle(lat: Json, lng: Json, radius: Json)

  /** place id -> place record, as returned by the search API. */
  type ResultSet = map<string, Json>
}
