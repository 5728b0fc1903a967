/**
 * From the fetch side's saved document to the loading side: what
 * get_places/get_places_data.py writes, load_data/main.py reads back, and
 * the datastore then serves.
 */
module RoundTrip {
  import opened Wrappers
  import opened JsonValue
  import opened DekaTypes
  import opened LoadDataTypes
  import opened RedisStore
  import opened GetPlacesData
  import opened LoadMain
  import opened Datastore

  /**
   * The loader reads back the fetched places unchanged and the area name and
   * bounding rectangle of the input document; the circle radius is dropped.
   */
  lemma SavedDocumentParses(rawInput: Json, allPlaces: ResultSet)
    requires PrepareRawInput(rawInput).Ok?
    ensures var doc := ToSave(PrepareRawInput(rawInput).value.1, allPlaces);
            ParseRawInput(doc) == Ok((JObj(allPlaces), Metadata(rawInput.fields["area_name"], rawInput.fields["bounding_rectangle"])))
  {
    var f := rawInput.fields;
    var meta := MetadataOf(f["circle_radius"], f["area_name"], f["bounding_rectangle"]);
    assert PrepareRawInput(rawInput).value.1 == meta;
    assert Get(meta, "area_name") == Some(f["area_name"]);
    assert Get(meta, "bounding_rectangle") == Some(f["bounding_rectangle"]);
  }

  /**
   * Loading the saved document, with both transactions reaching the server
   * and no staging data left over, reports success; afterwards the getters
   * return the input's bounding rectangle and exactly the fetched places,
   * provided the area name is a string and every place has a location.
   */
  lemma FetchedPlacesServed(db: Db, rawInput: Json, allPlaces: ResultSet)
    requires PrepareRawInput(rawInput).Ok?
    requires rawInput.fields["area_name"].JStr?
    requires AllLocated(allPlaces)
    requires TempKeys(rawInput.fields["area_name"].s) !! db.Keys
    ensures var (places, metadata) := ParseRawInput(ToSave(PrepareRawInput(rawInput).value.1, allPlaces)).value;
            var (d, r) := LoadOutcome(db, places, metadata, true, true);
            var areaName := rawInput.fields["area_name"].s;
            && r
            && GetBoundariesForArea(d, areaName) == Ok(rawInput.fields["bounding_rectangle"])
            && (forall id :: GetPlaceData(d, areaName, id).Ok? <==> id in allPlaces)
            && (forall id :: id in allPlaces ==> GetPlaceData(d, areaName, id) == Ok(allPlaces[id]))
  {
    SavedDocumentParses(rawInput, allPlaces);
    var areaName, rect := rawInput.fields["area_name"].s, rawInput.fields["bounding_rectangle"];
    var metadata := Metadata(rawInput.fields["area_name"], rect);
    assert Loadable(JObj(allPlaces), metadata);
    CleanLoad(db, areaName, rect, allPlaces);
    LoadedGets(PromoteDb(StageDb(db, areaName, rect, allPlaces), areaName), areaName, rect, allPlaces);
  }

  /** An area name that is not a string makes the load fail before anything is written. */
  lemma NonStringAreaNameNotLoaded(db: Db, rawInput: Json, allPlaces: ResultSet, stageReached: bool, promoteReached: bool)
    requires PrepareRawInput(rawInput).Ok?
    requires !rawInput.fields["area_name"].JStr?
    ensures var (places, metadata) := ParseRawInput(ToSave(PrepareRawInput(rawInput).value.1, allPlaces)).value;
            LoadOutcome(db, places, metadata, stageReached, promoteReached) == (db, false)
  {
    SavedDocumentParses(rawInput, allPlaces);
  }
}
