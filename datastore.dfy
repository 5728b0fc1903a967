/**
 * load_data/datastore_adapter/redis.py: an area's data is written under
 * `:temporarykey` staging keys in one transaction, then promoted over the
 * canonical keys in a second one.
 */
module Datastore {
  import opened Wrappers
  import opened JsonValue
  import opened RedisStore
  import opened KeyConverter
  import opened LoadDataTypes

  const BoundariesTemplate := "cities:boundaries:"
  const PlacesTemplate := "cities:places:"
  const CoordinatesTemplate := "cities:coordinates:"

  /** The order in which promotion renames. */
  const Templates := [BoundariesTemplate, CoordinatesTemplate, PlacesTemplate]

  function Key(template: string, areaName: string): string
  {
    template + areaName
  }

  /** The templates part ways at their eighth character: b, c, p. */
  lemma TemplateInitial(template: string, areaName: string)
    requires template in Templates
    ensures Key(template, areaName)[7] == template[7]
    ensures template[7] == if template == BoundariesTemplate then 'b'
                           else if template == CoordinatesTemplate then 'c' else 'p'
  {
  }

  /**
   * A staging key and another key built from a template coincide only when
   * it is the same template and the other area name is the staging name.
   */
  lemma KeysCoincide(t1: string, t2: string, a: string, b: string)
    requires t1 in Templates && t2 in Templates
    ensures Key(t1, a) == Key(t2, b) <==> t1 == t2 && a == b
  {
    TemplateInitial(t1, a);
    TemplateInitial(t2, b);
    if t1 == t2 && Key(t1, a) == Key(t2, b) {
      assert Key(t1, a)[|t1|..] == a && Key(t2, b)[|t2|..] == b;
    }
  }

  /** The three staging keys of an area. */
  function TempKeys(areaName: string): set<string>
  {
    set t | t in Templates :: Key(t, ToTemp(areaName))
  }

  /** The three canonical keys of an area. */
  function CanonicalKeys(areaName: string): set<string>
  {
    set t | t in Templates :: Key(t, areaName)
  }

  ghost predicate EndsWithSuffix(s: string)
  {
    |s| >= |TempStageSuffix| && s[|s| - |TempStageSuffix|..] == TempStageSuffix
  }

  /** No staging key of one area is a canonical key of an area whose name lacks the suffix. */
  lemma StagingKeysNotCanonical(a: string, b: string)
    requires !EndsWithSuffix(b)
    ensures TempKeys(a) !! CanonicalKeys(b)
  {
    forall t1, t2 | t1 in Templates && t2 in Templates
      ensures Key(t1, ToTemp(a)) != Key(t2, b)
    {
      KeysCoincide(t1, t2, ToTemp(a), b);
      assert EndsWithSuffix(ToTemp(a)) by {
        assert ToTemp(a)[|a|..] == TempStageSuffix;
      }
    }
  }

  /** `extract_latlng_of_place`: `place['geometry']['location']`'s lat and lng. */
  function ExtractLatLng(place: Json): Result<LatLng>
  {
    match Get(place, "geometry")
    case None => Err("KeyError: 'geometry'")
    case Some(geometry) =>
      match Get(geometry, "location")
      case None => Err("KeyError: 'location'")
      case Some(loc) =>
        match (Get(loc, "lat"), Get(loc, "lng"))
        case (Some(lat), Some(lng)) => Ok(LatLng(lat, lng))
        case _ => Err("KeyError: 'lat' or 'lng'")
  }

  /** Extraction succeeds exactly for a place with a `geometry.location` holding both `lat` and `lng`. */
  lemma ExtractLatLngSpec(place: Json)
    ensures ExtractLatLng(place).Ok?
        <==> place.JObj? && "geometry" in place.fields
             && place.fields["geometry"].JObj? && "location" in place.fields["geometry"].fields
             && var loc := place.fields["geometry"].fields["location"];
                loc.JObj? && "lat" in loc.fields && "lng" in loc.fields
    ensures ExtractLatLng(place).Ok? ==>
              var loc := place.fields["geometry"].fields["location"];
              ExtractLatLng(place).value == LatLng(loc.fields["lat"], loc.fields["lng"])
  {
  }

  predicate Located(place: Json)
  {
    ExtractLatLng(place).Ok?
  }

  /** The GEOADD position of a located place: its longitude, then its latitude. */
  function PointOf(place: Json): Point
    requires Located(place)
  {
    Point(ExtractLatLng(place).value.lng, ExtractLatLng(place).value.lat)
  }

  /** `order` lists every key once: a possible iteration order of the dictionary. */
  ghost predicate IsOrdering(order: seq<string>, keys: set<string>)
  {
    && (forall i :: 0 <= i < |order| ==> order[i] in keys)
    && (forall k :: k in keys ==> k in order)
    && (forall i, j :: 0 <= i < j < |order| ==> order[i] != order[j])
  }

  /** One HSET per listed place, in order. */
  function HSetCommands(key: string, places: map<string, Json>, order: seq<string>): (cs: seq<Command>)
    requires forall i :: 0 <= i < |order| ==> order[i] in places
    ensures |cs| == |order|
    ensures forall i :: 0 <= i < |order| ==> cs[i] == HSet(key, order[i], Serialize(places[order[i]]))
  {
    if order == [] then []
    else HSetCommands(key, places, order[..|order| - 1])
         + [HSet(key, order[|order| - 1], Serialize(places[order[|order| - 1]]))]
  }

  /** One GEOADD per listed place, in order. */
  function GeoAddCommands(key: string, places: map<string, Json>, order: seq<string>): (cs: seq<Command>)
    requires forall i :: 0 <= i < |order| ==> order[i] in places && Located(places[order[i]])
    ensures |cs| == |order|
    ensures forall i :: 0 <= i < |order| ==> cs[i] == GeoAdd(key, PointOf(places[order[i]]), order[i])
  {
    if order == [] then []
    else GeoAddCommands(key, places, order[..|order| - 1])
         + [GeoAdd(key, PointOf(places[order[|order| - 1]]), order[|order| - 1])]
  }

  /** `Facade.add_boundaries` */
  method AddBoundaries(areaName: string, boundariesRectangle: Json, pipe: Pipeline)
    modifies pipe
    ensures pipe.commands == old(pipe.commands) + [Set(Key(BoundariesTemplate, areaName), Serialize(boundariesRectangle))]
  {
    pipe.Queue(Set(Key(BoundariesTemplate, areaName), Serialize(boundariesRectangle)));
  }

  /** Part way through iterating a dictionary: `order` so far, `remaining` still to come. */
  ghost predicate Progress(order: seq<string>, remaining: set<string>, keys: set<string>)
  {
    && remaining <= keys
    && (forall i :: 0 <= i < |order| ==> order[i] in keys && order[i] !in remaining)
    && (forall k :: k in keys && k !in remaining ==> k in order)
    && (forall i, j :: 0 <= i < j < |order| ==> order[i] != order[j])
  }

  lemma ProgressStep(order: seq<string>, remaining: set<string>, keys: set<string>, x: string)
    requires Progress(order, remaining, keys) && x in remaining
    ensures Progress(order + [x], remaining - {x}, keys)
  {
  }

  lemma ProgressDone(order: seq<string>, keys: set<string>)
    requires Progress(order, {}, keys)
    ensures IsOrdering(order, keys)
  {
  }

  lemma HSetCommandsStep(key: string, places: map<string, Json>, order: seq<string>, x: string)
    requires forall i :: 0 <= i < |order| ==> order[i] in places
    requires x in places
    ensures HSetCommands(key, places, order + [x]) == HSetCommands(key, places, order) + [HSet(key, x, Serialize(places[x]))]
  {
    assert (order + [x])[..|order|] == order;
  }

  lemma GeoAddCommandsStep(key: string, places: map<string, Json>, order: seq<string>, x: string)
    requires forall i :: 0 <= i < |order| ==> order[i] in places && Located(places[order[i]])
    requires x in places && Located(places[x])
    ensures GeoAddCommands(key, places, order + [x]) == GeoAddCommands(key, places, order) + [GeoAdd(key, PointOf(places[x]), x)]
  {
    assert (order + [x])[..|order|] == order;
  }

  /** Queuing the HSET of one more place extends the queued commands by one. */
  lemma HSetQueued(start: seq<Command>, key: string, places: map<string, Json>, order: seq<string>, x: string)
    requires forall i :: 0 <= i < |order| ==> order[i] in places
    requires x in places
    ensures start + HSetCommands(key, places, order) + [HSet(key, x, Serialize(places[x]))]
              == start + HSetCommands(key, places, order + [x])
  {
    HSetCommandsStep(key, places, order, x);
  }

  /** Queuing the GEOADD of one more located place extends the queued commands by one. */
  lemma GeoAddQueued(start: seq<Command>, key: string, places: map<string, Json>, order: seq<string>, x: string)
    requires forall i :: 0 <= i < |order| ==> order[i] in places && Located(places[order[i]])
    requires x in places && ExtractLatLng(places[x]).Ok?
    ensures Located(places[x])
    ensures var latLng := ExtractLatLng(places[x]).value;
            start + GeoAddCommands(key, places, order) + [GeoAdd(key, Point(latLng.lng, latLng.lat), x)]
              == start + GeoAddCommands(key, places, order + [x])
  {
    GeoAddCommandsStep(key, places, order, x);
  }

  /** `Facade.add_places`: one HSET per place, in the dictionary's iteration order. */
  method AddPlaces(areaName: string, places: map<string, Json>, pipe: Pipeline) returns (ghost order: seq<string>)
    modifies pipe
    ensures IsOrdering(order, places.Keys)
    ensures pipe.commands == old(pipe.commands) + HSetCommands(Key(PlacesTemplate, areaName), places, order)
  {
    var key := Key(PlacesTemplate, areaName);
    ghost var start := pipe.commands;
    order := [];
    var remaining := places.Keys;
    while remaining != {}
      invariant Progress(order, remaining, places.Keys)
      invariant pipe.commands == start + HSetCommands(key, places, order)
      decreases remaining
    {
      var placeId :| placeId in remaining;
      pipe.Queue(HSet(key, placeId, Serialize(places[placeId])));
      HSetQueued(start, key, places, order, placeId);
      ProgressStep(order, remaining, places.Keys, placeId);
      order := order + [placeId];
      remaining := remaining - {placeId};
    }
    ProgressDone(order, places.Keys);
  }

  /**
   * `Facade.add_coordinates`: one GEOADD per place, in the dictionary's
   * iteration order. A place without `geometry.location` raises; `ok` is
   * false then, and the pipeline is abandoned.
   */
  method AddCoordinates(areaName: string, places: map<string, Json>, pipe: Pipeline)
    returns (ok: bool, ghost order: seq<string>)
    modifies pipe
    ensures ok <==> forall id :: id in places ==> Located(places[id])
    ensures ok ==> IsOrdering(order, places.Keys)
    ensures ok ==> pipe.commands == old(pipe.commands) + GeoAddCommands(Key(CoordinatesTemplate, areaName), places, order)
  {
    var key := Key(CoordinatesTemplate, areaName);
    ghost var start := pipe.commands;
    order := [];
    var remaining := places.Keys;
    while remaining != {}
      invariant Progress(order, remaining, places.Keys)
      invariant forall i :: 0 <= i < |order| ==> Located(places[order[i]])
      invariant pipe.commands == start + GeoAddCommands(key, places, order)
      decreases remaining
    {
      var placeId :| placeId in remaining;
      var latLng := ExtractLatLng(places[placeId]);
      if latLng.Err? {
        ok := false;
        return;
      }
      pipe.Queue(GeoAdd(key, Point(latLng.value.lng, latLng.value.lat), placeId));
      GeoAddQueued(start, key, places, order, placeId);
      ProgressStep(order, remaining, places.Keys, placeId);
      order := order + [placeId];
      remaining := remaining - {placeId};
    }
    ProgressDone(order, places.Keys);
    ok := true;
  }

  /** The fields a key holds when it holds a hash. */
  function HashFields(db: Db, key: string): map<string, Payload>
  {
    if key in db && db[key].Hash? then db[key].fields else map[]
  }

  /** The members a key holds when it holds a geo set. */
  function GeoMembers(db: Db, key: string): map<string, Point>
  {
    if key in db && db[key].Geo? then db[key].members else map[]
  }

  /** The serialised places with the given ids. */
  function PlaceFields(places: map<string, Json>, ids: set<string>): map<string, Payload>
  {
    map id | id in ids && id in places :: Serialize(places[id])
  }

  /** The positions of the located places with the given ids. */
  function PlacePoints(places: map<string, Json>, ids: set<string>): map<string, Point>
  {
    map id | id in ids && id in places && Located(places[id]) :: PointOf(places[id])
  }

  /** The ids an order lists. */
  function ElemSet(order: seq<string>): (ids: set<string>)
    ensures forall x :: x in ids <==> x in order
  {
    if order == [] then {} else ElemSet(order[..|order| - 1]) + {order[|order| - 1]}
  }

  lemma MapUpdateUnion<V>(a: map<string, V>, b: map<string, V>, x: string, v: V)
    ensures (a + b)[x := v] == a + b[x := v]
  {
  }

  lemma PlaceFieldsAdd(places: map<string, Json>, ids: set<string>, x: string)
    requires x in places
    ensures PlaceFields(places, ids + {x}) == PlaceFields(places, ids)[x := Serialize(places[x])]
  {
  }

  lemma PlacePointsAdd(places: map<string, Json>, ids: set<string>, x: string)
    requires x in places && Located(places[x])
    ensures PlacePoints(places, ids + {x}) == PlacePoints(places, ids)[x := PointOf(places[x])]
  {
  }

  /**
   * The HSETs of one key, in any order: nothing when the key holds another
   * type, otherwise its old fields overwritten by one field per place.
   */
  lemma RunHSets(db: Db, key: string, places: map<string, Json>, order: seq<string>)
    requires forall i :: 0 <= i < |order| ==> order[i] in places
    ensures RunAll(db, HSetCommands(key, places, order))
         == if order == [] then (db, true)
            else if key in db && !db[key].Hash? then (db, false)
            else (db[key := Hash(HashFields(db, key) + PlaceFields(places, ElemSet(order)))], true)
  {
    if key in db && !db[key].Hash? {
      RunHSetsWrongType(db, key, places, order);
    } else if order != [] {
      RunHSetsOk(db, key, places, order);
    }
  }

  /** The GEOADDs of one key, in any order, like `RunHSets`. */
  lemma RunGeoAdds(db: Db, key: string, places: map<string, Json>, order: seq<string>)
    requires forall i :: 0 <= i < |order| ==> order[i] in places && Located(places[order[i]])
    ensures RunAll(db, GeoAddCommands(key, places, order))
         == if order == [] then (db, true)
            else if key in db && !db[key].Geo? then (db, false)
            else (db[key := Geo(GeoMembers(db, key) + PlacePoints(places, ElemSet(order)))], true)
  {
    if key in db && !db[key].Geo? {
      RunGeoAddsWrongType(db, key, places, order);
    } else if order != [] {
      RunGeoAddsOk(db, key, places, order);
    }
  }

  /** HSets on a key of another type all fail and change nothing. */
  lemma {:induction false} RunHSetsWrongType(db: Db, key: string, places: map<string, Json>, order: seq<string>)
    requires forall i :: 0 <= i < |order| ==> order[i] in places
    requires key in db && !db[key].Hash?
    ensures RunAll(db, HSetCommands(key, places, order)) == (db, order == [])
    decreases |order|
  {
    if order != [] {
      var front := order[..|order| - 1];
      var x := order[|order| - 1];
      var v := Serialize(places[x]);
      RunHSetsWrongType(db, key, places, front);
      assert HSetCommands(key, places, order) == HSetCommands(key, places, front) + [HSet(key, x, v)];
      RunAllSnoc(db, HSetCommands(key, places, front), HSet(key, x, v));
    }
  }

  /** The first HSet on a key of the right type or none. */
  lemma RunHSetFirst(db: Db, key: string, places: map<string, Json>, x: string)
    requires x in places
    requires key !in db || db[key].Hash?
    ensures RunAll(db, HSetCommands(key, places, [x])) == (db[key := Hash(HashFields(db, key) + PlaceFields(places, {x}))], true)
  {
    var v := Serialize(places[x]);
    var none: seq<string> := [];
    assert [x][..0] == none;
    assert HSetCommands(key, places, [x]) == [] + [HSet(key, x, v)];
    RunAllSnoc(db, [], HSet(key, x, v));
    PlaceFieldsAdd(places, {}, x);
    assert {} + {x} == {x};
    assert PlaceFields(places, {}) == map[];
    assert HashFields(db, key) + PlaceFields(places, {x}) == HashFields(db, key)[x := v];
  }

  /** A further HSet on a key already holding the earlier ones. */
  lemma RunHSetNext(db: Db, key: string, places: map<string, Json>, front: seq<string>, x: string)
    requires forall i :: 0 <= i < |front| ==> front[i] in places
    requires x in places
    requires key !in db || db[key].Hash?
    requires RunAll(db, HSetCommands(key, places, front)) == (db[key := Hash(HashFields(db, key) + PlaceFields(places, ElemSet(front)))], true)
    ensures RunAll(db, HSetCommands(key, places, front + [x]))
         == (db[key := Hash(HashFields(db, key) + PlaceFields(places, ElemSet(front + [x])))], true)
  {
    var v := Serialize(places[x]);
    var cmds := HSetCommands(key, places, front);
    assert (front + [x])[..|front|] == front;
    assert HSetCommands(key, places, front + [x]) == cmds + [HSet(key, x, v)];
    RunHSetAfter(db, key, places, front, x);
    PlaceFieldsGrow(db, key, places, front, x);
  }

  lemma RunHSetAfter(db: Db, key: string, places: map<string, Json>, front: seq<string>, x: string)
    requires forall i :: 0 <= i < |front| ==> front[i] in places
    requires x in places
    requires RunAll(db, HSetCommands(key, places, front)) == (db[key := Hash(HashFields(db, key) + PlaceFields(places, ElemSet(front)))], true)
    ensures RunAll(db, HSetCommands(key, places, front) + [HSet(key, x, Serialize(places[x]))])
         == (db[key := Hash((HashFields(db, key) + PlaceFields(places, ElemSet(front)))[x := Serialize(places[x])])], true)
  {
    var v := Serialize(places[x]);
    RunAllSnoc(db, HSetCommands(key, places, front), HSet(key, x, v));
    ApplyHSetAgain(db, key, HashFields(db, key) + PlaceFields(places, ElemSet(front)), x, v);
  }

  lemma PlaceFieldsGrow(db: Db, key: string, places: map<string, Json>, front: seq<string>, x: string)
    requires x in places
    ensures (HashFields(db, key) + PlaceFields(places, ElemSet(front)))[x := Serialize(places[x])]
         == HashFields(db, key) + PlaceFields(places, ElemSet(front + [x]))
  {
    MapUpdateUnion(HashFields(db, key), PlaceFields(places, ElemSet(front)), x, Serialize(places[x]));
    PlaceFieldsAdd(places, ElemSet(front), x);
    assert ElemSet(front + [x]) == ElemSet(front) + {x};
  }

  lemma ApplyHSetAgain(db: Db, key: string, merged: map<string, Payload>, x: string, v: Payload)
    ensures Apply(db[key := Hash(merged)], HSet(key, x, v)) == Some(db[key := Hash(merged[x := v])])
  {
    var d := db[key := Hash(merged)];
    assert d[key := Hash(merged[x := v])] == db[key := Hash(merged[x := v])];
  }

  lemma {:induction false} RunHSetsOk(db: Db, key: string, places: map<string, Json>, order: seq<string>)
    requires forall i :: 0 <= i < |order| ==> order[i] in places
    requires key !in db || db[key].Hash?
    requires order != []
    ensures RunAll(db, HSetCommands(key, places, order))
         == (db[key := Hash(HashFields(db, key) + PlaceFields(places, ElemSet(order)))], true)
    decreases |order|
  {
    var front := order[..|order| - 1];
    var x := order[|order| - 1];
    assert order == front + [x];
    if front == [] {
      RunHSetFirst(db, key, places, x);
      assert ElemSet(order) == {x};
    } else {
      RunHSetsOk(db, key, places, front);
      RunHSetNext(db, key, places, front, x);
    }
  }

  /** GeoAdds on a key of another type all fail and change nothing. */
  lemma {:induction false} RunGeoAddsWrongType(db: Db, key: string, places: map<string, Json>, order: seq<string>)
    requires forall i :: 0 <= i < |order| ==> order[i] in places && Located(places[order[i]])
    requires key in db && !db[key].Geo?
    ensures RunAll(db, GeoAddCommands(key, places, order)) == (db, order == [])
    decreases |order|
  {
    if order != [] {
      var front := order[..|order| - 1];
      var x := order[|order| - 1];
      var v := PointOf(places[x]);
      RunGeoAddsWrongType(db, key, places, front);
      assert GeoAddCommands(key, places, order) == GeoAddCommands(key, places, front) + [GeoAdd(key, v, x)];
      RunAllSnoc(db, GeoAddCommands(key, places, front), GeoAdd(key, v, x));
    }
  }

  /** The first GeoAdd on a key of the right type or none. */
  lemma RunGeoAddFirst(db: Db, key: string, places: map<string, Json>, x: string)
    requires x in places && Located(places[x])
    requires key !in db || db[key].Geo?
    ensures RunAll(db, GeoAddCommands(key, places, [x])) == (db[key := Geo(GeoMembers(db, key) + PlacePoints(places, {x}))], true)
  {
    var v := PointOf(places[x]);
    var none: seq<string> := [];
    assert [x][..0] == none;
    assert GeoAddCommands(key, places, [x]) == [] + [GeoAdd(key, v, x)];
    RunAllSnoc(db, [], GeoAdd(key, v, x));
    PlacePointsAdd(places, {}, x);
    assert {} + {x} == {x};
    assert PlacePoints(places, {}) == map[];
    assert GeoMembers(db, key) + PlacePoints(places, {x}) == GeoMembers(db, key)[x := v];
  }

  /** A further GeoAdd on a key already holding the earlier ones. */
  lemma RunGeoAddNext(db: Db, key: string, places: map<string, Json>, front: seq<string>, x: string)
    requires forall i :: 0 <= i < |front| ==> front[i] in places && Located(places[front[i]])
    requires x in places && Located(places[x])
    requires key !in db || db[key].Geo?
    requires RunAll(db, GeoAddCommands(key, places, front)) == (db[key := Geo(GeoMembers(db, key) + PlacePoints(places, ElemSet(front)))], true)
    ensures RunAll(db, GeoAddCommands(key, places, front + [x]))
         == (db[key := Geo(GeoMembers(db, key) + PlacePoints(places, ElemSet(front + [x])))], true)
  {
    var v := PointOf(places[x]);
    var cmds := GeoAddCommands(key, places, front);
    assert (front + [x])[..|front|] == front;
    assert GeoAddCommands(key, places, front + [x]) == cmds + [GeoAdd(key, v, x)];
    RunGeoAddAfter(db, key, places, front, x);
    PlacePointsGrow(db, key, places, front, x);
  }

  lemma RunGeoAddAfter(db: Db, key: string, places: map<string, Json>, front: seq<string>, x: string)
    requires forall i :: 0 <= i < |front| ==> front[i] in places && Located(places[front[i]])
    requires x in places && Located(places[x])
    requires RunAll(db, GeoAddCommands(key, places, front)) == (db[key := Geo(GeoMembers(db, key) + PlacePoints(places, ElemSet(front)))], true)
    ensures RunAll(db, GeoAddCommands(key, places, front) + [GeoAdd(key, PointOf(places[x]), x)])
         == (db[key := Geo((GeoMembers(db, key) + PlacePoints(places, ElemSet(front)))[x := PointOf(places[x])])], true)
  {
    var v := PointOf(places[x]);
    RunAllSnoc(db, GeoAddCommands(key, places, front), GeoAdd(key, v, x));
    ApplyGeoAddAgain(db, key, GeoMembers(db, key) + PlacePoints(places, ElemSet(front)), x, v);
  }

  lemma PlacePointsGrow(db: Db, key: string, places: map<string, Json>, front: seq<string>, x: string)
    requires x in places && Located(places[x])
    ensures (GeoMembers(db, key) + PlacePoints(places, ElemSet(front)))[x := PointOf(places[x])]
         == GeoMembers(db, key) + PlacePoints(places, ElemSet(front + [x]))
  {
    MapUpdateUnion(GeoMembers(db, key), PlacePoints(places, ElemSet(front)), x, PointOf(places[x]));
    PlacePointsAdd(places, ElemSet(front), x);
    assert ElemSet(front + [x]) == ElemSet(front) + {x};
  }

  lemma ApplyGeoAddAgain(db: Db, key: string, merged: map<string, Point>, x: string, v: Point)
    ensures Apply(db[key := Geo(merged)], GeoAdd(key, v, x)) == Some(db[key := Geo(merged[x := v])])
  {
    var d := db[key := Geo(merged)];
    assert d[key := Geo(merged[x := v])] == db[key := Geo(merged[x := v])];
  }

  lemma {:induction false} RunGeoAddsOk(db: Db, key: string, places: map<string, Json>, order: seq<string>)
    requires forall i :: 0 <= i < |order| ==> order[i] in places && Located(places[order[i]])
    requires key !in db || db[key].Geo?
    requires order != []
    ensures RunAll(db, GeoAddCommands(key, places, order))
         == (db[key := Geo(GeoMembers(db, key) + PlacePoints(places, ElemSet(order)))], true)
    decreases |order|
  {
    var front := order[..|order| - 1];
    var x := order[|order| - 1];
    assert order == front + [x];
    if front == [] {
      RunGeoAddFirst(db, key, places, x);
      assert ElemSet(order) == {x};
    } else {
      RunGeoAddsOk(db, key, places, front);
      RunGeoAddNext(db, key, places, front, x);
    }
  }

  ghost predicate AllLocated(places: map<string, Json>)
  {
    forall id :: id in places ==> Located(places[id])
  }

  /** The transaction `load_to_temporary` builds, for given iteration orders. */
  function StageCommands(areaName: string, rect: Json, places: map<string, Json>,
                         placeOrder: seq<string>, coordOrder: seq<string>): seq<Command>
    requires forall i :: 0 <= i < |placeOrder| ==> placeOrder[i] in places
    requires forall i :: 0 <= i < |coordOrder| ==> coordOrder[i] in places && Located(places[coordOrder[i]])
  {
    var temp := ToTemp(areaName);
    [Set(Key(BoundariesTemplate, temp), Serialize(rect))]
    + HSetCommands(Key(PlacesTemplate, temp), places, placeOrder)
    + GeoAddCommands(Key(CoordinatesTemplate, temp), places, coordOrder)
  }

  /**
   * One staged hash key after its HSETs, whatever the iteration order:
   * unchanged when there are no places or the key holds another type,
   * otherwise its old fields overwritten by one field per place.
   */
  function HashStaged(db: Db, key: string, places: map<string, Json>): Db
  {
    if |places| == 0 || (key in db && !db[key].Hash?) then db
    else db[key := Hash(HashFields(db, key) + PlaceFields(places, places.Keys))]
  }

  /** One staged geo key after its GEOADDs, like `HashStaged`. */
  function GeoStaged(db: Db, key: string, places: map<string, Json>): Db
  {
    if |places| == 0 || (key in db && !db[key].Geo?) then db
    else db[key := Geo(GeoMembers(db, key) + PlacePoints(places, places.Keys))]
  }

  lemma StageHashes(db: Db, key: string, places: map<string, Json>, order: seq<string>)
    requires IsOrdering(order, places.Keys)
    ensures RunAll(db, HSetCommands(key, places, order))
         == (HashStaged(db, key, places), |places| == 0 || key !in db || db[key].Hash?)
  {
    OrderingElems(order, places.Keys);
    RunHSets(db, key, places, order);
  }

  lemma StageGeos(db: Db, key: string, places: map<string, Json>, order: seq<string>)
    requires IsOrdering(order, places.Keys) && AllLocated(places)
    ensures RunAll(db, GeoAddCommands(key, places, order))
         == (GeoStaged(db, key, places), |places| == 0 || key !in db || db[key].Geo?)
  {
    OrderingElems(order, places.Keys);
    assert PlacePoints(places, places.Keys) == PlacePoints(places, ElemSet(order));
    RunGeoAdds(db, key, places, order);
  }

  /**
   * The data set after staging, whatever the iteration order: the staging
   * boundaries key holds the rectangle, then the staging places hash and the
   * staging coordinates set are staged as `HashStaged` and `GeoStaged` say.
   */
  function StageDb(db: Db, areaName: string, rect: Json, places: map<string, Json>): Db
  {
    var temp := ToTemp(areaName);
    var b, p, c := Key(BoundariesTemplate, temp), Key(PlacesTemplate, temp), Key(CoordinatesTemplate, temp);
    GeoStaged(HashStaged(db[b := Str(Serialize(rect))], p, places), c, places)
  }

  /** Staging fails only on a staging key of the wrong type. */
  predicate StageOk(db: Db, areaName: string, places: map<string, Json>)
  {
    var temp := ToTemp(areaName);
    var p, c := Key(PlacesTemplate, temp), Key(CoordinatesTemplate, temp);
    |places| == 0 || ((p !in db || db[p].Hash?) && (c !in db || db[c].Geo?))
  }

  lemma OrderingElems(order: seq<string>, keys: set<string>)
    requires IsOrdering(order, keys)
    ensures ElemSet(order) == keys
    ensures order == [] <==> |keys| == 0
  {
    assert order != [] ==> order[0] in keys;
    if order == [] {
      assert forall k :: k in keys ==> k in order;
      assert keys == {};
    }
  }

  /** A SET, then the HSETs and GEOADDs of two other keys, run as one transaction. */
  lemma RunStaging(db: Db, b: string, p: string, c: string, rect: Json, places: map<string, Json>,
                   placeOrder: seq<string>, coordOrder: seq<string>)
    requires b != p && b != c && p != c
    requires IsOrdering(placeOrder, places.Keys) && IsOrdering(coordOrder, places.Keys)
    requires AllLocated(places)
    ensures RunAll(db, [Set(b, Serialize(rect))] + HSetCommands(p, places, placeOrder) + GeoAddCommands(c, places, coordOrder))
         == (GeoStaged(HashStaged(db[b := Str(Serialize(rect))], p, places), c, places),
             |places| == 0 || ((p !in db || db[p].Hash?) && (c !in db || db[c].Geo?)))
  {
    var d1 := db[b := Str(Serialize(rect))];
    StageHashes(d1, p, places, placeOrder);
    var d2 := HashStaged(d1, p, places);
    HashStagedElsewhere(d1, p, places, c);
    StageGeos(d2, c, places, coordOrder);
    RunAllThree(db, Set(b, Serialize(rect)), HSetCommands(p, places, placeOrder), GeoAddCommands(c, places, coordOrder),
                d1, d2, |places| == 0 || p !in db || db[p].Hash?,
                GeoStaged(d2, c, places), |places| == 0 || c !in db || db[c].Geo?);
  }

  lemma HashStagedElsewhere(db: Db, key: string, places: map<string, Json>, k: string)
    requires k != key
    ensures SameAt(HashStaged(db, key, places), db, k)
  {
  }

  /** The staging transaction, run, leaves the data set `StageDb` describes. */
  lemma StageEffect(db: Db, areaName: string, rect: Json, places: map<string, Json>,
                    placeOrder: seq<string>, coordOrder: seq<string>)
    requires IsOrdering(placeOrder, places.Keys) && IsOrdering(coordOrder, places.Keys)
    requires AllLocated(places)
    ensures RunAll(db, StageCommands(areaName, rect, places, placeOrder, coordOrder))
         == (StageDb(db, areaName, rect, places), StageOk(db, areaName, places))
  {
    var temp := ToTemp(areaName);
    KeysCoincide(BoundariesTemplate, PlacesTemplate, temp, temp);
    KeysCoincide(BoundariesTemplate, CoordinatesTemplate, temp, temp);
    KeysCoincide(PlacesTemplate, CoordinatesTemplate, temp, temp);
    RunStaging(db, Key(BoundariesTemplate, temp), Key(PlacesTemplate, temp), Key(CoordinatesTemplate, temp),
               rect, places, placeOrder, coordOrder);
  }

  /** Every command of the staging transaction names a staging key of its area. */
  lemma StagingNamesOnlyTempKeys(areaName: string, rect: Json, places: map<string, Json>,
                                 placeOrder: seq<string>, coordOrder: seq<string>)
    requires forall i :: 0 <= i < |placeOrder| ==> placeOrder[i] in places
    requires forall i :: 0 <= i < |coordOrder| ==> coordOrder[i] in places && Located(places[coordOrder[i]])
    ensures var cmds := StageCommands(areaName, rect, places, placeOrder, coordOrder);
            forall i :: 0 <= i < |cmds| ==> CommandKeys(cmds[i]) <= TempKeys(areaName)
  {
    var temp := ToTemp(areaName);
    assert Key(BoundariesTemplate, temp) in TempKeys(areaName);
    assert Key(PlacesTemplate, temp) in TempKeys(areaName);
    assert Key(CoordinatesTemplate, temp) in TempKeys(areaName);
  }

  /**
   * Whatever its outcome, staging leaves every key outside the area's staging
   * keys as it was: canonical data, other areas and unrelated keys.
   */
  lemma StagingKeepsOtherKeys(db: Db, areaName: string, rect: Json, places: map<string, Json>,
                              placeOrder: seq<string>, coordOrder: seq<string>, k: string)
    requires forall i :: 0 <= i < |placeOrder| ==> placeOrder[i] in places
    requires forall i :: 0 <= i < |coordOrder| ==> coordOrder[i] in places && Located(places[coordOrder[i]])
    requires k !in TempKeys(areaName)
    ensures SameAt(RunAll(db, StageCommands(areaName, rect, places, placeOrder, coordOrder)).0, db, k)
  {
    StagingNamesOnlyTempKeys(areaName, rect, places, placeOrder, coordOrder);
  }

  /** In particular staging leaves the canonical keys of any area whose name lacks the suffix. */
  lemma StagingKeepsCanonical(db: Db, areaName: string, rect: Json, places: map<string, Json>,
                              placeOrder: seq<string>, coordOrder: seq<string>, other: string)
    requires forall i :: 0 <= i < |placeOrder| ==> placeOrder[i] in places
    requires forall i :: 0 <= i < |coordOrder| ==> coordOrder[i] in places && Located(places[coordOrder[i]])
    requires !EndsWithSuffix(other)
    ensures forall t :: t in Templates ==>
              SameAt(RunAll(db, StageCommands(areaName, rect, places, placeOrder, coordOrder)).0, db, Key(t, other))
  {
    StagingKeysNotCanonical(areaName, other);
    forall t | t in Templates
      ensures SameAt(RunAll(db, StageCommands(areaName, rect, places, placeOrder, coordOrder)).0, db, Key(t, other))
    {
      assert Key(t, other) in CanonicalKeys(other);
      StagingKeepsOtherKeys(db, areaName, rect, places, placeOrder, coordOrder, Key(t, other));
    }
  }

  /** The staging name differs from the area name, so no staging key is a key of the same area. */
  lemma TempKeysApart(a: string, t1: string, t2: string)
    requires t1 in Templates && t2 in Templates
    ensures Key(t1, ToTemp(a)) != Key(t2, a)
  {
    KeysCoincide(t1, t2, ToTemp(a), a);
  }

  /** One RENAME per template, from the staging key to the canonical key. */
  function RenameCommands(templates: seq<string>, areaName: string): (cs: seq<Command>)
    ensures |cs| == |templates|
    ensures forall i :: 0 <= i < |templates| ==>
              cs[i] == Rename(Key(templates[i], ToTemp(areaName)), Key(templates[i], areaName))
  {
    if templates == [] then []
    else
      var t := templates[|templates| - 1];
      RenameCommands(templates[..|templates| - 1], areaName) + [Rename(Key(t, ToTemp(areaName)), Key(t, areaName))]
  }

  /** The DEL of an area's canonical keys that opens promotion. */
  function DeleteCanonical(areaName: string): Command
  {
    Delete([Key(BoundariesTemplate, areaName), Key(PlacesTemplate, areaName), Key(CoordinatesTemplate, areaName)])
  }

  /** The transaction `promote_temp_to_official` builds. */
  function PromoteCommands(areaName: string): seq<Command>
  {
    [DeleteCanonical(areaName)] + RenameCommands(Templates, areaName)
  }

  /** `promote_temp_to_official` */
  method PromoteTempToOfficial(redis: Redis, areaName: string, reached: bool) returns (ok: bool)
    modifies redis
    ensures reached ==> (redis.db, ok) == RunAll(old(redis.db), PromoteCommands(areaName))
    ensures !reached ==> redis.db == old(redis.db) && !ok
  {
    var tempName := ToTemp(areaName);
    var transaction := new Pipeline();
    transaction.Queue(DeleteCanonical(areaName));
    var templates := Templates;
    for i := 0 to |templates|
      invariant transaction.commands == [DeleteCanonical(areaName)] + RenameCommands(templates[..i], areaName)
      invariant redis.db == old(redis.db)
    {
      assert templates[..i + 1][..i] == templates[..i];
      transaction.Queue(Rename(Key(templates[i], tempName), Key(templates[i], areaName)));
    }
    assert templates[..|templates|] == templates;
    ok := redis.Execute(transaction, reached);
  }

  /**
   * The data set after a promotion that reached the server: the canonical
   * keys are deleted, then each staging key that exists is renamed over its
   * canonical key, boundaries first, then coordinates, then places.
   */
  function PromoteDb(db: Db, areaName: string): Db
  {
    var temp := ToTemp(areaName);
    var cleared := db - CanonicalKeys(areaName);
    var withBoundaries := Move(cleared, Key(BoundariesTemplate, temp), Key(BoundariesTemplate, areaName));
    var withCoordinates := Move(withBoundaries, Key(CoordinatesTemplate, temp), Key(CoordinatesTemplate, areaName));
    Move(withCoordinates, Key(PlacesTemplate, temp), Key(PlacesTemplate, areaName))
  }

  /** Promotion succeeds exactly when all three staging keys exist. */
  predicate PromoteOk(db: Db, areaName: string)
  {
    TempKeys(areaName) <= db.Keys
  }

  lemma PromoteRun(db: Db, areaName: string)
    ensures RunAll(db, PromoteCommands(areaName)) == (PromoteDb(db, areaName), PromoteOk(db, areaName))
  {
    var a, temp := areaName, ToTemp(areaName);
    var tb, tc, tp := Key(BoundariesTemplate, temp), Key(CoordinatesTemplate, temp), Key(PlacesTemplate, temp);
    var cb, cc, cp := Key(BoundariesTemplate, a), Key(CoordinatesTemplate, a), Key(PlacesTemplate, a);
    var ks := [cb, cp, cc];
    assert PromoteCommands(a) == [Delete(ks), Rename(tb, cb), Rename(tc, cc), Rename(tp, cp)];
    assert (set k | k in ks) == CanonicalKeys(a);
    RunDeleteRenames(db, ks, tb, cb, tc, cc, tp, cp);
    PromoteOkSpec(db, a);
  }

  /** Each rename finds its staging key exactly when it was there to begin with. */
  lemma PromoteOkSpec(db: Db, areaName: string)
    ensures var temp := ToTemp(areaName);
            var tb, tc, tp := Key(BoundariesTemplate, temp), Key(CoordinatesTemplate, temp), Key(PlacesTemplate, temp);
            var c0 := db - CanonicalKeys(areaName);
            var c1 := Move(c0, tb, Key(BoundariesTemplate, areaName));
            var c2 := Move(c1, tc, Key(CoordinatesTemplate, areaName));
            (tb in c0 && tc in c1 && tp in c2) == PromoteOk(db, areaName)
  {
    var a, temp := areaName, ToTemp(areaName);
    forall t1, t2 | t1 in Templates && t2 in Templates
      ensures Key(t1, temp) != Key(t2, a)
      ensures Key(t1, temp) == Key(t2, temp) ==> t1 == t2
    {
      TempKeysApart(a, t1, t2);
      KeysCoincide(t1, t2, temp, temp);
    }
    assert TempKeys(a) == {Key(BoundariesTemplate, temp), Key(CoordinatesTemplate, temp), Key(PlacesTemplate, temp)};
  }

  /** The six keys of an area and its staging name are pairwise different. */
  lemma AreaKeysDistinct(areaName: string)
    ensures var a, temp := areaName, ToTemp(areaName);
            var tb, tc, tp := Key(BoundariesTemplate, temp), Key(CoordinatesTemplate, temp), Key(PlacesTemplate, temp);
            var cb, cc, cp := Key(BoundariesTemplate, a), Key(CoordinatesTemplate, a), Key(PlacesTemplate, a);
            && tb != tc && tb != tp && tc != tp && cb != cc && cb != cp && cc != cp
            && tb != cb && tb != cc && tb != cp && tc != cb && tc != cc && tc != cp
            && tp != cb && tp != cc && tp != cp
            && TempKeys(a) == {tb, tc, tp} && CanonicalKeys(a) == {cb, cc, cp}
  {
    var a, temp := areaName, ToTemp(areaName);
    forall t1, t2 | t1 in Templates && t2 in Templates
      ensures Key(t1, temp) != Key(t2, a)
      ensures Key(t1, temp) == Key(t2, temp) ==> t1 == t2
      ensures Key(t1, a) == Key(t2, a) ==> t1 == t2
    {
      TempKeysApart(a, t1, t2);
      KeysCoincide(t1, t2, temp, temp);
      KeysCoincide(t1, t2, a, a);
    }
  }

  /**
   * After promotion the canonical key of each template holds what its
   * staging key held, and is absent when that was absent; no staging key is
   * left.
   */
  lemma PromoteAt(db: Db, areaName: string, template: string)
    requires template in Templates
    ensures var d, temp := PromoteDb(db, areaName), ToTemp(areaName);
            && Key(template, temp) !in d
            && (Key(template, areaName) in d <==> Key(template, temp) in db)
            && (Key(template, temp) in db ==> d[Key(template, areaName)] == db[Key(template, temp)])
  {
    AreaKeysDistinct(areaName);
    var temp := ToTemp(areaName);
    var tb, tc, tp := Key(BoundariesTemplate, temp), Key(CoordinatesTemplate, temp), Key(PlacesTemplate, temp);
    var cb, cc, cp := Key(BoundariesTemplate, areaName), Key(CoordinatesTemplate, areaName), Key(PlacesTemplate, areaName);
    var cleared := db - CanonicalKeys(areaName);
    assert SameAt(cleared, db, tb) && SameAt(cleared, db, tc) && SameAt(cleared, db, tp);
    assert cb !in cleared && cc !in cleared && cp !in cleared;
    ThreeMoves(cleared, tb, cb, tc, cc, tp, cp);
  }

  /** Three renames between six distinct keys, onto keys that are free. */
  lemma ThreeMoves(c: Db, s1: string, d1: string, s2: string, d2: string, s3: string, d3: string)
    requires s1 != s2 && s1 != s3 && s2 != s3 && d1 != d2 && d1 != d3 && d2 != d3
    requires s1 != d1 && s1 != d2 && s1 != d3 && s2 != d1 && s2 != d2 && s2 != d3
    requires s3 != d1 && s3 != d2 && s3 != d3
    requires d1 !in c && d2 !in c && d3 !in c
    ensures var r := Move(Move(Move(c, s1, d1), s2, d2), s3, d3);
            && s1 !in r && s2 !in r && s3 !in r
            && (d1 in r <==> s1 in c) && (s1 in c ==> r[d1] == c[s1])
            && (d2 in r <==> s2 in c) && (s2 in c ==> r[d2] == c[s2])
            && (d3 in r <==> s3 in c) && (s3 in c ==> r[d3] == c[s3])
  {
    var r1 := Move(c, s1, d1);
    var r2 := Move(r1, s2, d2);
    assert SameAt(r1, c, s2) && SameAt(r1, c, s3) && SameAt(r1, c, d2) && SameAt(r1, c, d3);
    assert SameAt(r2, r1, s1) && SameAt(r2, r1, d1) && SameAt(r2, r1, s3) && SameAt(r2, r1, d3);
    var r := Move(r2, s3, d3);
    assert SameAt(r, r2, s1) && SameAt(r, r2, d1) && SameAt(r, r2, s2) && SameAt(r, r2, d2);
  }

  /** Promotion leaves every key other than the area's six as it was. */
  lemma PromoteElsewhere(db: Db, areaName: string, k: string)
    requires k !in TempKeys(areaName) && k !in CanonicalKeys(areaName)
    ensures SameAt(PromoteDb(db, areaName), db, k)
  {
    AreaKeysDistinct(areaName);
  }

  /**
   * Key by key, the data set after staging: the staging boundaries key holds
   * the rectangle; the staging places and coordinates keys are staged as
   * `HashStaged` and `GeoStaged` say; every other key is as it was.
   */
  lemma StageDbAt(db: Db, areaName: string, rect: Json, places: map<string, Json>)
    ensures var d, temp := StageDb(db, areaName, rect, places), ToTemp(areaName);
            var tb, tc, tp := Key(BoundariesTemplate, temp), Key(CoordinatesTemplate, temp), Key(PlacesTemplate, temp);
            && tb in d && d[tb] == Str(Serialize(rect))
            && SameAt(d, HashStaged(db, tp, places), tp)
            && SameAt(d, GeoStaged(db, tc, places), tc)
            && forall k :: k !in TempKeys(areaName) ==> SameAt(d, db, k)
  {
    AreaKeysDistinct(areaName);
    var temp := ToTemp(areaName);
    var tb, tc, tp := Key(BoundariesTemplate, temp), Key(CoordinatesTemplate, temp), Key(PlacesTemplate, temp);
    var d1 := db[tb := Str(Serialize(rect))];
    HashStagedElsewhere(d1, tp, places, tb);
    HashStagedElsewhere(d1, tp, places, tc);
    GeoStagedElsewhere(HashStaged(d1, tp, places), tc, places, tb);
    GeoStagedElsewhere(HashStaged(d1, tp, places), tc, places, tp);
    assert HashFields(d1, tp) == HashFields(db, tp);
    assert GeoMembers(HashStaged(d1, tp, places), tc) == GeoMembers(db, tc);
    forall k | k !in TempKeys(areaName)
      ensures SameAt(StageDb(db, areaName, rect, places), db, k)
    {
      HashStagedElsewhere(d1, tp, places, k);
      GeoStagedElsewhere(HashStaged(d1, tp, places), tc, places, k);
    }
  }

  lemma GeoStagedElsewhere(db: Db, key: string, places: map<string, Json>, k: string)
    requires k != key
    ensures SameAt(GeoStaged(db, key, places), db, k)
  {
  }

  /**
   * Queuing the staging commands raises nothing: the area name is a string,
   * the places are a dictionary and every place has `geometry.location`.
   */
  ghost predicate Loadable(places: Json, metadata: Metadata)
  {
    metadata.areaName.JStr? && places.JObj? && AllLocated(places.fields)
  }

  /**
   * The three `Facade` calls of `load_to_temporary`, queuing into the staging
   * keys. Err is the exception raised on the way: places that are not a
   * dictionary, or a place without `geometry.location`.
   */
  method QueueStaging(areaName: string, rect: Json, places: Json, transaction: Pipeline)
    returns (r: Result<()>, ghost placeOrder: seq<string>, ghost coordOrder: seq<string>)
    modifies transaction
    ensures r.Ok? <==> places.JObj? && AllLocated(places.fields)
    ensures r.Ok? ==> IsOrdering(placeOrder, places.fields.Keys) && IsOrdering(coordOrder, places.fields.Keys)
    ensures r.Ok? ==> transaction.commands == old(transaction.commands)
                                              + StageCommands(areaName, rect, places.fields, placeOrder, coordOrder)
  {
    var tempAreaName := ToTemp(areaName);
    ghost var start := transaction.commands;
    AddBoundaries(tempAreaName, rect, transaction);
    if !places.JObj? {
      return Err("AttributeError: 'items'"), [], [];
    }
    placeOrder := AddPlaces(tempAreaName, places.fields, transaction);
    var located;
    located, coordOrder := AddCoordinates(tempAreaName, places.fields, transaction);
    if !located {
      return Err("KeyError: 'geometry' or 'location'"), placeOrder, coordOrder;
    }
    ghost var setRect := [Set(Key(BoundariesTemplate, tempAreaName), Serialize(rect))];
    ghost var hsets := HSetCommands(Key(PlacesTemplate, tempAreaName), places.fields, placeOrder);
    ghost var geoadds := GeoAddCommands(Key(CoordinatesTemplate, tempAreaName), places.fields, coordOrder);
    assert transaction.commands == start + setRect + hsets + geoadds;
    assert StageCommands(areaName, rect, places.fields, placeOrder, coordOrder) == setRect + hsets + geoadds;
    ConcatAssoc(start, setRect, hsets, geoadds);
    r := Ok(());
  }

  lemma ConcatAssoc(a: seq<Command>, b: seq<Command>, c: seq<Command>, d: seq<Command>)
    ensures a + b + c + d == a + (b + c + d)
  {
  }

  /**
   * `load_to_temporary`. Err is an exception raised while queuing, before
   * anything reaches the server; Ok carries the boolean it returns.
   */
  method LoadToTemporary(redis: Redis, places: Json, metadata: Metadata, reached: bool) returns (r: Result<bool>)
    modifies redis
    ensures r.Err? <==> !Loadable(places, metadata)
    ensures r.Err? || !reached ==> redis.db == old(redis.db)
    ensures r.Ok? ==> r.value == (reached && StageOk(old(redis.db), metadata.areaName.s, places.fields))
    ensures r.Ok? && reached ==>
              redis.db == StageDb(old(redis.db), metadata.areaName.s, metadata.boundingRectangle, places.fields)
  {
    if !metadata.areaName.JStr? {
      return Err("TypeError: can only concatenate str");
    }
    var areaName := metadata.areaName.s;
    var transaction := new Pipeline();
    var queued, placeOrder, coordOrder := QueueStaging(areaName, metadata.boundingRectangle, places, transaction);
    if queued.Err? {
      return Err(queued.reason);
    }
    assert [] + StageCommands(areaName, metadata.boundingRectangle, places.fields, placeOrder, coordOrder)
        == StageCommands(areaName, metadata.boundingRectangle, places.fields, placeOrder, coordOrder);
    StageEffect(redis.db, areaName, metadata.boundingRectangle, places.fields, placeOrder, coordOrder);
    var executed := redis.Execute(transaction, reached);
    return Ok(executed);
  }

  /**
   * The data set and the return value of `load_to_datastore`, given whether
   * each of its two transactions reached the server. The outcomes of both
   * transactions are discarded: the load reports success whenever queuing
   * raised nothing.
   */
  ghost function LoadOutcome(db: Db, places: Json, metadata: Metadata, stageReached: bool, promoteReached: bool): (Db, bool)
  {
    if !Loadable(places, metadata) then (db, false)
    else
      var areaName := metadata.areaName.s;
      var staged := if stageReached then StageDb(db, areaName, metadata.boundingRectangle, places.fields) else db;
      (if promoteReached then PromoteDb(staged, areaName) else staged, true)
  }

  /** `load_to_datastore` */
  method LoadToDatastore(redis: Redis, places: Json, metadata: Metadata, stageReached: bool, promoteReached: bool)
    returns (r: bool)
    modifies redis
    ensures (redis.db, r) == LoadOutcome(old(redis.db), places, metadata, stageReached, promoteReached)
  {
    var staged := LoadToTemporary(redis, places, metadata, stageReached);
    if staged.Err? {
      return false;
    }
    ghost var staging := redis.db;
    PromoteRun(staging, metadata.areaName.s);
    var promoted := PromoteTempToOfficial(redis, metadata.areaName.s, promoteReached);
    return true;
  }

  /**
   * What a load that worked leaves: no staging key of the area, the
   * canonical boundaries key holding the rectangle, and the canonical places
   * hash and coordinates set holding exactly one entry per new place (both
   * absent when there are none).
   */
  ghost predicate Loaded(db: Db, areaName: string, rect: Json, places: map<string, Json>)
  {
    var temp := ToTemp(areaName);
    var cb, cc, cp := Key(BoundariesTemplate, areaName), Key(CoordinatesTemplate, areaName), Key(PlacesTemplate, areaName);
    && Key(BoundariesTemplate, temp) !in db && Key(CoordinatesTemplate, temp) !in db && Key(PlacesTemplate, temp) !in db
    && cb in db && db[cb] == Str(Serialize(rect))
    && (|places| == 0 ==> cp !in db && cc !in db)
    && (|places| > 0 ==> && cp in db && db[cp] == Hash(PlaceFields(places, places.Keys))
                         && cc in db && db[cc] == Geo(PlacePoints(places, places.Keys)))
  }

  /**
   * Staging then promotion, starting with no staging key of the area, loads
   * exactly the new data and leaves every other key alone. Promotion fails
   * when there are no places, since no places hash was staged to rename.
   */
  lemma CleanLoad(db: Db, areaName: string, rect: Json, places: map<string, Json>)
    requires AllLocated(places)
    requires TempKeys(areaName) !! db.Keys
    ensures StageOk(db, areaName, places)
    ensures PromoteOk(StageDb(db, areaName, rect, places), areaName) <==> |places| > 0
    ensures Loaded(PromoteDb(StageDb(db, areaName, rect, places), areaName), areaName, rect, places)
    ensures forall k :: k !in TempKeys(areaName) && k !in CanonicalKeys(areaName) ==>
              SameAt(PromoteDb(StageDb(db, areaName, rect, places), areaName), db, k)
  {
    AreaKeysDistinct(areaName);
    var staged := StageDb(db, areaName, rect, places);
    CleanStage(db, areaName, rect, places);
    PromoteAt(staged, areaName, BoundariesTemplate);
    PromoteAt(staged, areaName, CoordinatesTemplate);
    PromoteAt(staged, areaName, PlacesTemplate);
    forall k | k !in TempKeys(areaName) && k !in CanonicalKeys(areaName)
      ensures SameAt(PromoteDb(staged, areaName), db, k)
    {
      PromoteElsewhere(staged, areaName, k);
      StageDbAt(db, areaName, rect, places);
    }
  }

  /** Staging from no staging keys writes exactly the new data under them. */
  lemma CleanStage(db: Db, areaName: string, rect: Json, places: map<string, Json>)
    requires TempKeys(areaName) !! db.Keys
    ensures var d, temp := StageDb(db, areaName, rect, places), ToTemp(areaName);
            var tb, tc, tp := Key(BoundariesTemplate, temp), Key(CoordinatesTemplate, temp), Key(PlacesTemplate, temp);
            && tb in d && d[tb] == Str(Serialize(rect))
            && (tp in d <==> |places| > 0) && (tc in d <==> |places| > 0)
            && (|places| > 0 ==> d[tp] == Hash(PlaceFields(places, places.Keys)) && d[tc] == Geo(PlacePoints(places, places.Keys)))
  {
    AreaKeysDistinct(areaName);
    var temp := ToTemp(areaName);
    var tp, tc := Key(PlacesTemplate, temp), Key(CoordinatesTemplate, temp);
    StageDbAt(db, areaName, rect, places);
    assert tp !in db && tc !in db;
    HashStagedFresh(db, tp, places);
    GeoStagedFresh(db, tc, places);
  }

  lemma HashStagedFresh(db: Db, key: string, places: map<string, Json>)
    requires key !in db
    ensures key in HashStaged(db, key, places) <==> |places| > 0
    ensures |places| > 0 ==> HashStaged(db, key, places)[key] == Hash(PlaceFields(places, places.Keys))
  {
    assert map[] + PlaceFields(places, places.Keys) == PlaceFields(places, places.Keys);
  }

  lemma GeoStagedFresh(db: Db, key: string, places: map<string, Json>)
    requires key !in db
    ensures key in GeoStaged(db, key, places) <==> |places| > 0
    ensures |places| > 0 ==> GeoStaged(db, key, places)[key] == Geo(PlacePoints(places, places.Keys))
  {
    assert map[] + PlacePoints(places, places.Keys) == PlacePoints(places, places.Keys);
  }

  /** `get_boundaries_for_area`: a missing key gives `None`, which does not deserialize. */
  function GetBoundariesForArea(db: Db, areaName: string): (r: Result<Json>)
    ensures r.Ok? <==> Key(BoundariesTemplate, areaName) in db && db[Key(BoundariesTemplate, areaName)].Str?
    ensures r.Ok? ==> Serialize(r.value) == db[Key(BoundariesTemplate, areaName)].payload
  {
    var key := Key(BoundariesTemplate, areaName);
    if key !in db then Err("TypeError: NoneType is not JSON")
    else match db[key]
      case Str(payload) => Ok(payload.doc)
      case _ => Err("WRONGTYPE")
  }

  /** `get_place_data`: a missing hash or field gives `None`, which does not deserialize. */
  function GetPlaceData(db: Db, areaName: string, placeKey: string): (r: Result<Json>)
    ensures var key := Key(PlacesTemplate, areaName);
            r.Ok? <==> key in db && db[key].Hash? && placeKey in db[key].fields
    ensures r.Ok? ==> Serialize(r.value) == db[Key(PlacesTemplate, areaName)].fields[placeKey]
  {
    var key := Key(PlacesTemplate, areaName);
    if key !in db then Err("TypeError: NoneType is not JSON")
    else match db[key]
      case Hash(fields) => if placeKey in fields then Ok(fields[placeKey].doc) else Err("TypeError: NoneType is not JSON")
      case _ => Err("WRONGTYPE")
  }

  /** After a load that worked, the getters return exactly what was loaded. */
  lemma LoadedGets(db: Db, areaName: string, rect: Json, places: map<string, Json>)
    requires Loaded(db, areaName, rect, places)
    ensures GetBoundariesForArea(db, areaName) == Ok(rect)
    ensures forall id :: GetPlaceData(db, areaName, id).Ok? <==> id in places
    ensures forall id :: id in places ==> GetPlaceData(db, areaName, id) == Ok(places[id])
  {
    if |places| == 0 {
      assert places.Keys == {};
    }
  }

  /**
   * A staging transaction that never ran still lets promotion run: it deletes
   * the area's canonical data, its renames fail, and the load reports success.
   */
  lemma UnreachedStagingErasesArea(db: Db, places: Json, metadata: Metadata)
    requires Loadable(places, metadata)
    requires TempKeys(metadata.areaName.s) !! db.Keys
    ensures var areaName := metadata.areaName.s;
            var (d, r) := LoadOutcome(db, places, metadata, false, true);
            && r && !PromoteOk(db, areaName)
            && forall t :: t in Templates ==> Key(t, areaName) !in d
  {
    var areaName := metadata.areaName.s;
    AreaKeysDistinct(areaName);
    PromoteAt(db, areaName, BoundariesTemplate);
    PromoteAt(db, areaName, CoordinatesTemplate);
    PromoteAt(db, areaName, PlacesTemplate);
  }

  /**
   * A staging places hash left behind by an earlier load keeps its fields:
   * the new places are added to it, and promotion publishes a place that is
   * not among the new ones.
   */
  lemma StaleFieldPromoted(db: Db, places: Json, metadata: Metadata, stale: string)
    requires Loadable(places, metadata) && |places.fields| > 0
    requires var temp := ToTemp(metadata.areaName.s);
             var tp, tc := Key(PlacesTemplate, temp), Key(CoordinatesTemplate, temp);
             && tp in db && db[tp].Hash? && stale in db[tp].fields && stale !in places.fields
             && (tc !in db || db[tc].Geo?)
    ensures var areaName := metadata.areaName.s;
            var (d, r) := LoadOutcome(db, places, metadata, true, true);
            var cp := Key(PlacesTemplate, areaName);
            && r && StageOk(db, areaName, places.fields)
            && PromoteOk(StageDb(db, areaName, metadata.boundingRectangle, places.fields), areaName)
            && cp in d && d[cp].Hash? && stale in d[cp].fields
  {
    var areaName := metadata.areaName.s;
    var staged := StageDb(db, areaName, metadata.boundingRectangle, places.fields);
    AreaKeysDistinct(areaName);
    StageDbAt(db, areaName, metadata.boundingRectangle, places.fields);
    PromoteAt(staged, areaName, PlacesTemplate);
  }

  /** The DEL of an area's staging keys that opens the corrected staging transaction. */
  function DeleteStaging(areaName: string): Command
  {
    var temp := ToTemp(areaName);
    Delete([Key(BoundariesTemplate, temp), Key(PlacesTemplate, temp), Key(CoordinatesTemplate, temp)])
  }

  /** Clearing the staging keys first, staging cannot fail and starts from nothing. */
  lemma CleanStageEffect(db: Db, areaName: string, rect: Json, places: map<string, Json>,
                         placeOrder: seq<string>, coordOrder: seq<string>)
    requires IsOrdering(placeOrder, places.Keys) && IsOrdering(coordOrder, places.Keys)
    requires AllLocated(places)
    ensures RunAll(db, [DeleteStaging(areaName)] + StageCommands(areaName, rect, places, placeOrder, coordOrder))
         == (StageDb(db - TempKeys(areaName), areaName, rect, places), true)
  {
    var cleared := db - TempKeys(areaName);
    DeleteStagingClears(db, areaName);
    ClearedStageOk(db, areaName, places);
    RunOne(db, DeleteStaging(areaName));
    StageEffect(cleared, areaName, rect, places, placeOrder, coordOrder);
    RunAllThen(db, [DeleteStaging(areaName)], StageCommands(areaName, rect, places, placeOrder, coordOrder),
               cleared, true, StageDb(cleared, areaName, rect, places), true);
  }

  lemma DeleteStagingClears(db: Db, areaName: string)
    ensures Apply(db, DeleteStaging(areaName)) == Some(db - TempKeys(areaName))
  {
    var temp := ToTemp(areaName);
    assert (set k | k in [Key(BoundariesTemplate, temp), Key(PlacesTemplate, temp), Key(CoordinatesTemplate, temp)])
        == TempKeys(areaName);
  }

  lemma ClearedStageOk(db: Db, areaName: string, places: map<string, Json>)
    ensures StageOk(db - TempKeys(areaName), areaName, places)
  {
    var temp := ToTemp(areaName);
    assert Key(PlacesTemplate, temp) in TempKeys(areaName);
    assert Key(CoordinatesTemplate, temp) in TempKeys(areaName);
  }

  /** `load_to_temporary` with the staging keys deleted at the start of its transaction. */
  method LoadToTemporaryCorrected(redis: Redis, places: Json, metadata: Metadata, reached: bool) returns (r: Result<bool>)
    modifies redis
    ensures r.Err? <==> !Loadable(places, metadata)
    ensures r.Err? || !reached ==> redis.db == old(redis.db)
    ensures r.Ok? ==> r.value == reached
    ensures r.Ok? && reached ==>
              redis.db == StageDb(old(redis.db) - TempKeys(metadata.areaName.s), metadata.areaName.s,
                                  metadata.boundingRectangle, places.fields)
  {
    if !metadata.areaName.JStr? {
      return Err("TypeError: can only concatenate str");
    }
    var areaName := metadata.areaName.s;
    var transaction := new Pipeline();
    transaction.Queue(DeleteStaging(areaName));
    var queued, placeOrder, coordOrder := QueueStaging(areaName, metadata.boundingRectangle, places, transaction);
    if queued.Err? {
      return Err(queued.reason);
    }
    ghost var cmds := StageCommands(areaName, metadata.boundingRectangle, places.fields, placeOrder, coordOrder);
    assert transaction.commands == [DeleteStaging(areaName)] + cmds;
    CleanStageEffect(redis.db, areaName, metadata.boundingRectangle, places.fields, placeOrder, coordOrder);
    var executed := redis.Execute(transaction, reached);
    return Ok(executed);
  }

  /**
   * `load_to_datastore` that stages from clean staging keys, promotes only
   * after staging worked, and reports promotion's outcome. It reports success
   * exactly when the area now holds exactly the new data; when staging did
   * not run nothing changes, and keys outside the area are never touched.
   */
  method LoadToDatastoreCorrected(redis: Redis, places: Json, metadata: Metadata, stageReached: bool, promoteReached: bool)
    returns (r: bool)
    modifies redis
    ensures r <==> Loadable(places, metadata) && stageReached && promoteReached && |places.fields| > 0
    ensures r ==> Loaded(redis.db, metadata.areaName.s, metadata.boundingRectangle, places.fields)
    ensures !(Loadable(places, metadata) && stageReached) ==> redis.db == old(redis.db)
    ensures Loadable(places, metadata) ==>
              forall k :: k !in TempKeys(metadata.areaName.s) && k !in CanonicalKeys(metadata.areaName.s) ==>
                SameAt(redis.db, old(redis.db), k)
  {
    var staged := LoadToTemporaryCorrected(redis, places, metadata, stageReached);
    if staged.Err? || !staged.value {
      return false;
    }
    var areaName := metadata.areaName.s;
    ghost var cleared := old(redis.db) - TempKeys(areaName);
    ghost var staging := redis.db;
    CleanLoad(cleared, areaName, metadata.boundingRectangle, places.fields);
    PromoteRun(staging, areaName);
    forall k | k !in TempKeys(areaName) && k !in CanonicalKeys(areaName)
      ensures SameAt(staging, old(redis.db), k)
    {
      StageDbAt(cleared, areaName, metadata.boundingRectangle, places.fields);
    }
    r := PromoteTempToOfficial(redis, areaName, promoteReached);
    if !promoteReached {
      forall k | k !in TempKeys(areaName) && k !in CanonicalKeys(areaName)
        ensures SameAt(redis.db, old(redis.db), k)
      {
      }
    }
  }
}
