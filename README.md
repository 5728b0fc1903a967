# deka_minion in Dafny

deka_minion collects the venues (Google Places results) that lie in a
geographical area and serves them from Redis. It has two halves.

- **Fetching.** An input document lists circles: coordinates plus one shared
  radius. The circles are split into one batch per processor. Each worker
  splits its batch again into sub-batches of `len(batch) // 30` circles, one
  thread per sub-batch. Each thread queries the Places API circle by circle,
  following `next_page_token` pages until a page has none or a request fails.
  The results are merged into one dictionary keyed by place id and saved with
  the input's metadata.
- **Loading.** The saved document is read back. One Redis transaction stages
  the area's data under temporary keys (`<template><area>:temporarykey`): the
  bounding rectangle as a string, the places as a hash, the coordinates as a
  geo set. A second transaction deletes the canonical keys of the area and
  renames the staging keys over them. Getters read the boundaries and single
  places back.

The model works on values where the source is pure and on objects where the
source updates state in place:

- Python dictionaries become `map`s.
- The shared result dictionary is a `ResultStore` class.
- A Redis pipeline is a `Pipeline` object that collects commands. The server
  is a `Redis` object whose data set `Execute` updates.
- The HTTP layer is an oracle: the sequence of replies the API gives for a
  circle.
- Whether a transaction reaches the server is a parameter.

Modules, in dependency order:

- `Wrappers`: Option and Result.
- `JsonValue`: a JSON value, with the printed text of every number kept.
- `DekaTypes`, `LoadDataTypes`: `Circle`, `LatLng`, `Metadata`.
- `Merge`: repeated `dict.update`.
- `Misc`: `split_to_batches`.
- `Parallelise`: `parallelise` and `_query_batch`, run sequentially.
- `GooglePlaces`: wrapper.py.
- `InputCircles`, `GetPlacesData`, `Vroom`, `LoadMain`: reading the input documents.
- `KeyConverter`, `RedisStore`, `Datastore`: load_data/datastore_adapter/redis.py and the Redis behaviour it relies on.
- `RoundTrip`: the saved document's way from the fetching side to the getters.

## Model

| member | source | states |
|---|---|---|
| Misc.SplitToBatches | get_places/deka_utils/misc.py:1-9 | The batches concatenate back to the input (the assertion of line 8), and each batch holds between 1 and `n` items. |
| Misc.SplitCount | get_places/deka_utils/misc.py:7 | There are ceil(len / n) batches, and none exactly when the input is empty. |
| Misc.SplitFullBatches | get_places/deka_utils/misc.py:7 | Every batch except the last holds exactly `n` items. |
| Misc.SplitKeepsLength | get_places/deka_utils/misc.py:8 | The batch lengths sum to the input length. |
| Merge.UpdateAllIsMerge | get_places/google_places_wrapper/parallelise.py:87-88 | The dictionaries folded with `update` yield exactly the union of their keys. Every value comes from one of the dictionaries. |
| Merge.UpdateAllAppend | get_places/google_places_wrapper/parallelise.py:87-88 | Folding two lists of dictionaries one after the other is the later fold laid over the earlier one. |
| Merge.MergeOfAppend | get_places/google_places_wrapper/parallelise.py:91 | Two merges published into one store give a merge of both lists of answers. |
| Parallelise.Results | get_places/google_places_wrapper/parallelise.py:85 | Gives one answer per circle, in order, each the query applied to that circle. |
| Parallelise.LongBatchesAppend | get_places/google_places_wrapper/parallelise.py:94 | Selecting the batches a worker survives distributes over concatenation. |
| Parallelise.LongBatchesOfLong | get_places/google_places_wrapper/parallelise.py:94 | No batch of 30 or more circles is dropped. |
| Parallelise.ShortBatchesAllDropped | get_places/google_places_wrapper/parallelise.py:94 | When every batch is shorter than 30, every batch is dropped. |
| Parallelise.ResultStore.Update | get_places/google_places_wrapper/parallelise.py:91 | `result_store.update` lays the published dictionary over the entries and counts one publication. |
| Parallelise.SubBatch | get_places/google_places_wrapper/parallelise.py:79-91 | A thread queries its circles in order and publishes the fold of their answers once. |
| Parallelise.RunSubBatches | get_places/google_places_wrapper/parallelise.py:94-98 | The threads of a worker query every circle of the batch in order. The store gains the fold of all answers. There is one publication per sub-batch. |
| Parallelise.QueryBatch | get_places/google_places_wrapper/parallelise.py:64-98 | A batch under 30 circles queries nothing and leaves the store as it was. A larger batch queries all its circles, with one publication per sub-batch. |
| Parallelise.Parallelise | get_places/google_places_wrapper/parallelise.py:31-61 | The circles queried are exactly those of the batches of 30 or more, in order. The result is a merge of their answers. |
| Parallelise.ParalleliseCorrected | get_places/google_places_wrapper/parallelise.py:31-61 | With the corrected worker, every circle of every batch is queried. The result is a merge of all their answers. |
| GooglePlaces.MakeHttpRequest | get_places/google_places_wrapper/wrapper.py:88-92 | Succeeds exactly for a status of 200 with a JSON body, and returns that body. |
| GooglePlaces.PlacesById | get_places/google_places_wrapper/wrapper.py:72 | The comprehension succeeds exactly when every place has a string `id`. |
| GooglePlaces.PlacesByIdKeepsLast | get_places/google_places_wrapper/wrapper.py:72 | Every place's id is a key. Each key maps to the last place in the list with that id. |
| GooglePlaces.PlaceList | get_places/google_places_wrapper/wrapper.py:71-72 | `page_result['results']` can be looped over exactly when the key is present and its value is iterable as places. |
| GooglePlaces.ReadPage | get_places/google_places_wrapper/wrapper.py:70-77 | A page reads well exactly when the request succeeded, its `results` can be looped over, and every place has a string `id`. Then the page read is those places keyed by id together with the page's own token. A token is kept exactly when `_api_response_has_more_pages` holds. |
| GooglePlaces.BuildApiUrl | get_places/google_places_wrapper/wrapper.py:95-102 | The loop's URL equals the endpoint, `?key=`, the key, and one `&k=v` per parameter in insertion order. |
| GooglePlaces.QueryStringAppend | get_places/google_places_wrapper/wrapper.py:100-101 | One more parameter appends exactly its `&k=v`. |
| GooglePlaces.UrlLayout | get_places/google_places_wrapper/wrapper.py:64-67 | The request URL is the endpoint and key, then location, radius and, for a non-empty token, `pagetoken`, in that order. |
| GooglePlaces.QuerySingleCircle | get_places/google_places_wrapper/wrapper.py:43-81 | The loop's merged places and the URLs it requests are exactly those of the crawl over the replies. |
| GooglePlaces.PendingStops | get_places/google_places_wrapper/wrapper.py:78-80 | A failed request, or an exhausted oracle, ends the loop with what was merged so far. |
| GooglePlaces.PendingContinues | get_places/google_places_wrapper/wrapper.py:74-77 | A page that reads well is merged. Its token decides whether the loop goes on. |
| GooglePlaces.CrawlMergesPages | get_places/google_places_wrapper/wrapper.py:74 | The crawl's result is the `update` fold of the pages read, in order. |
| GooglePlaces.CrawlRequests | get_places/google_places_wrapper/wrapper.py:63-77 | There is one request per page read, plus one more unless the last page read has no token. The first request has no token, and each later one carries the token of the page before it. |
| GooglePlaces.RequestBound | get_places/google_places_wrapper/wrapper.py:63 | The loop makes at least one request and at most one more than there are replies. |
| GooglePlaces.Fetched | get_places/google_places_wrapper/wrapper.py:69-80 | The pages read are the replies read up to the first failure or tokenless page, in order, each equal to what `ReadPage` gives for its reply. Every page but the last carries a token. |
| GooglePlaces.FetchedStops | get_places/google_places_wrapper/wrapper.py:74-80 | Reading stops before the replies run out only at a reply that fails, or right after a page without a token. |
| GooglePlaces.ExactlyKRequests | get_places/google_places_wrapper/wrapper.py:63-80 | When the first k replies read well, all but the k-th carry a token and the k-th has none, exactly k pages are read and k requests are made. The result is the `update` fold of those k pages. |
| GooglePlaces.ZeroBatchSize | get_places/google_places_wrapper/wrapper.py:31 | `len // cpu_count` is 0 exactly when there are fewer circles than processors. |
| GooglePlaces.QueriedCirclesIsLongBatches | get_places/google_places_wrapper/wrapper.py:31-35 | The circles in the batches that are not dropped are the prefix `QueriedCircles` names: none when the batch size is below 30, otherwise all but a final batch shorter than 30. |
| GooglePlaces.LongBatchesOfSplit | get_places/google_places_wrapper/wrapper.py:32 | With batches of at least 30, only the remainder batch can be shorter than 30, and only it is dropped. |
| GooglePlaces.QueryGooglePlaces | get_places/google_places_wrapper/wrapper.py:25-40 | Fails exactly when there are fewer circles than processors (`range` step 0). Otherwise it queries exactly `QueriedCircles`, and the result is a merge of their crawls. |
| GooglePlaces.QueryGooglePlacesCorrected | get_places/google_places_wrapper/wrapper.py:25-40 | With batch sizes kept at 1 or more, every circle is queried, and the result is a merge of all the crawls. |
| GooglePlaces.RemainderCircleDropped | tests/test_get_places_data/test_parallelise.py:48-63 | With 61 circles on 2 processors, the 61st circle is never queried. |
| GooglePlaces.SmallInputDropped | tests/test_get_places_data/test_parallelise.py:48-63 | With 10 circles on 1 processor, no circle is queried. |
| JsonValue.Elements | get_places/get_places_data.py:89-90 | A `for` loop that subscripts its items by key gets through a list, giving its entries, and an empty dictionary or empty string, giving nothing. Any other value raises. |
| JsonValue.Get | get_places/get_places_data.py:83-88 | `d[key]` succeeds exactly for a dictionary holding the key, and returns its value. |
| InputCircles.CircleOf | get_places/get_places_data.py:89 | An entry becomes a circle exactly when it is a dictionary with `lat` and `lng`. The circle carries those two values and the shared radius. |
| InputCircles.CirclesOf | get_places/get_places_data.py:89-90 | The comprehension succeeds exactly when every entry converts. Then it gives one circle per entry, in order. |
| InputCircles.CoordinateCircles | vroom.py:40-41 | A list converts entry by entry. An empty dictionary or empty string gives no circles. Anything else raises. |
| GetPlacesData.MetadataOf | get_places/get_places_data.py:84-88 | The metadata dictionary has exactly the keys `circle_radius`, `area_name` and `bounding_rectangle`, holding the three given values. |
| GetPlacesData.PrepareRawInput | get_places/get_places_data.py:75-93 | Succeeds exactly when the four keys are present and the coordinates convert. Then it returns the circles and a metadata dictionary built from the three inputs. |
| GetPlacesData.PrepareRawInputCircles | get_places/get_places_data.py:89-90 | For a coordinate list, circle i has entry i's lat and lng and the input's radius. |
| GetPlacesData.ToSave | get_places/get_places_data.py:37-40 | The saved document has exactly the keys `metadata` and `places`, holding the metadata and the places. |
| Vroom.PrepareRawInput | vroom.py:37-41 | Succeeds exactly when `circle_radius` and `coordinates` are present and the coordinates convert. Then it returns the same circles. |
| Vroom.SameCirclesAsGetPlacesData | vroom.py:37-41 | Where get_places_data's preparation succeeds, vroom's gives the same circles. |
| LoadMain.ParseRawInput | load_data/main.py:26-33 | Succeeds exactly when `metadata` (with `bounding_rectangle` and `area_name`) and `places` are present. Then it returns the places unchanged and those two metadata fields. |
| KeyConverter.ToTemp | load_data/datastore_adapter/redis.py:25-27 | The key followed by the suffix: its prefix is the key, and the suffix occurs right after it. |
| KeyConverter.FromTemp | load_data/datastore_adapter/redis.py:29-31 | Gives a prefix of the key, and the whole key when the suffix does not occur in it. |
| KeyConverter.BeforeFirst | load_data/datastore_adapter/redis.py:31 | `split(sep)[0]` is the longest prefix before the first occurrence. |
| KeyConverter.AfterLast | load_data/datastore_adapter/redis.py:36 | `split(c)[-1]` is the longest suffix without `c`. It is the whole string or follows a `c`. |
| KeyConverter.FromTempOfTemp | load_data/datastore_adapter/redis.py:25-31 | `from_temp(to_temp(k)) == k` for a key that does not already contain the suffix. |
| KeyConverter.AreaNameOfKey | load_data/datastore_adapter/redis.py:33-36 | `get_area_name` recovers a colon-free area name from any key template ending in `:`. |
| KeyConverter.AreaNameOfLondon | load_data/datastore_adapter/redis.py:35 | `get_area_name("cities:places:london") == "london"`. |
| RedisStore.Apply | load_data/datastore_adapter/redis.py:94-103 | A command fails exactly for HSET or GEOADD on a key of another type and for RENAME of a missing key. Every GEOADD position is taken as valid (see Left out). A command changes only the keys it names. |
| RedisStore.RunAll | load_data/datastore_adapter/redis.py:105-106 | An executed transaction leaves every key no command names as it was. |
| RedisStore.RunAllAppend | load_data/datastore_adapter/redis.py:105-106 | Running two command lists back to back is running their concatenation. |
| RedisStore.Redis.Execute | load_data/datastore_adapter/redis.py:81 | A transaction that reaches the server runs each queued command in order. One that does not reach it changes nothing and raises. |
| RedisStore.Pipeline.Queue | load_data/datastore_adapter/redis.py:137 | Queuing appends the command. |
| Datastore.KeysCoincide | load_data/datastore_adapter/redis.py:15-19 | Two keys built from the templates coincide only for the same template and the same area name. |
| Datastore.StagingKeysNotCanonical | load_data/datastore_adapter/redis.py:72 | No staging key of one area is a canonical key of an area whose name does not end in the suffix. |
| Datastore.ExtractLatLngSpec | load_data/datastore_adapter/redis.py:119-121 | Extraction succeeds exactly when `geometry.location` holds `lat` and `lng`, and returns those two values. |
| Datastore.AddBoundaries | load_data/datastore_adapter/redis.py:128-137 | Queues one SET of the serialized rectangle under the boundaries key. |
| Datastore.AddPlaces | load_data/datastore_adapter/redis.py:139-151 | Queues one HSET per place, in an iteration order that lists every place id once. |
| Datastore.AddCoordinates | load_data/datastore_adapter/redis.py:153-167 | Succeeds exactly when every place has a location. Then it queues one GEOADD (longitude, latitude, id) per place, in an iteration order that lists every id once. |
| Datastore.StageEffect | load_data/datastore_adapter/redis.py:73-81 | The staging transaction, in any iteration order, leaves `StageDb`. It succeeds exactly when there are no places or the staging places and coordinates keys hold no other type, for positions Redis accepts. |
| Datastore.StagingKeepsCanonical | load_data/datastore_adapter/redis.py:62-86 | Staging leaves the canonical keys of every area whose name does not end in `:temporarykey` as they were. |
| Datastore.QueueStaging | load_data/datastore_adapter/redis.py:70-79 | Raises exactly when the places are not a dictionary or some place has no location. Otherwise it queues the staging commands. |
| Datastore.LoadToTemporary | load_data/datastore_adapter/redis.py:62-86 | Raises exactly for an input it cannot queue. Otherwise it returns whether the transaction reached the server and succeeded, and a reached transaction leaves `StageDb`. |
| Datastore.PromoteTempToOfficial | load_data/datastore_adapter/redis.py:89-108 | Queues the DEL of the three canonical keys and the three RENAMEs, boundaries, coordinates, then places, and executes them. |
| Datastore.PromoteRun | load_data/datastore_adapter/redis.py:93-106 | Promotion leaves `PromoteDb`. It succeeds exactly when all three staging keys exist. |
| Datastore.PromoteAt | load_data/datastore_adapter/redis.py:93-103 | After promotion no staging key is left. Each canonical key holds what its staging key held, and it is absent if that staging key was missing. |
| Datastore.PromoteElsewhere | load_data/datastore_adapter/redis.py:93-103 | Promotion touches no key outside the area's six. |
| Datastore.LoadToDatastore | load_data/datastore_adapter/redis.py:39-59 | The data set and result are `LoadOutcome`. The outcomes of both transactions are discarded, and the call reports success whenever queuing raised nothing. |
| Datastore.CleanLoad | load_data/datastore_adapter/redis.py:39-108 | With no staging data left over, staging and promotion load exactly the new data (`Loaded`) and leave every other key alone. Promotion fails exactly when there are no places. |
| Datastore.GetBoundariesForArea | load_data/datastore_adapter/redis.py:169-172 | Succeeds exactly when the boundaries key holds a string, and returns the document it deserializes to. |
| Datastore.GetPlaceData | load_data/datastore_adapter/redis.py:174-177 | Succeeds exactly when the places hash has the field, and returns the document it deserializes to. |
| Datastore.LoadedGets | load_data/datastore_adapter/redis.py:169-177 | After a load the getters return the rectangle and exactly the loaded places. |
| Datastore.UnreachedStagingErasesArea | load_data/datastore_adapter/redis.py:50-57 | When the staging transaction never ran, `load_to_datastore` still returns True, and all three canonical keys of the area are gone. |
| Datastore.StaleFieldPromoted | load_data/datastore_adapter/redis.py:139-151 | A place left in the staging hash by an earlier load is published next to the new places. |
| Datastore.CleanStageEffect | load_data/datastore_adapter/redis.py:62-86 | With a leading DEL of the staging keys, staging always succeeds and leaves `StageDb` of the cleared data set. |
| Datastore.LoadToTemporaryCorrected | load_data/datastore_adapter/redis.py:62-86 | The corrected staging clears leftovers first. It returns exactly whether the transaction reached the server. |
| Datastore.LoadToDatastoreCorrected | load_data/datastore_adapter/redis.py:39-59 | Reports success exactly when the input loads, both transactions reach the server and there is a place. Success leaves `Loaded`. An input that cannot be staged changes nothing. Keys outside the area are left alone. |
| RoundTrip.SavedDocumentParses | load_data/main.py:26-33 | The document get_places_data saves parses back to the fetched places and the input's area name and rectangle. |
| RoundTrip.FetchedPlacesServed | load_data/datastore_adapter/redis.py:39-59 | Loading the saved document with no leftovers reports success. The getters then serve the input's rectangle and exactly the fetched places. |
| RoundTrip.NonStringAreaNameNotLoaded | load_data/datastore_adapter/redis.py:72 | A saved document whose area name is not a string fails to load and changes nothing. |

## Left out

- Processes, threads and the `Manager` proxy are run sequentially in start
  order. Publication order across threads is therefore fixed in the model.
- Parallelise.Parallelise: the contract states only `MergeOf`: the key set,
  and for each value some answer that supplied it. Real interleavings can
  pick a different winner for a duplicated place id.
- GooglePlaces.QueryGooglePlaces: states only `MergeOf` for the same reason.
- `cpu_count()` is a parameter.
- HTTP and its timeout are an oracle: the list of replies the API gives, in
  order. An exhausted oracle counts as a failed request.
- GooglePlaces.ReadPage: `next_page_token` is a string or absent. A token
  that is another JSON value (null, a number) cannot be represented. In the
  source a falsy one sends no `pagetoken` and any other is sent as `str()`
  of it. A body that is JSON but not a dictionary counts as not JSON: in
  both cases the request raises.
- GooglePlaces.PlacesById: place ids are strings only. A place whose `id` is
  another JSON value counts as a malformed page.
- Logging, timing, `print`, argument parsing, S3 and file reading and writing
  are not modelled.
- The file name built in `save_places_to_file` is not modelled either, because
  it depends on the clock.
- `json.dumps` and `json.loads` are modelled as an injective wrapper around
  the document. The text format and float printing are not modelled.
- Numbers keep their printed text. `str()` of null, a bool, a number or a
  string is `Render`. A list or dictionary renders as a placeholder, not as
  its Python repr, so a list- or dictionary-valued `lat`, `lng` or radius
  builds a different URL from the source's.
- Python's `%s` formatting of floats is not modelled.
- Datastore.PromoteTempToOfficial: the source returns None on success and
  False on an exception. The model returns a bool, true on success.
- `load_to_datastore` ignores that value either way.
- RedisStore.Redis.Execute: MULTI/EXEC is abstracted. `reached` says whether
  the transaction got to the server. A connection error after some commands
  ran is not modelled.
- Redis's own reply for RENAME onto itself and the encoding of GEOADD
  positions (geohash precision) are not modelled.
- RedisStore.Apply: GEOADD always accepts its position, because coordinates
  are opaque JSON values in the model. Redis rejects a longitude outside
  ±180 or a latitude outside ±85.05112878, and the client rejects a null,
  bool, list or dictionary coordinate; either makes `execute` raise and
  `load_to_temporary` return False. Datastore.StageEffect,
  Datastore.CleanStageEffect, Datastore.CleanLoad, Datastore.LoadToTemporary,
  Datastore.LoadToTemporaryCorrected, Datastore.LoadToDatastoreCorrected and
  RoundTrip.FetchedPlacesServed therefore hold only for positions Redis
  accepts.
- The dictionary iteration order in `add_places` and `add_coordinates` is
  left open: any order of the keys. The proofs hold for every order.
- `get_all_places_for_area` raises unconditionally, so there is nothing to
  model.
- The busy-circle handling that the tests refer to (`handle_busy_circle`,
  `MAX_RESULTS_PER_QUERY`) does not exist in wrapper.py and is not part of
  this model.
- The module-level Redis client configuration is not modelled.

## Findings

| source | as written | input that shows it | evidently intended | confidence | as-written member | corrected member |
|---|---|---|---|---|---|---|
| get_places/google_places_wrapper/parallelise.py:94 | `split_to_batches(batch, len(batch) // 30)` raises inside the worker for a batch under 30 circles. The worker dies and those circles are never queried. That covers the remainder batch and, with fewer than 30 circles per processor, every batch. | 61 circles on 2 processors: the 61st circle is not queried. 100 circles on 4 processors (test_simple): none are queried. | Every circle is queried (test_simple, test_parallelise.py:48-63) | not executed | GooglePlaces.QueryGooglePlaces, GooglePlaces.RemainderCircleDropped, GooglePlaces.SmallInputDropped | GooglePlaces.QueryGooglePlacesCorrected |
| load_data/datastore_adapter/redis.py:50-57 | `load_to_datastore` discards the False that `load_to_temporary` returns, and runs promotion anyway. Promotion deletes the canonical keys and its renames fail; that False is discarded too. The call returns True. | A staging transaction that does not reach the server, on a data set with the area loaded: afterwards the area has no boundaries, places or coordinates, and the result is True. | Promote only after staging succeeded, and report the failure | not executed | Datastore.LoadToDatastore, Datastore.UnreachedStagingErasesArea | Datastore.LoadToDatastoreCorrected |
| load_data/datastore_adapter/redis.py:139-167 | Staging adds to whatever the staging keys already hold. A place left there by an earlier load whose promotion did not run is published next to the new places. | A staging places hash holding an id that is not among the new places: after the load, the canonical hash still holds that id. | Staging starts from empty staging keys | not executed | Datastore.StaleFieldPromoted | Datastore.LoadToTemporaryCorrected |
