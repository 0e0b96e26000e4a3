# Least-cloudy Sentinel-2 scene: a Dafny model

The Wildfire project picks one Sentinel-2 L2A scene for an area of interest
and a date range: the catalogue returns the scenes under a cloud-cover bound,
and the least cloudy one is chosen. Two entry points do this:

- `fetch_least_cloudy` (`MLOps/Wildfire/src/data_pipeline/fetch_sentinel.py`)
  downloads the chosen scene's true-colour GeoTIFF to `out_dir/<id>_visual.tif`.
  It skips the download when that file already exists. Otherwise it writes a
  temporary file and renames it into place.
- The `download_scene` HTTP function (`MLOps/Wildfire/SatelliteDownloader/function_app.py`)
  signs the chosen scene's asset URL and builds a five-field manifest. It
  uploads the manifest to blob storage under
  `raw/satellite/<region>/<id>_<YYYYMMDD_HHMMSS>_manifest.json`. Each stage
  answers with its own status code when it fails.

The model has five modules:

- `Outcomes` (`outcomes.dfy`): Option, Result and `Outcome`. An `Outcome` is
  what a foreign call did: it returned a value, or it raised with a message.
- `Scenes` (`scenes.dfy`): the scene record, and the selection rule written as
  the left fold Python's `min` performs. The running best is replaced only by a
  strictly less cloudy scene, so on ties the first scene in catalogue order
  wins. `IsFirstLeastCloudy` defines the same rule independently, and the fold
  is proved to return the only index that meets it.
- `Stamps` (`stamps.dfy`): `strftime("%Y%m%d_%H%M%S")` on a date and time,
  and a parser that is proved to be its exact inverse.
- `FetchSentinel` (`fetch_sentinel.dfy`): `fetch_least_cloudy` once the search
  has returned its items. The filesystem is a `map<Path, Bytes>`. Creating the
  temporary file, the raster read, the raster write and the rename are inputs
  that either succeed or raise. Every create, download, write and rename is recorded as an `Event`.
  This is enough to state the cache-hit, idempotence and rename-only
  properties.
- `DownloadScene` (`download_scene.dfy`): the HTTP function as a pure
  function. Its inputs are the storage setting, the parsed body and the
  outcomes of the foreign services (`Services`: storage client construction,
  catalogue search, signing, upload). It returns the reply and the ordered
  list of the search, signing and upload calls that were made; building the
  storage client is not recorded as a call.

Behaviour of the code that the model keeps:

- The local file name is `<id>_visual.tif` inside `out_dir`.
- The temporary file is created in the system temporary directory, so the
  rename can fail (for instance across filesystems). The rename is an input
  outcome, and no atomicity is claimed.
- A failed run leaves the temporary file behind. It is never removed.
- Only a body that is not JSON gets 400. Malformed search parameters reach the
  catalogue, and its exception is answered 500 (`STAC search error: ...`).
- A scene without a visual asset or a capture time fails the manifest stage
  with Python's own KeyError or AttributeError text, answered 500.
- Of the request, the manifest holds only the area of interest.
- A JSON body that is not an object makes `.get` raise AttributeError. The
  `except ValueError` clause does not catch it, so it escapes the handler
  (`Uncaught`).

## Model

| member | source | states |
|---|---|---|
| `Scenes.BestIndex` | MLOps/Wildfire/SatelliteDownloader/function_app.py:74 | The fold `min` performs over the first n items returns an index whose scene is no cloudier than any of them and strictly less cloudy than every earlier one (first occurrence wins ties). |
| `Scenes.FirstLeastCloudyIsUnique` | MLOps/Wildfire/src/data_pipeline/fetch_sentinel.py:35 | The tie-break makes the choice deterministic: at most one index is least cloudy with every earlier item strictly cloudier. |
| `Scenes.SelectBest` | MLOps/Wildfire/src/data_pipeline/fetch_sentinel.py:33-35 | Nothing is selected exactly when the item list is empty. Otherwise the result is the item at the first-least-cloudy index, so it is always one of the returned items. |
| `Scenes.FoldFindsFirstLeastCloudy` | MLOps/Wildfire/src/data_pipeline/fetch_sentinel.py:35 | On a non-empty list, the fold returns an index exactly when that index is the first least-cloudy one. |
| `Scenes.SelectBestIsFirstLeastCloudy` | MLOps/Wildfire/src/data_pipeline/fetch_sentinel.py:35 | Every non-empty item list has a first-least-cloudy index, and the selection returns the item there. |
| `Scenes.TieGoesToFirstInCatalogueOrder` | MLOps/Wildfire/src/data_pipeline/fetch_sentinel.py:35 | For scenes A 45%, B 12%, C 12% in that order, B is chosen. |
| `Stamps.Format` | MLOps/Wildfire/SatelliteDownloader/function_app.py:108 | The publish timestamp always has the shape YYYYMMDD_HHMMSS: 15 characters, `_` at index 8, digits elsewhere. |
| `Stamps.ParseFormat` | MLOps/Wildfire/SatelliteDownloader/function_app.py:108 | Parsing a formatted timestamp gives back the exact date and time, so the stamp loses no field. |
| `Stamps.FormatParse` | MLOps/Wildfire/SatelliteDownloader/function_app.py:108 | Every well-formed stamp of a valid date and time is the formatting of what it parses to, so formatting and parsing are inverse bijections. |
| `FetchSentinel.Rename` | MLOps/Wildfire/src/data_pipeline/fetch_sentinel.py:47 | After the rename the target holds the source file's bytes and the source is gone. No other path changes. |
| `FetchSentinel.Materialise` | MLOps/Wildfire/src/data_pipeline/fetch_sentinel.py:40-47 | A cache miss succeeds exactly when creating the temp file, the read, the write and the rename all succeed. On success the only change to the filesystem is the GeoTIFF of the downloaded raster at the final path. On failure the only change is the orphaned temp file. If the temp file cannot be created, nothing changes and nothing is downloaded; otherwise there is exactly one download attempt. When the temp path differs from the final path, only the last event, the rename, touches the final path. |
| `FetchSentinel.FetchLeastCloudy` | MLOps/Wildfire/src/data_pipeline/fetch_sentinel.py:14-49 | An empty item list raises "No tiles found" and touches nothing. A returned path is `out_dir/<id>_visual.tif` of the selected scene, exists afterwards, and is the only path changed. A freshly downloaded file is non-empty, and holds the GeoTIFF of the raster read from the selected scene's visual href, which was fetched. A failure changes nothing but the temp file. There is at most one download. |
| `FetchSentinel.LocalPathInjective` | MLOps/Wildfire/src/data_pipeline/fetch_sentinel.py:37 | The local path depends only on the scene id, and two ids give the same path exactly when they are equal. |
| `FetchSentinel.SucceedsExactlyWhenCachedOrDownloaded` | MLOps/Wildfire/src/data_pipeline/fetch_sentinel.py:35-49 | If the least cloudy scene has no visual asset, the call raises KeyError and changes nothing, even when a file for that scene is already cached. Otherwise the call returns exactly when the file is cached or creating the temp file, the read, the write and the rename all succeed. |
| `FetchSentinel.FreshDownloadHoldsChosenScene` | MLOps/Wildfire/src/data_pipeline/fetch_sentinel.py:35-47 | On a cache miss that returns, the least cloudy scene has a visual asset, every download is of that asset's href, and the only change to the filesystem is the GeoTIFF of that raster at the returned path. |
| `FetchSentinel.FreshDownloadIsNonEmpty` | MLOps/Wildfire/tests/test_fetch_sentinel.py:28-29 | When the directory did not hold the file and the call returns, the returned path exists and holds a non-empty file. |
| `FetchSentinel.CacheHitTouchesNothing` | MLOps/Wildfire/src/data_pipeline/fetch_sentinel.py:39-49 | If the chosen scene has a visual asset and its file exists, the path is returned with no download, no event and the filesystem unchanged. |
| `FetchSentinel.SecondCallIsCacheHit` | MLOps/Wildfire/src/data_pipeline/fetch_sentinel.py:39-49 | After a successful call, a second call with the same items and directory returns the same path and leaves the files unchanged. It makes no calls, so the two calls together download at most once. |
| `FetchSentinel.FinalPathOnlyWrittenByRename` | MLOps/Wildfire/src/data_pipeline/fetch_sentinel.py:40-47 | On a cache miss with a distinct temp path, only the final rename touches the final path. A run that raises leaves the final path absent. |
| `DownloadScene.ReadParams` | MLOps/Wildfire/SatelliteDownloader/function_app.py:32-35 | An absent `max_cloud_cover` reads as 10 and an absent `region` as "manifests". An absent area of interest or date reads as None. Present members are taken unchanged. |
| `DownloadScene.BuildManifest` | MLOps/Wildfire/SatelliteDownloader/function_app.py:90-97 | The manifest is built exactly when the signed copy has a visual asset and the scene has a capture time. It then holds the scene's id, time and cloud cover, the signed visual href and the request's area of interest, unchanged. |
| `DownloadScene.ManifestDocument` | MLOps/Wildfire/SatelliteDownloader/function_app.py:91-97 | The uploaded document has exactly the keys scene_id, date, cloud_cover, image_url and area_of_interest. Each holds the matching manifest field: id, ISO time and image URL as strings, cloud cover as a number, and the area of interest verbatim. |
| `DownloadScene.ManifestDocumentRoundTrip` | MLOps/Wildfire/SatelliteDownloader/function_app.py:91-97 | Reading the document back gives the manifest it was built from, so it loses no field. |
| `DownloadScene.BlobName` | MLOps/Wildfire/SatelliteDownloader/function_app.py:109 | The blob name starts with `raw/satellite/` and ends with `_manifest.json`. Its length is that of its parts and separators. |
| `DownloadScene.BlobNameInjective` | MLOps/Wildfire/SatelliteDownloader/function_app.py:109 | When regions hold no `/` and stamps have equal length, equal blob names mean equal region, scene id and stamp. |
| `DownloadScene.BlobNameCarriesStamp` | MLOps/Wildfire/SatelliteDownloader/function_app.py:108-109 | The blob name of a run ends with `_` + a YYYYMMDD_HHMMSS stamp + `_manifest.json`, and that stamp parses back to the upload time. |
| `DownloadScene.Handle` | MLOps/Wildfire/SatelliteDownloader/function_app.py:12-131 | A missing or empty storage setting gives 500 with no call made. 400 comes exactly from a body that is not JSON, once configured. Calls happen in stage order and stop at the first failure. 404 means the one search returned nothing. 200 means all three calls happened, the upload succeeded, and the body names the uploaded blob with status "success". |
| `DownloadScene.AcceptedRequestIsSearched` | MLOps/Wildfire/SatelliteDownloader/function_app.py:45-54 | A configured request with an object body is always searched first, on sentinel-2-l2a with the request's geometry and date. The cloud bound is 10 when absent. |
| `DownloadScene.InvalidJsonIsRejectedBeforeSearch` | MLOps/Wildfire/SatelliteDownloader/function_app.py:29-42 | A body that is not JSON is answered 400 "Invalid JSON in request body." with no call made. |
| `DownloadScene.EmptySearchIsNotFound` | MLOps/Wildfire/SatelliteDownloader/function_app.py:63-65 | An empty search result is answered 404, and the search is the only call made: nothing is signed or uploaded. |
| `DownloadScene.SearchFailureStopsTheRun` | MLOps/Wildfire/SatelliteDownloader/function_app.py:67-69 | A raising search is answered 500 "STAC search error: <message>", and no later stage runs. |
| `DownloadScene.SigningFailureStopsTheRun` | MLOps/Wildfire/SatelliteDownloader/function_app.py:72-85 | A raising signer is answered 500 "Item processing error: <message>" after one attempt to sign the least cloudy scene. No manifest is built and nothing is uploaded. |
| `DownloadScene.ManifestFailureStopsTheRun` | MLOps/Wildfire/SatelliteDownloader/function_app.py:88-103 | A manifest that cannot be built is answered 500 "Manifest error: <message>", and nothing is uploaded. |
| `DownloadScene.UploadIsTheLastStage` | MLOps/Wildfire/SatelliteDownloader/function_app.py:106-131 | Once signing and the manifest succeed, the calls are, in order: the search, signing of the least cloudy scene, and upload of that scene's manifest to `wildfire-data` under its computed key. The reply is 200 naming that key when the upload succeeds, and 500 "Upload error: <message>" when it raises. |
| `DownloadScene.OkExactlyWhenEveryStageSucceeds` | MLOps/Wildfire/SatelliteDownloader/function_app.py:19-131 | The reply is 200 exactly when every stage succeeds: storage is configured, the body is an object, the search finds scenes, signing the least cloudy one, building its manifest and uploading it all succeed. |

## Left out

- The catalogue search itself (`Client.open`, `catalog.search`, `item_collection`, `get_items`). The returned items are an input. The catalogue's own `eo:cloud_cover < max` filter is neither assumed nor proved. In `fetch_least_cloudy` the area of interest, date range and cloud bound only reach that search, so they do not appear in the model.
- Items without an `eo:cloud_cover` property. The search filters on that property, so every returned item carries it. The model's cloud cover is a `real` that is always present.
- The `sign_inplace` modifier and `planetary_computer.sign`. The signed href is whatever the item or the signer's result holds.
- `out_dir.mkdir`: directories are implicit in the path-to-bytes map.
- The default `out_dir` of `MLOps/Wildfire/data/raw`: the model takes the directory as a parameter. The default is a relative path, so it is resolved against the process's working directory, which is outside the model.
- The raster profile and the GeoTIFF encoding. The written file is a TIFF header followed by the pixel bytes, which keeps only what matters here: it is determined by the raster and is never empty.
- Atomicity and concurrency. The rename is an abstract move whose failure (for instance across filesystems) is an input. Races between the exists check and the rename, and concurrent writers, are not modelled.
- Scene ids containing `/`: `pathlib` would split them into subdirectories, while the model keeps the file name as one path component.
- Logging, the `time.time()` measurements and the `execution_time` member of the success body. They are wall-clock readings and do not affect the outcome.
- `datetime.now()`: the upload time is a parameter. `%Y` is written as four zero-padded digits. Some C libraries print years below 1000 unpadded, which a current clock never shows.
- A `region` that is present but not a JSON string. Python renders it into the blob name with `str()`, while the model takes the region as a string.
- `json.dumps` of the manifest: the upload receives the manifest as a JSON value, not its serialised text.
- What the Functions host sends back for an exception that escapes the handler (`Uncaught`): a malformed connection string, or a JSON body that is not an object.
- `get_blob_client` is folded into the upload outcome, since both are in the same `try` block.
- What the blob store does with an upload, including `overwrite=True` replacing an earlier blob under the same key. The model records the upload call and its outcome only.
