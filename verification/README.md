# satpy-pygeoapi-plugin: a Dafny model of the naming and job-manager logic

The plugin lets a pygeoapi server run a job in a Celery worker. The job takes a
polar-swath NetCDF file, makes GeoTIFF products from it with satpy, registers
them as MapServer layers and renders a WMS response. Once satpy, rasterio,
mapscript, Celery and Redis count as given, two pieces of the plugin's own
logic are left. This project models both and proves what they promise.

* **Swath naming** (`ProcessNetcdf`, with `Timestamps`). This covers:
  - the fixed regular expression that splits a file path into directory,
    platform, instrument, start and end time;
  - the glob pattern for the other instruments of the same pass;
  - the default product list;
  - the GeoTIFF and map-file names;
  - the rule that only products whose GeoTIFF is missing are generated;
  - the time metadata of each map layer;
  - the error exits of `execute`.
* **Job manager** (`CeleryRedisManager`, with `Base64`). This covers:
  - the Celery-state to job-status table;
  - the job list built from the result store's keys;
  - the single-job record;
  - the decisions of `get_job_result`;
  - the constant replies of `execute_process` and `delete_job`;
  - the `results` dictionary of dispatched tasks.

  `Base64` is the encoding of section 4 of RFC 4648. `get_job_result`
  base64-decodes the second item of a task's list result; the round-trip
  lemmas assume that item is the standard encoding of the payload, since no
  writer of such text is modelled. The module's decoder is strict (canonical
  text only), stricter than `b64decode`, and the module proves it is exactly
  the inverse of its encoder.

Whatever the model cannot see becomes a parameter:
* the store's key list, whether a task is ready, its state, its name and its result;
* `base64.b64decode`, as a partial function;
* `glob`, as a function;
* `os.path.exists`, as the set of files on disk.

Files: `wrappers.dfy` (Option, Result), `timestamps.dfy`, `process_netcdf.dfy`,
`base64.dfy`, `celery_redis_manager.dfy`.

Where the code's own docstrings promise more than the code does, the model
follows the code:
* the `get_jobs` docstring (`celery_redis_manager.py:90`) says the jobs are
  "optionally filtered by status", but the filter is never used and every
  job is reported as successful;
* the `delete_job` docstring (`celery_redis_manager.py:82`) says it returns
  the status result, but it always returns `True`, whatever `revoke` does.

## Model

| member | source | states |
|---|---|---|
| `ProcessNetcdf.ParseFilename` | satpy_pygeoapi_plugin/process_netcdf.py:201-211 | A parse gives five groups. Platform and instrument come from the closed lists, both times are 14 digits, and the directory ends in `satellite-thredds/polar-swath/YYYY/MM/DD/` with no line break. The path is exactly the groups joined by `-` plus `.nc`, possibly followed by the one line break `$` tolerates. |
| `ProcessNetcdf.ParseLine` | satpy_pygeoapi_plugin/process_netcdf.py:203-205 | A match on a line without a final line break is a valid name whose rendering is that line. |
| `ProcessNetcdf.ParseRender` | satpy_pygeoapi_plugin/process_netcdf.py:203-210 | Every valid five-group name is parsed back to itself from its path, with or without a trailing line break. |
| `ProcessNetcdf.ParseFilenameMatches` | satpy_pygeoapi_plugin/process_netcdf.py:201-211 | `_parse_filename` returns groups exactly when the path is in the pattern's language, and `None` otherwise. |
| `ProcessNetcdf.RenderInjective` | satpy_pygeoapi_plugin/process_netcdf.py:203 | Two valid names with the same path are equal, so the split into groups is unique. |
| `ProcessNetcdf.SplitRender` | satpy_pygeoapi_plugin/process_netcdf.py:203 | The fixed-length tail, the last `/` and the first `-` recover the groups of any name with a non-empty directory ending in `/`, a platform without `/` or `-`, an instrument without `/`, and 14-digit start and end stamps. |
| `ProcessNetcdf.SimilarPatternReplacesInstrument` | satpy_pygeoapi_plugin/process_netcdf.py:213-215 | The glob pattern is the parsed path with its instrument segment replaced by `*`. |
| `ProcessNetcdf.SimilarPatternSiblings` | satpy_pygeoapi_plugin/process_netcdf.py:213-215 | Filling the `*` with a valid name's instrument gives that name's path exactly when it is the same pass: same directory, platform, start and end. |
| `ProcessNetcdf.GetSatpyProducts` | satpy_pygeoapi_plugin/process_netcdf.py:217-238 | Both arguments are ignored. The product list is always `['overview']`. |
| `ProcessNetcdf.PlanProducts` | satpy_pygeoapi_plugin/process_netcdf.py:153-156 | One entry per product, in order. Each entry pairs the product with `product-<start %Y%m%d%H%M%S>.tif`. |
| `ProcessNetcdf.FilenamesUseStartStamp` | satpy_pygeoapi_plugin/process_netcdf.py:155-169 | For a valid start stamp, the reformatted start in the GeoTIFF and map-file names is the stamp itself: `product-<stamp>.tif` and `satpy-products-<stamp>.map`. |
| `ProcessNetcdf.SelectMissing` | satpy_pygeoapi_plugin/process_netcdf.py:242-245 | The first loop of `_generate_satpy_geotiff` selects, in plan order, the products whose output file does not exist. |
| `ProcessNetcdf.MissingProductsMembers` | satpy_pygeoapi_plugin/process_netcdf.py:243-245 | A product is selected if and only if some plan entry names it with a file that is not on disk. |
| `ProcessNetcdf.MissingProductsAppend` | satpy_pygeoapi_plugin/process_netcdf.py:242-245 | Selection keeps order: selecting from a concatenated plan is selecting from each part in turn. |
| `ProcessNetcdf.MissingProductsEmpty` | satpy_pygeoapi_plugin/process_netcdf.py:246-248 | Nothing is selected if and only if every planned file already exists. |
| `ProcessNetcdf.SaveSelected` | satpy_pygeoapi_plugin/process_netcdf.py:269-271 | The save loop saves, in plan order, the entries whose product was selected. |
| `ProcessNetcdf.SavedEntriesMembers` | satpy_pygeoapi_plugin/process_netcdf.py:269-271 | An entry is saved if and only if it is in the plan and its product is selected. |
| `ProcessNetcdf.GenerateGeotiff` | satpy_pygeoapi_plugin/process_netcdf.py:240-271 | It returns without generating if and only if every planned file exists. Otherwise it builds the scene from the given swath files, loads exactly the missing products and saves exactly the entries of those products. |
| `ProcessNetcdf.GenerationCoversPlan` | satpy_pygeoapi_plugin/process_netcdf.py:242-271 | After generation, every planned GeoTIFF was either already on disk or was saved. |
| `ProcessNetcdf.SavedAreMissing` | satpy_pygeoapi_plugin/process_netcdf.py:242-271 | When the plan names each product once, only entries whose file was missing are saved. |
| `ProcessNetcdf.TimeExtentOfStamp` | satpy_pygeoapi_plugin/process_netcdf.py:301-302 | `wms_default` is the start stamp's digits in the form `YYYY-MM-DDTHH:MM:SSZ`. `wms_timeextent` is that value, `/`, and the same value again: a zero-length interval. |
| `ProcessNetcdf.GenerateLayer` | satpy_pygeoapi_plugin/process_netcdf.py:285-302 | The layer is switched on, typed raster and pointed at the GeoTIFF. It is named after the product, and its title, time extent and default time are set. The rest of its metadata is unchanged. |
| `ProcessNetcdf.Execute` | satpy_pygeoapi_plugin/process_netcdf.py:128-169 | With no `name` it fails first. With no path, an unparsable path or an invalid start time it fails in that order. Otherwise it plans `overview-<start>.tif` and `satpy-products-<start>.map` from the parsed stamp, builds the similar-files pattern, generates only missing files from the globbed paths and saves exactly the entries of the missing products, and builds one layer per plan entry with the start time's metadata. |
| `Timestamps.Strptime` | satpy_pygeoapi_plugin/process_netcdf.py:146 | Parsing inverts `%Y%m%d%H%M%S` formatting: a result is a valid date-time that formats back to exactly the given 14 digits, and there is no result only when no valid date-time formats to them. |
| `Timestamps.FieldsFormatCompact` | satpy_pygeoapi_plugin/process_netcdf.py:146-155 | Writing back, with `%Y%m%d%H%M%S`, the six fields read from any 14 digits gives those digits. |
| `Timestamps.FormatCompactFields` | satpy_pygeoapi_plugin/process_netcdf.py:146-155 | A date-time whose fields fit their widths is written as 14 digits whose fields read back as that date-time. |
| `Timestamps.FormatCompactStrptime` | satpy_pygeoapi_plugin/process_netcdf.py:146-155 | Formatting a parsed stamp with `%Y%m%d%H%M%S` gives back the stamp. |
| `Timestamps.StrptimeFormatCompact` | satpy_pygeoapi_plugin/process_netcdf.py:146-155 | Every valid date-time formats to 14 digits that parse back to itself. |
| `Timestamps.FormatIsoStrptime` | satpy_pygeoapi_plugin/process_netcdf.py:301-302 | The ISO form of a parsed stamp is the stamp's digits with `-`, `T`, `:` and `Z` inserted. |
| `Timestamps.PadDigitsValue` | satpy_pygeoapi_plugin/process_netcdf.py:146 | Reading a digit string and writing it back at the same width gives the string. |
| `Timestamps.DigitsValuePad` | satpy_pygeoapi_plugin/process_netcdf.py:155 | Writing a number at a width that holds it and reading it back gives the number. |
| `Base64.DecodeEncode` | satpy_pygeoapi_plugin/celery_redis_manager.py:166 | Decoding the standard encoding of any bytes gives those bytes. |
| `Base64.EncodeDecode` | satpy_pygeoapi_plugin/celery_redis_manager.py:166 | The strict decoder accepts only canonical text: whatever decodes is exactly the encoding of its bytes. |
| `CeleryRedisManager.StatusOf` | satpy_pygeoapi_plugin/celery_redis_manager.py:43-45 | SUCCESS maps to successful, STARTED to running and PENDING to dismissed, each if and only if. Every other state maps to `None`, and accepted or failed is never produced. |
| `CeleryRedisManager.StatusOfInjective` | satpy_pygeoapi_plugin/celery_redis_manager.py:43-45 | Two mapped states with the same job status are the same state. |
| `CeleryRedisManager.UntilNewline` | satpy_pygeoapi_plugin/celery_redis_manager.py:109 | `(.*)` captures the longest start of the text without a line break. |
| `CeleryRedisManager.JobIdOfTaskMetaKey` | satpy_pygeoapi_plugin/celery_redis_manager.py:109-111 | Stripping `celery-task-meta-` from a task's key gives back its identifier when the identifier has no line break. |
| `CeleryRedisManager.Manager.GetJobs` | satpy_pygeoapi_plugin/celery_redis_manager.py:98-118 | One entry per `celery-task-meta-` key, in key order, with the prefix stripped. The status filter is ignored. |
| `CeleryRedisManager.JobsFromKeysAllSuccessful` | satpy_pygeoapi_plugin/celery_redis_manager.py:112-114 | Every listed job has status successful and an empty process id. |
| `CeleryRedisManager.JobsFromKeysAppend` | satpy_pygeoapi_plugin/celery_redis_manager.py:107-114 | Listing keeps the store's order and skips keys of other kinds. |
| `CeleryRedisManager.JobsOfTaskMetaKeys` | satpy_pygeoapi_plugin/celery_redis_manager.py:106-114 | Listing a store that holds the meta keys of some tasks gives back exactly those identifiers, in order. |
| `CeleryRedisManager.Manager.GetJob` | satpy_pygeoapi_plugin/celery_redis_manager.py:120-142 | The identifier is the queried id and the process id is the task name. Both times are empty, because `date_done` is never put in the record. The status is the mapped state or `None`. Location is `Dummy`, mimetype `None`, message empty and progress `Not Set`. |
| `CeleryRedisManager.Manager.GetJobResult` | satpy_pygeoapi_plugin/celery_redis_manager.py:145-174 | With no store key ending in the id it raises IndexError. It gives `(None,)` when the task is not ready. A ready list gives (first item, decoded second item) exactly when the list has at least two items and decoding succeeds, and `(None,)` otherwise. A ready result that is not a list leaves the mimetype unbound. |
| `CeleryRedisManager.ResultRoundTrip` | satpy_pygeoapi_plugin/celery_redis_manager.py:160-174 | A ready result `[mimetype, base64(payload)]` comes back as (mimetype, payload) for any decoder that inverts the encoding. |
| `CeleryRedisManager.ResultRoundTripStrict` | satpy_pygeoapi_plugin/celery_redis_manager.py:163-174 | With the strict RFC 4648 decoder in place of `b64decode`, a ready list result `[mimetype, standard base64 of payload]` gives back (mimetype, payload). |
| `CeleryRedisManager.Manager.ExecuteProcess` | satpy_pygeoapi_plugin/celery_redis_manager.py:176-224 | It always replies `('application/json', None, accepted)`, whatever `is_async` says. It adds exactly one entry to `results`, keyed by the job id, and changes nothing else there. |
| `CeleryRedisManager.Manager.DeleteJob` | satpy_pygeoapi_plugin/celery_redis_manager.py:76-86 | It always returns `True`, whatever the revoke does. |
| `CeleryRedisManager.Manager.constructor` | satpy_pygeoapi_plugin/celery_redis_manager.py:53-72 | The manager starts asynchronous with no dispatched tasks. Broker and backends default to `redis://`. |

## Left out

- Celery and Redis calls (`inspect`, `AsyncResult`, `revoke`, `apply_async`, `keys`, `get`) are network I/O. What they return is a parameter.
- The `eval` of the stored text in `get_job_result` is left out: its value is never used, and its exceptions are not modelled. So is a key that expires between `keys` and `get`.
- Store keys are text. A key that is not valid UTF-8, which makes `decode` raise, is not modelled.
- A job id or directory holding glob metacharacters (`*`, `?`, `[`) is read literally in the Redis key pattern and in the similar-files pattern. Redis and `glob` would interpret them.
- The `glob` search and `os.path.exists` are file-system I/O. They are a function and a set. The scene is modelled only as the paths it is built from.
- satpy scene loading, `compute_optimal_bb_area`, resampling and saving are foreign library calls with floating-point geodesy. Only which products are loaded and saved is modelled.
- rasterio bounds, the float `wms_extent` and the layer projection are left out: they are floats and file I/O.
- The mapscript map object, `_fill_metadata_to_mapfile`, the fixed WMS 1.3.0 GetMap query, `OWSDispatch` and the stdout capture form a foreign rendering engine. The `(content_type, bytes)` that `execute` returns is not modelled. `Execute` stops at the planned layers and map-file name.
- ProcessNetcdf.ParseFilename: ASCII digits only. Python's `\d` also accepts other Unicode decimal digits.
- Timestamps.FormatCompact: always pads the year to four digits. On Linux some Python versions do not pad years below 1000 with `%Y`, so there `Timestamps.FormatCompactStrptime`, `Timestamps.StrptimeFormatCompact` and `ProcessNetcdf.FilenamesUseStartStamp` hold only from year 1000 on.
- Timestamps.FormatIso: pads the year to four digits for the same reason, so on those Python versions `Timestamps.FormatIsoStrptime` and `ProcessNetcdf.TimeExtentOfStamp` hold only from year 1000 on.
- The writing side of a task's result is not modelled. `execute` returns the rendered bytes as they are and nothing in the plugin base64-encodes them; the `[mimetype, base64 text]` form of `CeleryRedisManager.ResultRoundTrip` is an assumption about what the result store holds.
- Base64.Decode: rejects text that `b64decode` accepts by default (characters outside the alphabet, which it drops, and non-zero unused bits, which it ignores). `CeleryRedisManager.Manager.GetJobResult` takes the decoder as a parameter, so it is not tied to this strictness.
- Request values are text. A `name` given as JSON null counts as absent. A non-text `netcdf_file` is not modelled.
- The try/except block of `execute_process` (lines 208-221) never raises, and what it sets is never returned. Only the constant reply is modelled.
- `get_job_result` list items are text. Non-text items and `b64decode`'s own leniency are inside the decoder parameter.
- `print`, logging, `PROCESS_METADATA`, the unused greeting text in `execute`, `__repr__`, `setup.py` and `scripts/celery.py` are left out.
