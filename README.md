# Import Shapefile Admin — verified model of the import script

The repository is a single ArcGIS tool script, `importshapefileadmin_1_1.py`.
It posts a waterbody id and credentials to the admin site's export
endpoint. It then checks the HTTP status. On success it writes the
waterbody's polygon as a shapefile named by the waterbody id. When the
response lists any trip tracklines, it also writes a polyline shapefile
`<id> Tracklines`, which skips entries that are geometry collections.
Each written shapefile is added to the open map.

This project models the script's decision logic in Dafny. WKT parsing
(`arcpy.FromWKT`) appears as an uninterpreted function parameter
`fromWkt: string -> G`. The shapefile driver and the map appear only
through what they receive: dataset names, paths, geometry types, rows
and layer paths.

Modules:

- `Optional`: the `Option` type, used for a dictionary `get` that may find nothing.
- `Decimal`: Python's `str` of an `int`, and an independent parser that proves the text can be read back.
- `Request`: the request body dictionary, filled in place with `Id`, `Username` and `Password`.
- `Status`: the status-code dispatch (401, 404, any other non-200, 200) and the errors reported before halting.
- `Naming`: the polygon and trackline shapefile names and paths, which are derived from the response's `Id`.
- `Tracklines`: the geometry-collection filter, the insert cursor (a class whose `rows` the loop appends to) and the insertion loop.
- `Pipeline`: one whole run, `RunImport`. It returns a record of what the run sent, reported, parsed, wrote and registered. `PipelineScenarios` holds two example runs that use only `RunImport`'s contract.

The emptiness test that decides whether a trackline shapefile is created
(line 127) looks at the raw `TracklinesWkt` list, before the collection
filter at line 134 runs. So a list made only of `GEOMETRYCOLLECTION…`
entries still creates and registers a trackline shapefile, which gets no
rows. `RunImport` states this case explicitly.

## Model

| member | source | states |
|---|---|---|
| `Request.BuildRequestBody` | importshapefileadmin_1_1.py:42-45 | The body dictionary has exactly the keys `Id`, `Username`, `Password`, and the endpoint reads it back as the given id (an integer), username and password |
| `Status.Classify` | importshapefileadmin_1_1.py:52-64 | The dispatch is total and exclusive: Success iff 200, InvalidCredentials iff 401, WaterbodyNotFound iff 404, and a generic failure (keeping the code) for exactly every other code |
| `Status.HaltMessages` | importshapefileadmin_1_1.py:52-63 | The errors reported before halting: ["401", "Invalid Username or Password"] for 401 (lines 53-54), ["404", "Invalid Waterbody ID"] for 404 (lines 57-58), and for any other non-200 code its text, "Error in running the tool." and the host's messages (lines 61-63) |
| `Decimal.NatText` | importshapefileadmin_1_1.py:75 | The decimal text of a natural number is non-empty, made only of digits, and has no leading zero unless the number is 0 |
| `Decimal.IntText` | importshapefileadmin_1_1.py:75 | `str` of an integer is non-empty and made of digits, with at most a leading minus sign |
| `Decimal.NatTextRoundTrip` | importshapefileadmin_1_1.py:75 | Parsing the decimal text of a natural number gives back the number |
| `Decimal.IntTextRoundTrip` | importshapefileadmin_1_1.py:75 | Parsing `str(n)` of any integer, negative ones included, gives back `n` |
| `Decimal.IntTextInjective` | importshapefileadmin_1_1.py:75 | Distinct integers have distinct decimal texts |
| `Naming.IdText` | importshapefileadmin_1_1.py:75 | `str(data.get("Id"))`: a missing id renders as "None" and only then; an integer id renders as digits with at most a leading minus, which parse back to the id |
| `Naming.PolygonPath` | importshapefileadmin_1_1.py:75-76 | The polygon path is the folder, one backslash, the text of the response's `Id` (not the display name), then ".shp" |
| `Naming.TracklineName` | importshapefileadmin_1_1.py:78 | The trackline name starts with the polygon name, and what follows it is exactly " Tracklines" |
| `Naming.TracklinePath` | importshapefileadmin_1_1.py:78-79 | The trackline path is the folder, one backslash, the text of the response's `Id` followed by " Tracklines", then ".shp" |
| `Naming.PolygonNameIsPlain` | importshapefileadmin_1_1.py:75 | The polygon name taken from the response's `Id` is non-empty and contains only digits, ASCII letters and minus signs, so no display-name punctuation can reach a file name (the reason given in the revision note at lines 18-21) |
| `Naming.PolygonNameInjective` | importshapefileadmin_1_1.py:75 | Distinct ids, a missing id ("None") included, give distinct polygon names |
| `Naming.ShapefilePathCancel` | importshapefileadmin_1_1.py:76-79 | Two `folder + "\\" + name + ".shp"` paths in one folder are equal only when their names are |
| `Naming.PolygonPathInjective` | importshapefileadmin_1_1.py:75-76 | Within one folder, distinct ids write to distinct polygon shapefiles |
| `Naming.OutputPathsDistinct` | importshapefileadmin_1_1.py:75-79 | In one folder, no trackline shapefile path equals any polygon shapefile path, for any pair of ids, equal ones included |
| `Naming.OutputPathsShareStem` | importshapefileadmin_1_1.py:75-79 | Both paths start with `folder + "\\" + str(Id)`; the polygon path then ends in ".shp" and the trackline path in " Tracklines.shp"; the trackline name is the polygon name followed by " Tracklines" |
| `Tracklines.Kept` | importshapefileadmin_1_1.py:133-134 | The kept entries are no more than the input, and a text is kept exactly when it occurs in the input and does not start with "GEOMETRYCOLLECTION" |
| `Tracklines.KeptAppend` | importshapefileadmin_1_1.py:133-134 | Filtering a concatenation is the concatenation of the filtered parts, so the input order is kept |
| `Tracklines.IsCollection` | importshapefileadmin_1_1.py:134 | `line.startswith("GEOMETRYCOLLECTION")`: an entry is a collection exactly when it is the tag "GEOMETRYCOLLECTION" followed by some text (case-sensitive) |
| `Tracklines.KeptSingle` | importshapefileadmin_1_1.py:134 | One entry is kept exactly when it does not start with "GEOMETRYCOLLECTION" |
| `Tracklines.KeptNoCollections` | importshapefileadmin_1_1.py:133-134 | A list with no collection entries passes through the filter unchanged |
| `Tracklines.KeptIdempotent` | importshapefileadmin_1_1.py:133-134 | Filtering the filtered list removes nothing more |
| `Tracklines.KeptEmpty` | importshapefileadmin_1_1.py:133-136 | No row is inserted exactly when every entry is a collection, the empty list included |
| `Tracklines.InsertCursor.constructor` | importshapefileadmin_1_1.py:130-132 | A cursor on the newly created polyline shapefile starts with no rows |
| `Tracklines.InsertCursor.InsertRow` | importshapefileadmin_1_1.py:136 | Inserting a row appends it after the rows already inserted |
| `Tracklines.InsertTracklines` | importshapefileadmin_1_1.py:132-136 | The loop parses exactly the non-collection entries, in input order, and the cursor receives one row per parsed entry: `fromWkt` of each in the same order |
| `Pipeline.RunImport` | importshapefileadmin_1_1.py:42-140 | The body is always sent. Any non-200 status halts with nothing parsed, written or registered. Before halting it reports the code as text and then a message: "Invalid Username or Password" for 401, "Invalid Waterbody ID" for 404, or "Error in running the tool." plus the host's messages for any other code. On 200 it reports nothing, writes the polygon shapefile `str(Id)` with one row `fromWkt(WaterbodyWkt)` and that geometry's type, and writes the trackline shapefile iff the raw list is non-empty, with the filtered rows. An all-collection list gives an empty trackline shapefile. Every written path is registered in order |

## Left out

- The HTTP POST, JSON serialisation of the body, the fixed URL and header, and decoding of the response (lines 38-39, 46-49) are network I/O. `RunImport` takes the decoded response as a parameter. The script calls `r.json()` (line 49) before checking the status. A non-JSON error body would therefore stop the script before any of the status branches; this is not modelled.
- Reading the tool parameters (`GetParameterAsText`, lines 34-36 and 73) is host I/O. Username, password, waterbody id and output folder are parameters. The host's `GetMessages()` text is the `hostMessages` parameter.
- WKT parsing (`arcpy.FromWKT`, lines 105 and 135) is a foreign call. It is the total, uninterpreted `fromWkt` parameter. Parse failures, and the spatial reference passed to it, are not modelled.
- `Pipeline.RunImport`: the polygon shapefile takes the type of whatever `fromWkt` returns, as `CopyFeatures_management` does (line 108). The trackline shapefile is created as a polyline (line 130). Whether each inserted row's geometry fits that type is not checked, since a mismatch would surface only as a driver error.
- Shapefile creation, copying, geometry repair and the WGS 84 spatial reference (lines 93, 108-109, 130) are driver side effects. A dataset is only its name, path, geometry type and rows. The repair pass is not modelled.
- The map document, the data frame and layer creation (lines 90-91, 112-113, 139-140) are host UI state. Registration is recorded as the list of layer paths added.
- Overwriting earlier output (`env.overwriteOutput = True`, line 88) is shapefile-driver behaviour and is not modelled. A run's result does not depend on what the folder already holds.
- The `try/except` blocks that log and continue (lines 72-82, 85-96, 102-116, 122-143) are not modelled. Every foreign call is taken to succeed, so the "Error in generating …" messages never appear in the model.
- `Pipeline.RunImport`: the response's `WaterbodyWkt` and `TracklinesWkt` fields are taken to be present. Only a missing `Id` is modelled (it gives the name "None"). Without a `TracklinesWkt` field, `data.get` gives `None`; the test at line 127 then passes, so line 130 creates the trackline shapefile, and `for line in None` at line 133 raises. The handler at lines 141-143 reports "Error in generating Tracklines." and the created shapefile is never registered.
- `Naming.IdText`: only an integer `Id` (or no `Id`) is modelled. A JSON float or string id would be rendered differently by Python's `str`.
