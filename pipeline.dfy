/**
 * One run of the import tool: build the request body, take the endpoint's
 * response, dispatch on its status, and on success write the polygon
 * shapefile and, when the raw trackline list is non-empty, the trackline
 * shapefile, registering each written shapefile as a map layer.
 */
module Pipeline {
  import opened Optional
  import opened Decimal
  import opened Request
  import opened Status
  import opened Naming
  import opened Tracklines

  /** The decoded response: status code and the `Id`, `WaterbodyWkt` and `TracklinesWkt` fields. */
  datatype Response = Response(status: int, id: Option<int>, waterbodyWkt: string, tracklinesWkt: seq<string>)

  /** The geometry type of a shapefile: that of its geometries, or the type it was created with. */
  datatype ShapeType = PointShape | MultipointShape | PolylineShape | PolygonShape

  /** A written shapefile: its name, its path, its geometry type and its rows in insertion order. */
  datatype Dataset<G> = Dataset(name: string, path: string, shape: ShapeType, rows: seq<G>)

  /**
   * What a run did: the body it sent, how the status was classified, the
   * errors it reported, the WKT texts it parsed (in call order), the
   * shapefiles it wrote and the layer paths it added to the map.
   */
  datatype Run<G> = Run(
    sent: map<string, JsonValue>,
    outcome: Outcome,
    errors: seq<string>,
    parsed: seq<string>,
    datasets: seq<Dataset<G>>,
    layers: seq<string>)

  method RunImport<G>(request: ImportRequest, response: Response, folder: string,
                      hostMessages: string, fromWkt: string -> G, shapeOf: G -> ShapeType)
    returns (r: Run<G>)
    ensures ReadRequest(r.sent) == Some(request)
    ensures r.outcome == Classify(response.status)
    // every failure halts before anything is parsed or written
    ensures r.outcome != Success ==> r.parsed == [] && r.datasets == [] && r.layers == []
    ensures r.outcome == InvalidCredentials ==> r.errors == ["401", InvalidCredentialsMessage]
    ensures r.outcome == WaterbodyNotFound ==> r.errors == ["404", WaterbodyNotFoundMessage]
    ensures r.outcome.ServerError? ==> r.errors == [IntText(response.status), ServerErrorMessage, hostMessages]
    // success: one polygon shapefile, and a trackline shapefile iff the raw list is non-empty
    ensures r.outcome == Success ==>
      && r.errors == []
      && r.parsed == [response.waterbodyWkt] + Kept(response.tracklinesWkt)
      && |r.datasets| == (if response.tracklinesWkt == [] then 1 else 2)
      && r.datasets[0] == Dataset(PolygonName(response.id), PolygonPath(folder, response.id),
                                  shapeOf(fromWkt(response.waterbodyWkt)), [fromWkt(response.waterbodyWkt)])
      && r.layers == seq(|r.datasets|, i requires 0 <= i < |r.datasets| => r.datasets[i].path)
    ensures r.outcome == Success && response.tracklinesWkt != [] ==>
      r.datasets[1] == Dataset(TracklineName(response.id), TracklinePath(folder, response.id),
                               PolylineShape, DecodeAll(fromWkt, Kept(response.tracklinesWkt)))
    // a non-empty list made only of collections still yields an empty trackline shapefile
    ensures r.outcome == Success && response.tracklinesWkt != []
            && (forall i | 0 <= i < |response.tracklinesWkt| :: IsCollection(response.tracklinesWkt[i])) ==>
      r.datasets[1].rows == []
  {
    var sent := BuildRequestBody(request);
    var outcome := Classify(response.status);
    if outcome != Success {
      r := Run(sent, outcome, HaltMessages(response.status, hostMessages), [], [], []);
      return;
    }

    var outName := PolygonName(response.id);
    var outPath := PolygonPath(folder, response.id);
    var outNameLine := TracklineName(response.id);
    var outPathLine := TracklinePath(folder, response.id);

    // polygon stage
    var parsed := [response.waterbodyWkt];
    var polygon := fromWkt(response.waterbodyWkt);
    // the copied shapefile takes the type of the parsed geometry
    var datasets := [Dataset(outName, outPath, shapeOf(polygon), [polygon])];
    var layers := [outPath];

    // trackline stage: the emptiness test is on the raw list, before filtering
    if response.tracklinesWkt != [] {
      var lineTexts, rows := InsertTracklines(response.tracklinesWkt, fromWkt);
      parsed := parsed + lineTexts;
      // created as a polyline shapefile whatever the rows are
      datasets := datasets + [Dataset(outNameLine, outPathLine, PolylineShape, rows)];
      layers := layers + [outPathLine];
      KeptEmpty(response.tracklinesWkt);
    } else {
      assert Kept(response.tracklinesWkt) == [];
    }
    r := Run(sent, outcome, [], parsed, datasets, layers);
  }
}

/** Two end-to-end runs, checked against the contract of `RunImport` alone. */
module PipelineScenarios {
  import opened Optional
  import opened Decimal
  import opened Request
  import opened Status
  import opened Naming
  import opened Tracklines
  import opened Pipeline

  const Line := "LINESTRING(0 0,1 1)"
  const Collection := "GEOMETRYCOLLECTION(POINT(0 0))"

  lemma ScenarioFilter()
    ensures Kept([Line, Collection]) == [Line]
  {
    assert Collection[..|CollectionTag|] == CollectionTag;
    assert Line[..|CollectionTag|][0] != CollectionTag[0];
    assert [Line, Collection] == [Line] + [Collection];
    KeptAppend([Line], [Collection]);
    KeptSingle(Line);
    KeptSingle(Collection);
  }

  lemma ScenarioIdText()
    ensures IdText(Some(1234)) == "1234"
  {
    assert NatText(12) == "12";
    assert NatText(123) == "12" + "3";
    assert NatText(1234) == "123" + "4";
  }

  lemma ScenarioNames()
    ensures PolygonPath("C:\\out", Some(1234)) == "C:\\out\\1234.shp"
    ensures TracklineName(Some(1234)) == "1234 Tracklines"
  {
    ScenarioIdText();
  }

  method SuccessWithOneCollection() {
    var response := Response(200, Some(1234), "POLYGON((0 0,0 1,1 1,1 0,0 0))", [Line, Collection]);
    var r := RunImport(ImportRequest(1234, "qc", "secret"), response, "C:\\out", "", (s: string) => |s|, (g: int) => PolygonShape);
    ScenarioFilter();
    ScenarioNames();
    assert |r.datasets| == 2;
    assert r.datasets[0].path == "C:\\out\\1234.shp";
    assert r.datasets[1].name == "1234 Tracklines";
    assert r.datasets[1].rows == [|Line|];
    assert r.parsed == ["POLYGON((0 0,0 1,1 1,1 0,0 0))", Line];
  }

  method NotFoundWritesNothing() {
    var response := Response(404, None, "", ["LINESTRING(0 0,1 1)"]);
    var r := RunImport(ImportRequest(7, "qc", "secret"), response, "C:\\out", "", (s: string) => |s|, (g: int) => PolygonShape);
    assert r.outcome == WaterbodyNotFound;
    assert r.errors == ["404", "Invalid Waterbody ID"];
    assert r.parsed == [] && r.datasets == [] && r.layers == [];
  }
}
