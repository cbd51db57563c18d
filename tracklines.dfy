/**
 * The trackline stage: the raw list of trackline WKT texts, the filter
 * that skips geometry collections, and the insert cursor that receives one
 * row per kept entry. WKT parsing (`FromWKT`) is an uninterpreted
 * function `fromWkt` supplied by the caller.
 */
module Tracklines {

  const CollectionTag := "GEOMETRYCOLLECTION"

  /** Python's `s.startswith(prefix)`. */
  predicate StartsWith(s: string, prefix: string) {
    |prefix| <= |s| && s[..|prefix|] == prefix
  }

  /** An entry whose text starts with the geometry-collection tag; such entries are skipped. */
  predicate IsCollection(wkt: string): (b: bool)
    ensures b <==> |CollectionTag| <= |wkt| && wkt == CollectionTag + wkt[|CollectionTag|..]
  {
    StartsWith(wkt, CollectionTag)
  }

  /** The entries that are inserted: every non-collection entry, in input order. */
  function Kept(wkts: seq<string>): (r: seq<string>)
    ensures |r| <= |wkts|
    ensures forall x :: x in r <==> x in wkts && !IsCollection(x)
    decreases |wkts|
  {
    if wkts == [] then []
    else if IsCollection(wkts[0]) then Kept(wkts[1..])
    else [wkts[0]] + Kept(wkts[1..])
  }

  /** The geometries `fromWkt` builds from the given texts, one per text, in order. */
  function DecodeAll<G>(fromWkt: string -> G, wkts: seq<string>): (r: seq<G>)
    ensures |r| == |wkts|
  {
    seq(|wkts|, i requires 0 <= i < |wkts| => fromWkt(wkts[i]))
  }

  /** Filtering distributes over concatenation: it keeps the input order. */
  lemma {:induction false} KeptAppend(a: seq<string>, b: seq<string>)
    ensures Kept(a + b) == Kept(a) + Kept(b)
    decreases |a|
  {
    if a == [] {
      assert a + b == b;
    } else {
      assert (a + b)[1..] == a[1..] + b;
      KeptAppend(a[1..], b);
    }
  }

  /** A single entry is kept exactly when it is not a collection. */
  lemma KeptSingle(wkt: string)
    ensures Kept([wkt]) == if IsCollection(wkt) then [] else [wkt]
  {
  }

  /** A list without collections passes through unchanged. */
  lemma {:induction false} KeptNoCollections(wkts: seq<string>)
    requires forall i | 0 <= i < |wkts| :: !IsCollection(wkts[i])
    ensures Kept(wkts) == wkts
    decreases |wkts|
  {
    if wkts != [] {
      KeptNoCollections(wkts[1..]);
    }
  }

  /** Filtering again removes nothing more. */
  lemma KeptIdempotent(wkts: seq<string>)
    ensures Kept(Kept(wkts)) == Kept(wkts)
  {
  }

  /** Nothing is inserted exactly when every entry is a collection (the empty list included). */
  lemma KeptEmpty(wkts: seq<string>)
    ensures Kept(wkts) == [] <==> forall i | 0 <= i < |wkts| :: IsCollection(wkts[i])
  {
  }

  /** The insert cursor opened on the freshly created, empty polyline shapefile. */
  class InsertCursor<G> {
    var rows: seq<G>

    constructor ()
      ensures rows == []
    {
      rows := [];
    }

    method InsertRow(row: G)
      modifies this
      ensures rows == old(rows) + [row]
    {
      rows := rows + [row];
    }
  }

  /**
   * The insertion loop: walks the raw list in order, skips collections,
   * parses every other entry and inserts it as one row. Returns the texts
   * handed to `fromWkt` and the rows the cursor received.
   */
  method InsertTracklines<G>(wkts: seq<string>, fromWkt: string -> G) returns (parsed: seq<string>, rows: seq<G>)
    ensures parsed == Kept(wkts)
    ensures rows == DecodeAll(fromWkt, Kept(wkts))
  {
    var cursor := new InsertCursor<G>();
    parsed := [];
    var i := 0;
    while i < |wkts|
      invariant 0 <= i <= |wkts|
      invariant parsed == Kept(wkts[..i])
      invariant cursor.rows == DecodeAll(fromWkt, parsed)
    {
      var line := wkts[i];
      assert wkts[..i + 1] == wkts[..i] + [line];
      KeptAppend(wkts[..i], [line]);
      KeptSingle(line);
      if !IsCollection(line) {
        var lineObject := fromWkt(line);
        cursor.InsertRow(lineObject);
        parsed := parsed + [line];
      }
      i := i + 1;
    }
    assert wkts[..i] == wkts;
    rows := cursor.rows;
  }
}
