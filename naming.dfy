/**
 * Names and paths of the two output shapefiles. Both are derived from the
 * waterbody id of the response rather than from the waterbody's display
 * name, so that punctuation in display names cannot reach a file name.
 */
module Naming {
  import opened Optional
  import opened Decimal

  const Separator := "\\"
  const Extension := ".shp"
  const TracklineSuffix := " Tracklines"

  /** `str(data.get("Id"))`: the id's decimal text, or "None" when the response has no id. */
  function IdText(id: Option<int>): (s: string)
    ensures |s| >= 1
    ensures s == "None" || forall i | 0 <= i < |s| :: IsDigit(s[i]) || (i == 0 && s[i] == '-')
    ensures id.None? <==> s == "None"
    ensures id.Some? ==> (AllDigits(s) || (s[0] == '-' && AllDigits(s[1..]))) && ParseInt(s) == id.value
  {
    match id
    case None => "None"
    case Some(n) =>
      IntTextRoundTrip(n);
      assert IntText(n)[0] != 'N';
      IntText(n)
  }

  /** A file-name character that is a digit, an ASCII letter or a minus sign. */
  predicate IsPlainChar(c: char) {
    IsDigit(c) || c == '-' || 'a' <= c <= 'z' || 'A' <= c <= 'Z'
  }

  function ShapefilePath(folder: string, name: string): string {
    folder + Separator + name + Extension
  }

  function PolygonName(id: Option<int>): string {
    IdText(id)
  }

  /** The polygon shapefile: in `folder`, after the separator, the id's text, then the extension. */
  function PolygonPath(folder: string, id: Option<int>): (p: string)
    ensures |p| == |folder| + 1 + |PolygonName(id)| + 4
    ensures p[..|folder| + 1] == folder + Separator
    ensures p[|folder| + 1..|p| - 4] == IdText(id)
    ensures p[|p| - 4..] == Extension
  {
    ShapefilePath(folder, PolygonName(id))
  }

  function TracklineName(id: Option<int>): (r: string)
    ensures PolygonName(id) <= r && r[|PolygonName(id)|..] == TracklineSuffix
  {
    PolygonName(id) + TracklineSuffix
  }

  /** The trackline shapefile: in `folder`, after the separator, the id's text and the suffix, then the extension. */
  function TracklinePath(folder: string, id: Option<int>): (p: string)
    ensures |p| == |folder| + 1 + |PolygonName(id)| + |TracklineSuffix| + 4
    ensures p[..|folder| + 1] == folder + Separator
    ensures p[|folder| + 1..|p| - 4] == IdText(id) + TracklineSuffix
    ensures p[|p| - 4..] == Extension
  {
    ShapefilePath(folder, TracklineName(id))
  }

  /** The polygon name is made of plain characters only: no space, dot, separator or other punctuation. */
  lemma PolygonNameIsPlain(id: Option<int>)
    ensures |PolygonName(id)| >= 1
    ensures forall i | 0 <= i < |PolygonName(id)| :: IsPlainChar(PolygonName(id)[i])
  {
  }

  /** Distinct ids (including a missing one) give distinct polygon names. */
  lemma PolygonNameInjective(a: Option<int>, b: Option<int>)
    ensures PolygonName(a) == PolygonName(b) ==> a == b
  {
    if a.Some? && b.Some? {
      IntTextInjective(a.value, b.value);
    } else if a.Some? && b.None? {
      assert PolygonName(b)[0] == 'N';
    } else if a.None? && b.Some? {
      assert PolygonName(a)[0] == 'N';
    }
  }

  /** Two paths in one folder with the same extension are equal only when the names are. */
  lemma ShapefilePathCancel(folder: string, x: string, y: string)
    ensures ShapefilePath(folder, x) == ShapefilePath(folder, y) ==> x == y
  {
    var p := folder + Separator;
    if ShapefilePath(folder, x) == ShapefilePath(folder, y) {
      assert |x| == |y|;
      assert x == ShapefilePath(folder, x)[|p|..|p| + |x|];
      assert y == ShapefilePath(folder, y)[|p|..|p| + |y|];
    }
  }

  /** Within one folder, distinct ids write distinct polygon shapefiles. */
  lemma PolygonPathInjective(folder: string, a: Option<int>, b: Option<int>)
    ensures PolygonPath(folder, a) == PolygonPath(folder, b) ==> a == b
  {
    ShapefilePathCancel(folder, PolygonName(a), PolygonName(b));
    PolygonNameInjective(a, b);
  }

  /**
   * A trackline shapefile never coincides with a polygon shapefile in the
   * same folder, whatever the two ids are: the trackline name contains a
   * space, which no polygon name does.
   */
  lemma OutputPathsDistinct(folder: string, a: Option<int>, b: Option<int>)
    ensures PolygonPath(folder, a) != TracklinePath(folder, b)
  {
    ShapefilePathCancel(folder, PolygonName(a), TracklineName(b));
    PolygonNameIsPlain(a);
    var k := |PolygonName(b)|;
    assert TracklineName(b)[k] == ' ' && !IsPlainChar(TracklineName(b)[k]);
  }

  /**
   * Both output paths lie in the given folder, end in the shapefile
   * extension and begin with the polygon name; the trackline name is the
   * polygon name followed by the suffix.
   */
  lemma OutputPathsShareStem(folder: string, id: Option<int>)
    ensures var stem := folder + Separator + PolygonName(id);
      && stem <= PolygonPath(folder, id)
      && stem <= TracklinePath(folder, id)
      && PolygonPath(folder, id)[|stem|..] == Extension
      && TracklinePath(folder, id)[|stem|..] == TracklineSuffix + Extension
    ensures PolygonName(id) <= TracklineName(id)
    ensures TracklineName(id)[|PolygonName(id)|..] == TracklineSuffix
  {
  }
}
