/** The `Coordinates` helper (identical in stac_generator/core/utils.py and
    asset_scanner/core/utils.py): one bounding box, read from and written to
    the WGS84 order `[minLon, minLat, maxLon, maxLat]` (the `bbox` order of
    section 5 of RFC 7946, west, south, east, north) and the two-corner GeoJSON
    envelope order `[[minLon, maxLat], [maxLon, minLat]]`. */
module Coordinates {
  import opened Wrappers
  import opened Values

  datatype Box<T> = Box(minLon: T, maxLon: T, minLat: T, maxLat: T)

  /** `Coordinates.from_wgs84`: positions 0..3 are minLon, minLat, maxLon,
      maxLat; a shorter list raises IndexError and extra entries are ignored. */
  function FromWgs84<T>(c: seq<T>): (r: Outcome<Box<T>>)
    ensures r.Ok? <==> |c| >= 4
  {
    if |c| < 4 then Err(IndexError) else Ok(Box(c[0], c[2], c[1], c[3]))
  }

  /** `Coordinates.to_wgs84`. */
  function ToWgs84<T>(b: Box<T>): (r: seq<T>)
    ensures |r| == 4
  {
    [b.minLon, b.minLat, b.maxLon, b.maxLat]
  }

  /** `Coordinates.from_geojson`: the first corner gives minLon and maxLat, the
      second maxLon and minLat; a missing corner or ordinate raises IndexError. */
  function FromGeojson<T>(c: seq<seq<T>>): (r: Outcome<Box<T>>)
    ensures r.Ok? <==> |c| >= 2 && |c[0]| >= 2 && |c[1]| >= 2
  {
    if |c| < 2 || |c[0]| < 2 || |c[1]| < 2 then Err(IndexError)
    else Ok(Box(c[0][0], c[1][0], c[1][1], c[0][1]))
  }

  /** `Coordinates.to_geojson`. */
  function ToGeojson<T>(b: Box<T>): (r: seq<seq<T>>)
    ensures |r| == 2 && |r[0]| == 2 && |r[1]| == 2
  {
    [[b.minLon, b.maxLat], [b.maxLon, b.minLat]]
  }

  /** Reading a four-element WGS84 list and writing it back is the identity,
      and so is writing a box and reading it back. */
  lemma Wgs84RoundTrip<T>(c: seq<T>, b: Box<T>)
    ensures |c| == 4 ==> FromWgs84(c).Ok? && ToWgs84(FromWgs84(c).value) == c
    ensures FromWgs84(ToWgs84(b)) == Ok(b)
  {
  }

  /** The same two round trips for the GeoJSON envelope. */
  lemma GeojsonRoundTrip<T>(c: seq<seq<T>>, b: Box<T>)
    ensures |c| == 2 && |c[0]| == 2 && |c[1]| == 2 ==> FromGeojson(c).Ok? && ToGeojson(FromGeojson(c).value) == c
    ensures FromGeojson(ToGeojson(b)) == Ok(b)
  {
    if |c| == 2 && |c[0]| == 2 && |c[1]| == 2 {
      assert c[0] == [c[0][0], c[0][1]];
      assert c[1] == [c[1][0], c[1][1]];
      assert c == [c[0], c[1]];
    }
  }

  /** Converting WGS84 to GeoJSON only rearranges the four numbers. */
  lemma Wgs84ToGeojson<T>(c: seq<T>)
    requires |c| >= 4
    ensures ToGeojson(FromWgs84(c).value) == [[c[0], c[3]], [c[2], c[1]]]
  {
  }
}
