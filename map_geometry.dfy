/**
  The unit arithmetic around the map: the METAR query's bounding box, built by
  converting nautical miles to degrees at 60 nm per degree, and the radius circle,
  converted to metres at 1852 m per nautical mile. Coordinates are exact reals.
 */
module MapGeometry {

  const KvysLat: real := 41.3514
  const KvysLon: real := -89.1531
  /** The default `radius_nm` of the METAR query. */
  const QueryRadiusNm: real := 50.0
  /** `map_radius_nm`, the radius of the circle drawn around the airport. */
  const MapRadiusNm: int := 50
  const MetresPerNm: int := 1852

  /** `nm_to_deg`: one degree is sixty nautical miles. */
  function NmToDeg(nm: real): (deg: real)
    ensures deg * 60.0 == nm
    ensures nm >= 0.0 ==> 0.0 <= deg <= nm
  {
    nm / 60.0
  }

  /** The `bbox` query parameter, in its order: west, south, east, north. */
  datatype Bbox = Bbox(minLon: real, minLat: real, maxLon: real, maxLat: real)

  predicate Contains(box: Bbox, lat: real, lon: real) {
    box.minLat <= lat <= box.maxLat && box.minLon <= lon <= box.maxLon
  }

  /** The box centred on the airport, `radius_nm` converted to degrees on each side. */
  function QueryBbox(lat: real, lon: real, radiusNm: real): (box: Bbox)
    ensures (box.minLat + box.maxLat) / 2.0 == lat && (box.minLon + box.maxLon) / 2.0 == lon
    ensures (box.maxLat - box.minLat) * 30.0 == radiusNm
    ensures (box.maxLon - box.minLon) * 30.0 == radiusNm
  {
    var d := NmToDeg(radiusNm);
    Bbox(lon - d, lat - d, lon + d, lat + d)
  }

  /** A point lies in the query box exactly when it is within `radius_nm`
      of the centre in each coordinate, counting 60 nm per degree. */
  lemma QueryBboxContainsIff(lat: real, lon: real, radiusNm: real, pLat: real, pLon: real)
    ensures Contains(QueryBbox(lat, lon, radiusNm), pLat, pLon) <==>
      -radiusNm <= (pLat - lat) * 60.0 <= radiusNm && -radiusNm <= (pLon - lon) * 60.0 <= radiusNm
  {
  }

  /** The radius of the map's circle in metres. */
  function CircleRadiusMetres(radiusNm: int): (metres: int)
    ensures metres % MetresPerNm == 0 && metres / MetresPerNm == radiusNm
  {
    radiusNm * MetresPerNm
  }

  /** The METAR query is made with the default radius around the airport, which lies in its own box. */
  lemma KvysQueryBbox()
    ensures Contains(QueryBbox(KvysLat, KvysLon, QueryRadiusNm), KvysLat, KvysLon)
    ensures (QueryBbox(KvysLat, KvysLon, QueryRadiusNm).maxLat - KvysLat) * 60.0 == 50.0
  {
  }

  /** The circle drawn around the airport has a radius of 92600 m. */
  lemma MapCircleRadius()
    ensures CircleRadiusMetres(MapRadiusNm) == 92600
  {
  }
}
