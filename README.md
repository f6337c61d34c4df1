# KVYS flight dashboard: the go/no-go decision

A Dafny model of the decision engine inside the Streamlit dashboard
`kvys_flight_dashboard.py`, which recommends whether an imagery-collection flight
at 8500 ft from KVYS (Illinois Valley Regional Airport) should go ahead, from the
METAR reports of nearby stations.

- `cloud_base.dfy` (module `CloudBase`): a METAR record as decoded from the
  aviation-weather JSON feed (optional `sky_condition` list of layers, each with an
  optional `sky_cover` and optional `cloud_base_ft_agl`), and `extract_cloud_base`:
  the first BKN or OVC layer in list order gives `100 * cloud_base_ft_agl`, 0 when
  that layer has no base; no such layer, or no `sky_condition` key, gives `None`.
- `flight_decision.dfy` (module `FlightDecision`): the thresholds, the script's
  decision section as a method with a loop over the METARs (`Decide`), the
  specification functions it is proved against (`ValidBases`, `GoStatus`,
  `Reasons`), the fetch-failure path, and the marker colour of the map.
- `map_geometry.dfy` (module `MapGeometry`): the query bounding box (nautical
  miles to degrees at 60 nm per degree) and the radius of the map circle in metres.
- `wrappers.dfy` (module `Wrappers`): `Option`.

The model follows the code as written. A METAR counts when its extracted base is
truthy and at least 8500 + 500 = 9000; the verdict is GO as soon as ONE METAR
counts. There is no distance filter, no conversion from AGL to MSL, and the
ceiling is the first BKN/OVC layer listed, not the lowest. A station without
any BKN/OVC layer never counts. The base read from the feed, whose key says feet,
is multiplied by 100 as if it were in hundreds of feet; the model keeps that factor.

## Model

| member | source | states |
|---|---|---|
| CloudBase.FirstCeilingBase | kvys_flight_dashboard.py:60-64 | the scan returns `None` exactly when no layer is BKN/OVC; any value it returns is a multiple of 100 |
| CloudBase.ExtractCloudBase | kvys_flight_dashboard.py:58-64 | `None` exactly when the record has no `sky_condition` key or no BKN/OVC layer; otherwise a multiple of 100 |
| CloudBase.FirstCeilingAt | kvys_flight_dashboard.py:60-63 | the value is 100 times the base of the first BKN/OVC layer in list order; a missing base gives exactly 0 and does not fall through to a later layer |
| CloudBase.ClearLayersBeforeIrrelevant | kvys_flight_dashboard.py:60-61 | layers that are not BKN/OVC listed before the rest do not change the result |
| CloudBase.LaterLayersIrrelevant | kvys_flight_dashboard.py:61-63 | once a BKN/OVC layer is found, layers listed after it, even lower ones, do not change the result |
| FlightDecision.ValidBases | kvys_flight_dashboard.py:66-71 | `valid_bases` holds at most one entry per METAR, every entry is at least 9000 and a multiple of 100, and it is empty exactly when no METAR passes the test |
| FlightDecision.GoStatus | kvys_flight_dashboard.py:73-74 | GO exactly when some METAR passes the test, NO-GO otherwise |
| FlightDecision.Reasons | kvys_flight_dashboard.py:73-76 | empty exactly when the verdict is GO, otherwise the single threshold message |
| FlightDecision.Decide | kvys_flight_dashboard.py:54-76 | the loop leaves `valid_bases`, `go_status` and `reasons` equal to the specification functions (so GO exactly when some METAR passes); GO exactly when `valid_bases` is non-empty, no reason on GO, exactly one reason on NO-GO |
| FlightDecision.CountsIffFirstCeilingAtLeast | kvys_flight_dashboard.py:70 | the zero test adds nothing: for a record with a BKN/OVC layer, it passes exactly when its extracted base is at least 9000, that is when that layer reports at least 90 |
| FlightDecision.NoCeilingNeverCounts | kvys_flight_dashboard.py:59-70 | a record without `sky_condition` or without a BKN/OVC layer never passes |
| FlightDecision.ValidBasesAppend | kvys_flight_dashboard.py:68-71 | processing more METARs only appends to `valid_bases`: the list for `a + b` is the list for `a` followed by the list for `b` |
| FlightDecision.GoIsMonotone | kvys_flight_dashboard.py:73-74 | appending METARs never turns GO into NO-GO |
| FlightDecision.DecimalString | kvys_flight_dashboard.py:76 | the `str()` of the threshold inside the reason's f-string: non-empty decimal digits whose value is the number, with no leading zero |
| FlightDecision.MetarsOf | kvys_flight_dashboard.py:44-49 | `get_metars` yields the decoded records after a successful request, and is empty exactly after a failure or an empty reply |
| FlightDecision.NoMetarsIsNoGo | kvys_flight_dashboard.py:73-76 | an empty METAR list gives NO-GO with the single reason |
| FlightDecision.FetchFailureIsNoGo | kvys_flight_dashboard.py:44-49 | a failed fetch, which yields `[]`, gives NO-GO with the single reason |
| FlightDecision.ReasonNamesThreshold | kvys_flight_dashboard.py:13-14 | the threshold is 8500 + 500 = 9000 and the reason appended at line 76 reads "No stations reporting cloud base ≥ 9000 ft AGL" |
| FlightDecision.MarkerColour | kvys_flight_dashboard.py:116 | the marker is green exactly when the METAR passes the `valid_bases` test |
| FlightDecision.MarkerGreenIffAppended | kvys_flight_dashboard.py:109-116 | a marker is green exactly when its METAR adds one entry to `valid_bases`, red exactly when it leaves the list unchanged |
| MapGeometry.NmToDeg | kvys_flight_dashboard.py:22 | the degrees times 60 give back the nautical miles; non-negative distances give at most as many degrees |
| MapGeometry.QueryBbox | kvys_flight_dashboard.py:40-41 | the box is centred on the airport and is `radius_nm / 30` degrees wide along each axis |
| MapGeometry.QueryBboxContainsIff | kvys_flight_dashboard.py:40-41 | a point is in the box exactly when it lies within `radius_nm` of the centre in each coordinate at 60 nm per degree |
| MapGeometry.CircleRadiusMetres | kvys_flight_dashboard.py:130 | the radius in metres is a multiple of 1852 and divides back to the radius in nautical miles |
| MapGeometry.KvysQueryBbox | kvys_flight_dashboard.py:37-51 | the query made with the default `radius_nm=50` contains the airport and reaches 50 nm (50/60 degree) north of it |
| MapGeometry.MapCircleRadius | kvys_flight_dashboard.py:128-130 | the circle drawn with `map_radius_nm = 50` (line 15) has a radius of 92600 m |

## Left out

- The Streamlit page (title, text, subheader, reasons list, caption, and the `st.error` message shown when the fetch fails): presentation only.
- The HTTP request in `get_metars`: its outcome is a parameter, `FetchResult`, either decoded records or a failure; a reply that is not a list of records is not modelled.
- `get_sun_window` and the clock: they call the astral and zoneinfo libraries and read the wall clock.
- The folium map: tile layers, marker placement, popups and layer control. Only the marker colour and the circle radius are kept; the `if lat and lon` test that decides whether a marker is drawn is not modelled.
- Floating point: latitudes, longitudes and the bounding box are exact reals, and the text formatting of the `bbox` parameter is not modelled.
- CloudBase.ExtractCloudBase: `cloud_base_ft_agl` is modelled as an integer or missing; `int()` of a float (truncation), of a numeric string, and the exception raised for a JSON `null` or a non-numeric string are not modelled.
- CloudBase.ExtractCloudBase: a `sky_condition` key whose value is not a list (for instance `null`, which would raise) is not modelled.
