/**
  The METAR records the dashboard reads from the aviation-weather JSON feed, and
  `extract_cloud_base`: the cloud base of the first broken (BKN) or overcast (OVC)
  layer of a record, in list order.
 */
module CloudBase {
  import opened Wrappers

  /** One entry of a record's `sky_condition` list; either key may be missing. */
  datatype SkyLayer = SkyLayer(skyCover: Option<string>, cloudBaseFtAgl: Option<int>)

  /** One METAR record, reduced to the keys the dashboard reads. The station id and the
      coordinates only label and place the map marker, which this model leaves out; they
      are kept to show the record's shape. */
  datatype Metar = Metar(
    stationId: string,
    latitude: Option<real>,
    longitude: Option<real>,
    skyCondition: Option<seq<SkyLayer>>)

  /** A layer whose cover is BKN or OVC; a missing cover is neither. */
  predicate IsCeiling(layer: SkyLayer) {
    layer.skyCover == Some("BKN") || layer.skyCover == Some("OVC")
  }

  /** `cloud_base_ft_agl`, defaulting to 0 when the key is missing. */
  function BaseOrZero(layer: SkyLayer): (b: int) {
    match layer.cloudBaseFtAgl
    case Some(b) => b
    case None => 0
  }

  ghost predicate NoCeiling(layers: seq<SkyLayer>) {
    forall i :: 0 <= i < |layers| ==> !IsCeiling(layers[i])
  }

  /** Layer `k` is a ceiling layer and every layer listed before it is not. */
  ghost predicate IsFirstCeiling(layers: seq<SkyLayer>, k: int) {
    0 <= k < |layers| && IsCeiling(layers[k]) && NoCeiling(layers[..k])
  }

  /** The scan of the `sky_condition` list: stop at the first BKN/OVC layer. */
  function FirstCeilingBase(layers: seq<SkyLayer>): (r: Option<int>)
    ensures r.None? <==> NoCeiling(layers)
    ensures r.Some? ==> r.value % 100 == 0
  {
    if layers == [] then None
    else if IsCeiling(layers[0]) then Some(BaseOrZero(layers[0]) * 100)
    else
      assert forall i :: 1 <= i < |layers| ==> layers[i] == layers[1..][i - 1];
      FirstCeilingBase(layers[1..])
  }

  /** `extract_cloud_base`: `None` without a `sky_condition` key or without a ceiling layer. */
  function ExtractCloudBase(m: Metar): (r: Option<int>)
    ensures r.None? <==> m.skyCondition.None? || NoCeiling(m.skyCondition.value)
    ensures r.Some? ==> r.value % 100 == 0
  {
    match m.skyCondition
    case None => None
    case Some(layers) => FirstCeilingBase(layers)
  }

  /** The value is 100 times the base of the first ceiling layer; the second clause is the
      corollary for a missing base: exactly 0, with no fall-through to a later layer. */
  lemma {:induction false} FirstCeilingAt(layers: seq<SkyLayer>, k: int)
    requires IsFirstCeiling(layers, k)
    ensures FirstCeilingBase(layers) == Some(100 * BaseOrZero(layers[k]))
    ensures layers[k].cloudBaseFtAgl.None? ==> FirstCeilingBase(layers) == Some(0)
  {
    if k > 0 {
      assert layers[..k][0] == layers[0];
      var rest := layers[1..];
      assert rest[..k - 1] == layers[1..k];
      var before := rest[..k - 1];
      forall i | 0 <= i < |before| ensures !IsCeiling(before[i]) {
        assert before[i] == layers[..k][i + 1];
      }
      FirstCeilingAt(rest, k - 1);
    }
  }

  /** Layers without a ceiling listed before the rest do not change the result. */
  lemma {:induction false} ClearLayersBeforeIrrelevant(clear: seq<SkyLayer>, rest: seq<SkyLayer>)
    requires NoCeiling(clear)
    ensures FirstCeilingBase(clear + rest) == FirstCeilingBase(rest)
  {
    if clear == [] {
      assert clear + rest == rest;
    } else {
      assert !IsCeiling(clear[0]);
      assert (clear + rest)[0] == clear[0];
      forall i | 0 <= i < |clear| - 1 ensures !IsCeiling(clear[1..][i]) {
        assert clear[1..][i] == clear[i + 1];
      }
      assert (clear + rest)[1..] == clear[1..] + rest;
      ClearLayersBeforeIrrelevant(clear[1..], rest);
    }
  }

  /** Once a ceiling layer has been found, layers listed after it do not change the result,
      even lower ones: the scan returns the first ceiling, not the lowest. */
  lemma {:induction false} LaterLayersIrrelevant(layers: seq<SkyLayer>, later: seq<SkyLayer>)
    requires FirstCeilingBase(layers).Some?
    ensures FirstCeilingBase(layers + later) == FirstCeilingBase(layers)
  {
    assert layers != [];
    assert (layers + later)[0] == layers[0];
    if !IsCeiling(layers[0]) {
      assert (layers + later)[1..] == layers[1..] + later;
      LaterLayersIrrelevant(layers[1..], later);
    }
  }
}
