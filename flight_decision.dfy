/**
  The go/no-go decision of the KVYS flight dashboard: a METAR counts when its
  extracted cloud base is truthy and at least the collection altitude plus a
  500 ft buffer, and the verdict is GO as soon as one METAR counts.
 */
module FlightDecision {
  import opened Wrappers
  import opened CloudBase

  const CollectionAltFt: int := 8500
  /** The required cloud base: the collection altitude plus a 500 ft buffer. */
  const MinCloudBaseFtAgl: int := CollectionAltFt + 500

  const Go: string := "GO"
  const NoGo: string := "NO-GO"

  /** The one reason given for a NO-GO, naming the threshold. */
  const NoStationsReason: string :=
    "No stations reporting cloud base \U{2265} " + DecimalString(MinCloudBaseFtAgl) + " ft AGL"

  /** The number a string of decimal digits denotes, most significant digit first. */
  function DigitsValue(s: string): (v: nat)
    requires forall i :: 0 <= i < |s| ==> '0' <= s[i] <= '9'
  {
    if s == [] then 0
    else DigitsValue(s[..|s| - 1]) * 10 + (s[|s| - 1] - '0') as nat
  }

  /** Python's `str` of a non-negative integer: non-empty decimal digits denoting `n`,
      with no leading zero. */
  function DecimalString(n: nat): (s: string)
    ensures |s| >= 1
    ensures forall i :: 0 <= i < |s| ==> '0' <= s[i] <= '9'
    ensures DigitsValue(s) == n
    ensures |s| > 1 ==> s[0] != '0'
  {
    var digit := ['0' + (n % 10) as char];
    if n < 10 then digit
    else
      var front := DecimalString(n / 10);
      assert (front + digit)[..|front|] == front;
      front + digit
  }

  /** Python truthiness of `cloud_base`: neither `None` nor `0`. */
  predicate Truthy(base: Option<int>) {
    base.Some? && base.value != 0
  }

  /** The test a METAR must pass to be appended to `valid_bases`. */
  predicate Counts(m: Metar) {
    var cloudBase := ExtractCloudBase(m);
    Truthy(cloudBase) && cloudBase.value >= MinCloudBaseFtAgl
  }

  /** `valid_bases` after the loop has processed `metars`, one METAR at a time. */
  function ValidBases(metars: seq<Metar>): (r: seq<int>)
    ensures |r| <= |metars|
    ensures forall j :: 0 <= j < |r| ==> r[j] >= MinCloudBaseFtAgl && r[j] % 100 == 0
    ensures r == [] <==> forall i :: 0 <= i < |metars| ==> !Counts(metars[i])
  {
    if metars == [] then []
    else
      var last := metars[|metars| - 1];
      var earlier := metars[..|metars| - 1];
      assert forall i :: 0 <= i < |earlier| ==> earlier[i] == metars[i];
      ValidBases(earlier) + (if Counts(last) then [ExtractCloudBase(last).value] else [])
  }

  /** `go_status` after the decision. */
  function GoStatus(metars: seq<Metar>): (r: string)
    ensures r == Go <==> exists i :: 0 <= i < |metars| && Counts(metars[i])
    ensures r == Go || r == NoGo
  {
    if ValidBases(metars) != [] then Go else NoGo
  }

  /** `reasons` after the decision. */
  function Reasons(metars: seq<Metar>): (r: seq<string>)
    ensures r == [] <==> GoStatus(metars) == Go
    ensures r != [] ==> r == [NoStationsReason]
  {
    if ValidBases(metars) != [] then [] else [NoStationsReason]
  }

  /** The decision section of the script: its three variables, updated step by step. */
  method Decide(metars: seq<Metar>) returns (goStatus: string, reasons: seq<string>, validBases: seq<int>)
    ensures validBases == ValidBases(metars)
    ensures goStatus == GoStatus(metars) && reasons == Reasons(metars)
    ensures goStatus == Go <==> validBases != []
    ensures goStatus == NoGo ==> reasons == [NoStationsReason]
    ensures goStatus == Go ==> reasons == []
  {
    goStatus := NoGo;
    reasons := [];
    validBases := [];
    for i := 0 to |metars|
      invariant validBases == ValidBases(metars[..i])
    {
      var cloudBase := ExtractCloudBase(metars[i]);
      if cloudBase.Some? && cloudBase.value != 0 && cloudBase.value >= MinCloudBaseFtAgl {
        validBases := validBases + [cloudBase.value];
      }
      assert metars[..i + 1][..i] == metars[..i];
    }
    assert metars[..|metars|] == metars;
    if validBases != [] {
      goStatus := Go;
    } else {
      reasons := reasons + [NoStationsReason];
    }
  }

  /** The zero test is redundant: a METAR counts exactly when the first ceiling
      layer reports at least 90 hundreds of feet. */
  lemma CountsIffFirstCeilingAtLeast(m: Metar, k: int)
    requires m.skyCondition.Some? && IsFirstCeiling(m.skyCondition.value, k)
    ensures Counts(m) <==> ExtractCloudBase(m).value >= MinCloudBaseFtAgl
    ensures Counts(m) <==> BaseOrZero(m.skyCondition.value[k]) >= 90
  {
    FirstCeilingAt(m.skyCondition.value, k);
  }

  /** A record without a BKN/OVC layer never counts, however clear its sky. */
  lemma NoCeilingNeverCounts(m: Metar)
    requires m.skyCondition.None? || NoCeiling(m.skyCondition.value)
    ensures !Counts(m)
  {
  }

  /** Processing a further batch of METARs only appends to `valid_bases`. */
  lemma {:induction false} ValidBasesAppend(a: seq<Metar>, b: seq<Metar>)
    ensures ValidBases(a + b) == ValidBases(a) + ValidBases(b)
  {
    if b == [] {
      assert a + b == a;
    } else {
      var earlier := b[..|b| - 1];
      assert (a + b)[..|a + b| - 1] == a + earlier;
      assert (a + b)[|a + b| - 1] == b[|b| - 1];
      ValidBasesAppend(a, earlier);
    }
  }

  /** Appending METARs never turns a GO into a NO-GO. */
  lemma GoIsMonotone(a: seq<Metar>, b: seq<Metar>)
    requires GoStatus(a) == Go
    ensures GoStatus(a + b) == Go && Reasons(a + b) == []
  {
    ValidBasesAppend(a, b);
  }

  /** With no METARs at all the verdict is NO-GO, with the single reason. */
  lemma NoMetarsIsNoGo()
    ensures GoStatus([]) == NoGo && Reasons([]) == [NoStationsReason]
  {
  }

  /** The reason names the 9000 ft threshold. */
  lemma ReasonNamesThreshold()
    ensures MinCloudBaseFtAgl == 9000
    ensures NoStationsReason == "No stations reporting cloud base \U{2265} 9000 ft AGL"
  {
  }

  /** The outcome of the HTTP request for METARs. */
  datatype FetchResult = Fetched(records: seq<Metar>) | FetchFailed(error: string)

  /** `get_metars`: the decoded records, or `[]` after an exception. */
  function MetarsOf(response: FetchResult): (metars: seq<Metar>)
    ensures response.Fetched? ==> metars == response.records
    ensures metars == [] <==> response.FetchFailed? || response.records == []
  {
    match response
    case Fetched(records) => records
    case FetchFailed(_) => []
  }

  /** A failed fetch yields NO-GO with the single reason. */
  lemma FetchFailureIsNoGo(response: FetchResult)
    requires response.FetchFailed?
    ensures GoStatus(MetarsOf(response)) == NoGo
    ensures Reasons(MetarsOf(response)) == [NoStationsReason]
  {
  }

  datatype Colour = Green | Red

  /** The colour of a station's map marker. */
  function MarkerColour(m: Metar): (c: Colour)
    ensures c == Green <==> Counts(m)
  {
    var base := ExtractCloudBase(m);
    if Truthy(base) && base.value >= MinCloudBaseFtAgl then Green else Red
  }

  /** A marker is green exactly when its METAR adds an entry to `valid_bases`. */
  lemma MarkerGreenIffAppended(earlier: seq<Metar>, m: Metar)
    ensures MarkerColour(m) == Green <==> |ValidBases(earlier + [m])| == |ValidBases(earlier)| + 1
    ensures MarkerColour(m) == Red <==> ValidBases(earlier + [m]) == ValidBases(earlier)
  {
  }
}
