/**
 * Crop recommendation: a per-state soil table, the resolution of a geocoded place to a table row
 * (state name matched ignoring whitespace and case, else a latitude band), the soil inputs copied
 * from that row, the recommendation list chosen by the first table key found in the detected
 * location, and the formatting of crop durations. The geocoding responses are inputs.
 */
module CropRecommendation {
  import opened Wrappers
  import opened Text

  // ---------------------------------------------------------------------------
  // The soil table

  datatype CropSuitability = CropSuitability(name: string, score: int, duration: string, water: string)

  datatype SoilProfile = SoilProfile(n: int, p: int, k: int, ph: real, crops: seq<CropSuitability>)

  const PunjabRow: SoilProfile := SoilProfile(140, 50, 50, 7.5, [
    CropSuitability("wheat", 98, "125 days", "high"), CropSuitability("paddy", 90, "110 days", "high"),
    CropSuitability("maize", 85, "100 days", "medium"), CropSuitability("sugarcane", 80, "300+ days", "high")])
  const MaharashtraRow: SoilProfile := SoilProfile(80, 40, 60, 6.8, [
    CropSuitability("cotton", 95, "160 days", "medium"), CropSuitability("sugarcane", 92, "365 days", "high"),
    CropSuitability("soybean", 88, "95 days", "low"), CropSuitability("jowar", 82, "110 days", "low")])
  const TamilNaduRow: SoilProfile := SoilProfile(100, 45, 55, 6.5, [
    CropSuitability("paddy", 94, "120 days", "high"), CropSuitability("banana", 89, "300 days", "high"),
    CropSuitability("coconut", 96, "running", "medium"), CropSuitability("groundnut", 85, "105 days", "low")])
  const RajasthanRow: SoilProfile := SoilProfile(60, 30, 40, 8.0, [
    CropSuitability("bajra", 98, "85 days", "very_low"), CropSuitability("mustard", 92, "110 days", "low"),
    CropSuitability("guar", 88, "90 days", "low"), CropSuitability("wheat", 70, "120 days", "medium")])
  const WestBengalRow: SoilProfile := SoilProfile(120, 60, 55, 6.0, [
    CropSuitability("paddy", 98, "115 days", "high"), CropSuitability("jute", 95, "120 days", "high"),
    CropSuitability("potato", 90, "90 days", "medium"), CropSuitability("mustard", 80, "100 days", "low")])
  const UttarPradeshRow: SoilProfile := SoilProfile(125, 55, 45, 7.2, [
    CropSuitability("sugarcane", 96, "360 days", "high"), CropSuitability("wheat", 95, "130 days", "medium"),
    CropSuitability("potato", 88, "90 days", "medium"), CropSuitability("paddy", 85, "115 days", "high")])
  const GujaratRow: SoilProfile := SoilProfile(90, 40, 50, 7.6, [
    CropSuitability("groundnut", 96, "110 days", "low"), CropSuitability("cotton", 94, "160 days", "medium"),
    CropSuitability("castor", 90, "150 days", "low"), CropSuitability("bajra", 80, "90 days", "low")])
  const KarnatakaRow: SoilProfile := SoilProfile(95, 50, 55, 6.8, [
    CropSuitability("ragi", 96, "110 days", "low"), CropSuitability("coffee", 90, "running", "medium"),
    CropSuitability("maize", 85, "100 days", "medium"), CropSuitability("sunflower", 80, "90 days", "low")])
  const KeralaRow: SoilProfile := SoilProfile(110, 45, 60, 5.5, [
    CropSuitability("rubber", 98, "running", "high"), CropSuitability("coconut", 95, "running", "medium"),
    CropSuitability("pepper", 90, "running", "high"), CropSuitability("banana", 88, "300 days", "high")])

  /** `Object.keys(SOIL_DATA)`, in declaration order. */
  const Keys: seq<string> := [
    "Punjab", "Maharashtra", "TamilNadu", "Rajasthan", "WestBengal",
    "UttarPradesh", "Gujarat", "Karnataka", "Kerala"
  ]

  /** The rows, in the order of `Keys`. */
  const Rows: seq<SoilProfile> := [
    PunjabRow, MaharashtraRow, TamilNaduRow, RajasthanRow, WestBengalRow,
    UttarPradeshRow, GujaratRow, KarnatakaRow, KeralaRow
  ]

  /** `SOIL_DATA[key]`, `None` for a key the table lacks. */
  function SoilRow(key: string): (r: Option<SoilProfile>)
    ensures r.Some? <==> key in Keys
    ensures r.Some? ==> exists i :: 0 <= i < |Keys| && Keys[i] == key && Rows[i] == r.value
  {
    RowFrom(key, 0)
  }

  function RowFrom(key: string, from: nat): (r: Option<SoilProfile>)
    requires from <= |Keys|
    ensures r.Some? <==> key in Keys[from..]
    ensures r.Some? ==> exists i :: from <= i < |Keys| && Keys[i] == key && Rows[i] == r.value
    decreases |Keys| - from
  {
    if from == |Keys| then None
    else if Keys[from] == key then Some(Rows[from])
    else
      assert Keys[from..] == [Keys[from]] + Keys[from + 1..];
      RowFrom(key, from + 1)
  }

  /** Every row's nitrogen and phosphorus are positive, so inputs copied from a row are accepted. */
  lemma RowsHavePositiveNP(i: nat)
    requires i < |Rows|
    ensures Rows[i].n > 0 && Rows[i].p > 0
  {
  }

  // ---------------------------------------------------------------------------
  // Resolving a place to a row

  /** The first key from `from` on equal to `clean` ignoring case. */
  function KeyIgnoringCase(clean: string, from: nat): (r: Option<string>)
    requires from <= |Keys|
    ensures r.Some? ==> exists i :: (from <= i < |Keys| && Keys[i] == r.value && EqualsIgnoringCase(Keys[i], clean)
                                     && forall j :: from <= j < i ==> !EqualsIgnoringCase(Keys[j], clean))
    ensures r.None? ==> forall j :: from <= j < |Keys| ==> !EqualsIgnoringCase(Keys[j], clean)
    decreases |Keys| - from
  {
    if from == |Keys| then None
    else if EqualsIgnoringCase(Keys[from], clean) then Some(Keys[from])
    else KeyIgnoringCase(clean, from + 1)
  }

  /** `matchStateToDB`: no name gives no key; otherwise the name with all whitespace removed is
      compared with each key, ignoring case, and the first equal key is returned. */
  function MatchStateToDb(stateName: string): (r: Option<string>)
    ensures stateName == "" ==> r.None?
    ensures r.Some? ==> r.value in Keys && EqualsIgnoringCase(r.value, StripWhitespace(stateName))
    ensures r.None? && stateName != "" ==>
      forall j :: 0 <= j < |Keys| ==> !EqualsIgnoringCase(Keys[j], StripWhitespace(stateName))
  {
    if stateName == "" then None else KeyIgnoringCase(StripWhitespace(stateName), 0)
  }

  lemma TamilNaduKeyIgnoringCase(clean: string)
    requires clean == "TamilNadu"
    ensures KeyIgnoringCase(clean, 0) == Some("TamilNadu")
  {
    assert EqualsIgnoringCase(Keys[2], clean);
    assert !EqualsIgnoringCase(Keys[0], clean) by { assert Lower(Keys[0])[0] != Lower(clean)[0]; }
    assert !EqualsIgnoringCase(Keys[1], clean) by { assert Lower(Keys[1])[0] != Lower(clean)[0]; }
  }

  /** A state name as the geocoder spells it, with a space, finds its key. */
  lemma TamilNaduWithSpaceMatches(name: string)
    requires name == "Tamil Nadu"
    ensures MatchStateToDb(name) == Some("TamilNadu")
  {
    assert name == "Tamil" + " " + "Nadu";
    StripSpaced("Tamil", "Nadu");
    var clean := StripWhitespace(name);
    assert clean == "TamilNadu";
    TamilNaduKeyIgnoringCase(clean);
  }

  /** `calculateFallBackFromLat`: four latitude bands with strict lower bounds. */
  function FallbackFromLat(lat: real): (r: string)
    ensures r in Keys
    ensures lat > 28.0 <==> r == "Punjab"
    ensures 24.0 < lat <= 28.0 <==> r == "UttarPradesh"
    ensures 18.0 < lat <= 24.0 <==> r == "Maharashtra"
    ensures lat <= 18.0 <==> r == "TamilNadu"
  {
    if lat > 28.0 then "Punjab"
    else if lat > 24.0 then "UttarPradesh"
    else if lat > 18.0 then "Maharashtra"
    else "TamilNadu"
  }

  /** The bounds themselves fall into the band below. */
  lemma FallbackBoundsAreStrict()
    ensures FallbackFromLat(28.0) == "UttarPradesh"
    ensures FallbackFromLat(24.0) == "Maharashtra"
    ensures FallbackFromLat(18.0) == "TamilNadu"
  {
  }

  /** The key a place resolves to: the matched state, else the latitude band. */
  function ResolveKey(state: string, lat: real): (r: string)
    ensures r in Keys
    ensures MatchStateToDb(state).Some? ==> r == MatchStateToDb(state).value
    ensures MatchStateToDb(state).None? ==> r == FallbackFromLat(lat)
  {
    match MatchStateToDb(state)
    case Some(k) => k
    case None => FallbackFromLat(lat)
  }

  /** The "generic" branches are dead: every resolved key has a row. */
  lemma ResolvedKeyHasRow(state: string, lat: real)
    ensures SoilRow(ResolveKey(state, lat)).Some?
  {
  }

  // ---------------------------------------------------------------------------
  // The soil inputs

  /** A form field: text typed by the user, or a number copied from the table. */
  datatype Field = Typed(text: string) | Filled(value: real)

  /** JavaScript truthiness: the empty string and the number 0 are false ("0" typed is true). */
  predicate Truthy(f: Field) {
    match f
    case Typed(s) => s != ""
    case Filled(v) => v != 0.0
  }

  datatype Inputs = Inputs(n: Field, p: Field, k: Field, ph: Field)

  datatype FieldName = N | P | K | Ph

  const EmptyInputs: Inputs := Inputs(Typed(""), Typed(""), Typed(""), Typed(""))

  function FromRow(row: SoilProfile): (r: Inputs)
    ensures r == Inputs(Filled(row.n as real), Filled(row.p as real), Filled(row.k as real), Filled(row.ph))
  {
    Inputs(Filled(row.n as real), Filled(row.p as real), Filled(row.k as real), Filled(row.ph))
  }

  /** The fixed values of the search path's generic branch. */
  const GenericSearchInputs: Inputs := Inputs(Filled(90.0), Filled(40.0), Filled(40.0), Filled(6.5))

  /** The fixed values of the map path's generic branch and of a failed reverse lookup. */
  const DefaultMapInputs: Inputs := Inputs(Filled(100.0), Filled(50.0), Filled(50.0), Filled(7.0))

  /** `handleInputChange`: the named field becomes the typed text. */
  function WithField(inputs: Inputs, name: FieldName, value: string): (r: Inputs)
    ensures name == N ==> r == inputs.(n := Typed(value))
    ensures name == P ==> r == inputs.(p := Typed(value))
    ensures name == K ==> r == inputs.(k := Typed(value))
    ensures name == Ph ==> r == inputs.(ph := Typed(value))
  {
    match name
    case N => inputs.(n := Typed(value))
    case P => inputs.(p := Typed(value))
    case K => inputs.(k := Typed(value))
    case Ph => inputs.(ph := Typed(value))
  }

  /** `!inputs.N || !inputs.P` rejects the submission. */
  predicate Submittable(inputs: Inputs) {
    Truthy(inputs.n) && Truthy(inputs.p)
  }

  // ---------------------------------------------------------------------------
  // Geocoding responses

  /** The address fields used; the empty string stands for a missing or empty field. */
  datatype Address = Address(
    state: string, region: string, stateDistrict: string,
    city: string, town: string, village: string, county: string)

  /** A search hit; a hit without an address makes the handler throw. */
  datatype Place = Place(address: Option<Address>, lat: real)

  /** The forward search: the request or its parsing fails, or it lists places. */
  datatype SearchOutcome = SearchFailed | Places(places: seq<Place>)

  /** The reverse lookup: it fails, or yields an object whose `address` may be missing. */
  datatype ReverseOutcome = ReverseFailed | Reverse(address: Option<Address>)

  /** `a || b` on strings. */
  function Or(a: string, b: string): (r: string)
    ensures a != "" ==> r == a
    ensures a == "" ==> r == b
  {
    if a != "" then a else b
  }

  /** Where a place lands: the inputs and the detected-location text. */
  datatype Located = Located(inputs: Inputs, location: string)

  /** Copy the resolved row, or (unreachably) the generic values. */
  function Settle(key: string, city: string, state: string, genericSuffix: string, generic: Inputs): (r: Located)
    ensures key in Keys ==> r == Located(FromRow(SoilRow(key).value), city + ", " + state)
  {
    match SoilRow(key)
    case Some(row) => Located(FromRow(row), city + ", " + state)
    case None => Located(generic, city + genericSuffix)
  }

  /** What a search does to the inputs and the detected location; failures and empty results
      (which only alert) change neither. */
  function SearchUpdate(searchText: string, outcome: SearchOutcome, inputs: Inputs, location: string): (r: Located)
    ensures outcome.SearchFailed? || (outcome.Places? && (|outcome.places| == 0 || outcome.places[0].address.None?))
      ==> r == Located(inputs, location)
    ensures outcome.Places? && |outcome.places| > 0 && outcome.places[0].address.Some? ==>
      var a := outcome.places[0].address.value;
      var state := Or(a.state, a.region);
      var key := ResolveKey(state, outcome.places[0].lat);
      && key in Keys
      && r.inputs == FromRow(SoilRow(key).value)
      && r.location == Or(a.city, Or(a.town, Or(a.village, Or(a.county, searchText)))) + ", " + state
  {
    match outcome
    case SearchFailed => Located(inputs, location)
    case Places(places) =>
      if |places| == 0 || places[0].address.None? then Located(inputs, location)
      else
        var a := places[0].address.value;
        var state := Or(a.state, a.region);
        var city := Or(a.city, Or(a.town, Or(a.village, Or(a.county, searchText))));
        Settle(ResolveKey(state, places[0].lat), city, state, " (Generic Data)", GenericSearchInputs)
  }

  /** What a map pick does, given the reverse lookup; `fixed(x, d)` is `x.toFixed(d)`. */
  function MapUpdate(lat: real, lng: real, outcome: ReverseOutcome, fixed: (real, nat) -> string): (r: Located)
    ensures outcome.ReverseFailed? ==> r == Located(DefaultMapInputs, fixed(lat, 2) + ", " + fixed(lng, 2))
    ensures outcome.Reverse? ==>
      var a := outcome.address.GetOr(Address("", "", "", "", "", "", ""));
      var key := ResolveKey(a.state, lat);
      && key in Keys
      && r.inputs == FromRow(SoilRow(key).value)
      && r.location == Or(a.city, Or(a.town, Or(a.village, Or(Or(a.stateDistrict, a.county), "Selected Area"))))
                       + ", " + a.state
  {
    match outcome
    case ReverseFailed => Located(DefaultMapInputs, fixed(lat, 2) + ", " + fixed(lng, 2))
    case Reverse(address) =>
      var a := address.GetOr(Address("", "", "", "", "", "", ""));
      var district := Or(a.stateDistrict, a.county);
      var city := Or(a.city, Or(a.town, Or(a.village, Or(district, "Selected Area"))));
      Settle(ResolveKey(a.state, lat), city, a.state, " (Generic)", DefaultMapInputs)
  }

  /** After any successful lookup, search or map, the form can be submitted as filled. */
  lemma LookupFillsSubmittableInputs(key: string)
    requires key in Keys
    ensures Submittable(FromRow(SoilRow(key).value))
  {
    var i :| 0 <= i < |Keys| && Keys[i] == key && Rows[i] == SoilRow(key).value;
    RowsHavePositiveNP(i);
  }

  // ---------------------------------------------------------------------------
  // Recommendations

  const GenericCrops: seq<CropSuitability> := [
    CropSuitability("wheat", 85, "120 days", "medium"),
    CropSuitability("millets", 80, "90 days", "low"),
    CropSuitability("pulses", 75, "100 days", "low"),
    CropSuitability("tomato", 70, "110 days", "medium")
  ]

  /** The index of the first key from `from` on that occurs in `location`. */
  function FirstKeyIn(location: string, from: nat): (r: Option<nat>)
    requires from <= |Keys|
    ensures r.Some? ==> from <= r.value < |Keys| && Contains(location, Keys[r.value])
    ensures r.Some? ==> forall j :: from <= j < r.value ==> !Contains(location, Keys[j])
    ensures r.None? ==> forall j :: from <= j < |Keys| ==> !Contains(location, Keys[j])
    decreases |Keys| - from
  {
    if from == |Keys| then None
    else if Contains(location, Keys[from]) then Some(from)
    else FirstKeyIn(location, from + 1)
  }

  /** The list shown for a detected location: the crops of the first key, in table order, that
      occurs in it, or the fixed balanced list. */
  function Recommend(location: string): (r: seq<CropSuitability>)
    ensures forall i :: (0 <= i < |Keys| && Contains(location, Keys[i])
                         && forall j :: 0 <= j < i ==> !Contains(location, Keys[j]))
                        ==> r == Rows[i].crops
    ensures (forall j :: 0 <= j < |Keys| ==> !Contains(location, Keys[j])) ==> r == GenericCrops
    ensures |r| == 4
  {
    match FirstKeyIn(location, 0)
    case None => GenericCrops
    case Some(i) => Rows[i].crops
  }

  /** The top result is the list's first entry, not its best score: Tamil Nadu shows paddy (94)
      on top although coconut scores 96. */
  lemma TopResultIsFirstNotBest(location: string)
    requires Contains(location, "TamilNadu")
    requires forall j :: 0 <= j < 2 ==> !Contains(location, Keys[j])
    ensures Recommend(location)[0] == CropSuitability("paddy", 94, "120 days", "high")
    ensures exists c :: c in Recommend(location) && c.score > Recommend(location)[0].score
  {
    assert Recommend(location) == TamilNaduRow.crops;
    assert TamilNaduRow.crops[2].score == 96;
  }

  const ChennaiLocation: string := "Chennai, Tamil Nadu"

  /** A key occurs nowhere in a text that lacks one of its characters. */
  lemma AbsentCharNotContained(s: string, key: string, c: char)
    requires c in key && c !in s
    ensures !Contains(s, key)
  {
    ContainsIff(s, key);
  }

  lemma ChennaiLacksTamilNaduKey(s: string)
    requires s == ChennaiLocation
    ensures !Contains(s, "TamilNadu")
  {
    assert 'T' !in s[..9] && 'T' !in s[10..];
    forall i | 0 <= i ensures !OccursAt(s, "TamilNadu", i) {
      if i + 9 <= |s| {
        if i < 9 {
          assert s[i..i + 9][0] == s[..9][i] != 'T';
        } else if i > 9 {
          assert s[i..i + 9][0] == s[10..][i - 10] != 'T';
        } else {
          assert s[i..i + 9][5] == ' ';
        }
      }
    }
    ContainsIff(s, "TamilNadu");
  }

  /** A search for a Tamil Nadu city copies TamilNadu's soil row, but the detected location reads
      "<city>, Tamil Nadu", which contains no table key, so the balanced generic list is shown. */
  lemma SpacedStateGetsGenericList(s: string)
    requires s == ChennaiLocation
    ensures Recommend(s) == GenericCrops
  {
    ChennaiLacksEarlyKeys(s);
    ChennaiLacksLateKeys(s);
    assert FirstKeyIn(s, 0).None?;
  }

  lemma ChennaiLacksEarlyKeys(s: string)
    requires s == ChennaiLocation
    ensures !Contains(s, Keys[0]) && !Contains(s, Keys[1]) && !Contains(s, Keys[2])
    ensures !Contains(s, Keys[3]) && !Contains(s, Keys[4])
  {
    assert 'P' !in s && 'M' !in s && 'R' !in s && 'W' !in s;
    assert 'P' in Keys[0] && 'M' in Keys[1] && 'R' in Keys[3] && 'W' in Keys[4];
    AbsentCharNotContained(s, Keys[0], 'P');
    AbsentCharNotContained(s, Keys[1], 'M');
    ChennaiLacksTamilNaduKey(s);
    AbsentCharNotContained(s, Keys[3], 'R');
    AbsentCharNotContained(s, Keys[4], 'W');
  }

  lemma ChennaiLacksLateKeys(s: string)
    requires s == ChennaiLocation
    ensures !Contains(s, Keys[5]) && !Contains(s, Keys[6]) && !Contains(s, Keys[7]) && !Contains(s, Keys[8])
  {
    assert 'U' !in s && 'G' !in s && 'K' !in s;
    assert 'U' in Keys[5] && 'G' in Keys[6] && 'K' in Keys[7] && 'K' in Keys[8];
    AbsentCharNotContained(s, Keys[5], 'U');
    AbsentCharNotContained(s, Keys[6], 'G');
    AbsentCharNotContained(s, Keys[7], 'K');
    AbsentCharNotContained(s, Keys[8], 'K');
  }

  // ---------------------------------------------------------------------------
  // Duration text

  /** `formatDuration`: empty stays empty, "running" is translated, otherwise the first "days"
      is replaced by its translation. */
  function FormatDuration(str: string, t: string -> string): (r: string)
    ensures str == "" ==> r == ""
    ensures str == "running" ==> r == t("running")
    ensures str != "" && str != "running" && !Contains(str, "days") ==> r == str
    ensures str != "" && str != "running" ==> r == ReplaceFirst(str, "days", t("days"))
  {
    if str == "" then ""
    else if str == "running" then t("running")
    else ReplaceFirst(str, "days", t("days"))
  }

  /** "<count> days" reads "<count> <translated days>" for any count without a 'd', such as
      "125" or "300+". */
  lemma FormatDaysDuration(count: string, t: string -> string)
    requires 'd' !in count
    ensures FormatDuration(count + " days", t) == count + " " + t("days")
  {
    var s := count + " days";
    assert OccursAt(s, "days", |count| + 1);
    forall j | 0 <= j < |count| + 1 ensures !OccursAt(s, "days", j) {
      if j + 4 <= |s| {
        assert s[j..j + 4][0] == s[j];
        if j < |count| {
          assert s[j] == count[j];
        }
      }
    }
    var i := IndexOf(s, "days").value;
    assert i == |count| + 1;
    assert s[..i] == count + " ";
  }

  // ---------------------------------------------------------------------------
  // The page

  class RecommendationPage {
    var searchText: string
    var detectedLocation: string
    var inputs: Inputs
    var result: Option<seq<CropSuitability>>
    var loading: bool
    var searchLoading: bool

    constructor()
      ensures searchText == "" && detectedLocation == "" && inputs == EmptyInputs
      ensures result.None? && !loading && !searchLoading
    {
      searchText := "";
      detectedLocation := "";
      inputs := EmptyInputs;
      result := None;
      loading := false;
      searchLoading := false;
    }

    method SetSearchText(text: string)
      modifies this
      ensures searchText == text
      ensures detectedLocation == old(detectedLocation) && inputs == old(inputs) && result == old(result)
      ensures loading == old(loading) && searchLoading == old(searchLoading)
    {
      searchText := text;
    }

    /** `handleSearch`, given the geocoder's answer; blank search text does nothing. */
    method Search(outcome: SearchOutcome)
      modifies this
      ensures IsBlank(old(searchText)) ==>
        detectedLocation == old(detectedLocation) && inputs == old(inputs) && searchLoading == old(searchLoading)
      ensures !IsBlank(old(searchText)) ==>
        && Located(inputs, detectedLocation) == SearchUpdate(old(searchText), outcome, old(inputs), old(detectedLocation))
        && !searchLoading
      ensures searchText == old(searchText) && result == old(result) && loading == old(loading)
    {
      if IsBlank(searchText) {
        return;
      }
      searchLoading := true;
      var located := SearchUpdate(searchText, outcome, inputs, detectedLocation);
      inputs := located.inputs;
      detectedLocation := located.location;
      searchLoading := false;
    }

    /** `handleMapSelection`, given the reverse lookup's answer. The optimistic coordinate text
        is always overwritten before the handler ends. */
    method SelectOnMap(lat: real, lng: real, outcome: ReverseOutcome, fixed: (real, nat) -> string)
      modifies this
      ensures Located(inputs, detectedLocation) == MapUpdate(lat, lng, outcome, fixed)
      ensures !searchLoading
      ensures searchText == old(searchText) && result == old(result) && loading == old(loading)
    {
      searchLoading := true;
      detectedLocation := fixed(lat, 4) + ", " + fixed(lng, 4) + "...";
      var located := MapUpdate(lat, lng, outcome, fixed);
      inputs := located.inputs;
      detectedLocation := located.location;
      searchLoading := false;
    }

    /** `handleInputChange`. */
    method EditField(name: FieldName, value: string)
      modifies this
      ensures inputs == WithField(old(inputs), name, value)
      ensures searchText == old(searchText) && detectedLocation == old(detectedLocation)
      ensures result == old(result) && loading == old(loading) && searchLoading == old(searchLoading)
    {
      inputs := WithField(inputs, name, value);
    }

    /** The first half of `handleSubmit`: empty or zero nitrogen or phosphorus is rejected;
        otherwise the page starts loading with the location as it stands now. */
    method BeginSubmit() returns (accepted: bool, location: string)
      modifies this
      ensures accepted <==> Submittable(old(inputs))
      ensures accepted ==> loading && location == old(detectedLocation)
      ensures !accepted ==> loading == old(loading)
      ensures searchText == old(searchText) && detectedLocation == old(detectedLocation) && inputs == old(inputs)
      ensures result == old(result) && searchLoading == old(searchLoading)
    {
      if !Truthy(inputs.n) || !Truthy(inputs.p) {
        return false, "";
      }
      loading := true;
      accepted, location := true, detectedLocation;
    }

    /** The timer's callback: the recommendation for the location captured at submission. */
    method FinishSubmit(location: string)
      modifies this
      ensures result == Some(Recommend(location)) && !loading
      ensures searchText == old(searchText) && detectedLocation == old(detectedLocation) && inputs == old(inputs)
      ensures searchLoading == old(searchLoading)
    {
      result := Some(Recommend(location));
      loading := false;
    }

    /** The "check another" button: back to the form, with the inputs and location kept. */
    method CheckAnother()
      modifies this
      ensures result.None?
      ensures searchText == old(searchText) && detectedLocation == old(detectedLocation) && inputs == old(inputs)
      ensures loading == old(loading) && searchLoading == old(searchLoading)
    {
      result := None;
    }
  }
}
