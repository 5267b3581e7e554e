/** The closed set of sports and their string wire encoding (a Swift raw-value enum). */
module SportTypes {

  import opened Wrappers

  datatype SportType = Basketball | Soccer | Tennis | Volleyball | Hiking

  /** `rawValue`: the capitalised name of the sport. */
  function RawValue(sport: SportType): (r: string)
    ensures |r| > 0 && 'A' <= r[0] <= 'Z'
  {
    match sport
    case Basketball => "Basketball"
    case Soccer => "Soccer"
    case Tennis => "Tennis"
    case Volleyball => "Volleyball"
    case Hiking => "Hiking"
  }

  /** `SportType(rawValue:)`: exact, case-sensitive match against the five raw values. */
  function FromRawValue(raw: string): (r: Option<SportType>)
    ensures r.Some? ==> RawValue(r.value) == raw
    ensures r.None? ==> forall sport: SportType :: RawValue(sport) != raw
  {
    if raw == "Basketball" then Some(Basketball)
    else if raw == "Soccer" then Some(Soccer)
    else if raw == "Tennis" then Some(Tennis)
    else if raw == "Volleyball" then Some(Volleyball)
    else if raw == "Hiking" then Some(Hiking)
    else None
  }

  /** `allCases`, in declaration order. */
  const AllCases: seq<SportType> := [Basketball, Soccer, Tennis, Volleyball, Hiking]

  /** There are exactly five sports, each listed once, with pairwise distinct raw values. */
  lemma AllCasesAreTheFiveSports()
    ensures |AllCases| == 5
    ensures forall sport: SportType :: sport in AllCases
    ensures forall i, j :: 0 <= i < j < |AllCases| ==> RawValue(AllCases[i]) != RawValue(AllCases[j])
  {
    forall sport: SportType ensures sport in AllCases {
      match sport
      case Basketball => assert AllCases[0] == sport;
      case Soccer => assert AllCases[1] == sport;
      case Tennis => assert AllCases[2] == sport;
      case Volleyball => assert AllCases[3] == sport;
      case Hiking => assert AllCases[4] == sport;
    }
  }

  /** No two sports share a raw value. */
  lemma RawValueInjective(a: SportType, b: SportType)
    ensures RawValue(a) == RawValue(b) ==> a == b
  {
  }

  /** Parsing the raw value of a sport gives back that sport. */
  lemma RawValueRoundTrip(sport: SportType)
    ensures FromRawValue(RawValue(sport)) == Some(sport)
  {
  }

  /** Parsing is case-sensitive and rejects the empty string. */
  lemma FromRawValueIsExact()
    ensures FromRawValue("basketball") == None
    ensures FromRawValue("BASKETBALL") == None
    ensures FromRawValue("") == None
    ensures FromRawValue("Unknown") == None
  {
  }
}
