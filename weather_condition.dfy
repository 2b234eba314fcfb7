/**
  The weather-code classifier of app/lib/weather.ts: a WMO present-weather
  code (WMO Code Table 4677, as served by Open-Meteo) is mapped to a label and
  the name of an icon by a chain of range tests where the first match wins.

  Beside the if-chain, the same mapping is written as a table of bands looked
  up first-match; the lemmas show that the bands are pairwise disjoint, so the
  order of the tests never matters, and characterise every condition by the
  codes that produce it.
*/
module WeatherCondition {

  import opened Options

  datatype Condition = Condition(labelText: string, iconName: string)

  const ClearSky := Condition("Clear sky", "Sun")
  const PartlyCloudy := Condition("Partly cloudy", "CloudSun")
  const Fog := Condition("Fog", "CloudFog")
  const DrizzleRain := Condition("Drizzle / Rain", "CloudRain")
  const Snow := Condition("Snow", "Snowflake")
  const Showers := Condition("Showers", "CloudRainWind")
  const Thunderstorm := Condition("Thunderstorm", "CloudLightning")
  const Unknown := Condition("Unknown", "Cloud")

  /** The eight conditions the classifier can produce. */
  const AllConditions: seq<Condition> :=
    [ClearSky, PartlyCloudy, Fog, DrizzleRain, Snow, Showers, Thunderstorm, Unknown]

  /** The classifier, one test per line of the source, in the source's order. */
  function GetWeatherCondition(code: int): (c: Condition)
    ensures c in AllConditions
  {
    if code == 0 then ClearSky
    else if 1 <= code <= 3 then PartlyCloudy
    else if 45 <= code <= 48 then Fog
    else if 51 <= code <= 67 then DrizzleRain
    else if 71 <= code <= 77 then Snow
    else if 80 <= code <= 82 then Showers
    else if code >= 95 then Thunderstorm
    else Unknown
  }

  // ---------------------------------------------------------------------------
  // The same mapping as a table of bands

  /** A band of codes from `lo` up to `hi` inclusive; `hi == None` has no upper bound. */
  datatype Band = Band(lo: int, hi: Option<int>, condition: Condition)

  predicate Contains(b: Band, code: int) {
    b.lo <= code && (b.hi.None? || code <= b.hi.value)
  }

  /** Every code of `b` lies below `x`. */
  predicate EndsBelow(b: Band, x: int) {
    b.hi.Some? && b.hi.value < x
  }

  /** Two bands are disjoint when one of them ends below the start of the other. */
  predicate Disjoint(a: Band, b: Band) {
    EndsBelow(a, b.lo) || EndsBelow(b, a.lo)
  }

  predicate PairwiseDisjoint(t: seq<Band>) {
    forall i, j :: 0 <= i < j < |t| ==> Disjoint(t[i], t[j])
  }

  /** The ranges tested by the classifier, in the order it tests them. */
  const Table: seq<Band> := [
    Band(0, Some(0), ClearSky),
    Band(1, Some(3), PartlyCloudy),
    Band(45, Some(48), Fog),
    Band(51, Some(67), DrizzleRain),
    Band(71, Some(77), Snow),
    Band(80, Some(82), Showers),
    Band(95, None, Thunderstorm)
  ]

  /** First-match lookup in a table of bands, falling back to Unknown. */
  function Lookup(t: seq<Band>, code: int): Condition {
    if |t| == 0 then Unknown
    else if Contains(t[0], code) then t[0].condition
    else Lookup(t[1..], code)
  }

  /** No code lies in two disjoint bands. */
  lemma DisjointBandsShareNoCode(a: Band, b: Band, code: int)
    requires Disjoint(a, b)
    ensures !(Contains(a, code) && Contains(b, code))
  {
  }

  /** The bands the classifier tests are pairwise disjoint. */
  lemma TableIsPairwiseDisjoint()
    ensures PairwiseDisjoint(Table)
  {
  }

  /** The if-chain is the first-match lookup in Table. */
  lemma ClassifierIsTableLookup(code: int)
    ensures GetWeatherCondition(code) == Lookup(Table, code)
  {
    TableIsPairwiseDisjoint();
    if j :| 0 <= j < |Table| && Contains(Table[j], code) {
      LookupFindsContainingBand(Table, code, j);
    } else {
      assert !Contains(Table[0], code) && !Contains(Table[1], code) && !Contains(Table[2], code);
      assert !Contains(Table[3], code) && !Contains(Table[4], code) && !Contains(Table[5], code);
      assert !Contains(Table[6], code);
      LookupWithoutMatch(Table, code);
    }
  }

  /** In a table of disjoint bands, a band containing the code decides the lookup, wherever it stands. */
  lemma {:induction false} LookupFindsContainingBand(t: seq<Band>, code: int, i: int)
    requires PairwiseDisjoint(t)
    requires 0 <= i < |t| && Contains(t[i], code)
    ensures Lookup(t, code) == t[i].condition
  {
    if i == 0 {
    } else {
      DisjointBandsShareNoCode(t[0], t[i], code);
      assert PairwiseDisjoint(t[1..]) by {
        forall k, l | 0 <= k < l < |t[1..]| ensures Disjoint(t[1..][k], t[1..][l]) {
          assert t[1..][k] == t[k + 1] && t[1..][l] == t[l + 1];
        }
      }
      LookupFindsContainingBand(t[1..], code, i - 1);
    }
  }

  /** When no band contains the code the lookup falls back to Unknown. */
  lemma {:induction false} LookupWithoutMatch(t: seq<Band>, code: int)
    requires forall i :: 0 <= i < |t| ==> !Contains(t[i], code)
    ensures Lookup(t, code) == Unknown
  {
    if |t| > 0 {
      assert forall i :: 0 <= i < |t[1..]| ==> t[1..][i] == t[i + 1];
      LookupWithoutMatch(t[1..], code);
    }
  }

  /** At most one of the source's bands contains a given code. */
  lemma OneTableBandPerCode(code: int, j: int, k: int)
    requires 0 <= j < |Table| && 0 <= k < |Table|
    requires Contains(Table[j], code) && Contains(Table[k], code)
    ensures j == k
  {
  }

  /**
    First-match lookup in any chain built from the source's bands, in any
    order and with repeats allowed, stops at the one band that contains the
    code, as long as that band occurs in the chain.
  */
  lemma {:induction false} LookupAmongTableBands(u: seq<Band>, code: int, j: int)
    requires forall b :: b in u ==> b in Table
    requires 0 <= j < |Table| && Contains(Table[j], code) && Table[j] in u
    ensures Lookup(u, code) == Table[j].condition
  {
    assert u[0] in Table;
    var k :| 0 <= k < |Table| && Table[k] == u[0];
    if Contains(u[0], code) {
      OneTableBandPerCode(code, j, k);
    } else {
      assert Table[j] in u[1..] by {
        var i :| 0 <= i < |u| && u[i] == Table[j];
        assert i != 0;
        assert u[1..][i - 1] == Table[j];
      }
      LookupAmongTableBands(u[1..], code, j);
    }
  }

  /**
    The order of the tests never changes the result: any arrangement of the
    source's seven ranges, even one that tests a range twice, classifies every
    code as the source's if-chain does.
  */
  lemma TestOrderIsIrrelevant(u: seq<Band>, code: int)
    requires forall b :: b in u <==> b in Table
    ensures Lookup(u, code) == GetWeatherCondition(code)
  {
    ClassifierIsTableLookup(code);
    TableIsPairwiseDisjoint();
    if j :| 0 <= j < |Table| && Contains(Table[j], code) {
      LookupFindsContainingBand(Table, code, j);
      LookupAmongTableBands(u, code, j);
    } else {
      forall i | 0 <= i < |u| ensures !Contains(u[i], code) {
        assert u[i] in Table;
        var j :| 0 <= j < |Table| && Table[j] == u[i];
      }
      LookupWithoutMatch(Table, code);
      LookupWithoutMatch(u, code);
    }
  }

  /** A chain that repeats a test is not pairwise disjoint, yet TestOrderIsIrrelevant covers it. */
  lemma RepeatedTestIsNotDisjoint()
    ensures !PairwiseDisjoint(Table + [Table[0]])
  {
    var u := Table + [Table[0]];
    assert u[0] == u[7] && !Disjoint(u[0], u[7]);
  }

  /**
    Every condition is produced by exactly the codes of its band: a code lies in
    a band of the table if and only if it is classified as that band's condition.
  */
  lemma ClassifiedByContainingBand(code: int, i: int)
    requires 0 <= i < |Table|
    ensures Contains(Table[i], code) <==> GetWeatherCondition(code) == Table[i].condition
  {
  }

  /** Unknown is exactly the codes that fall in no band: the negatives and the gaps 4..44, 49..50, 68..70, 78..79, 83..94. */
  lemma UnknownIffInGap(code: int)
    ensures GetWeatherCondition(code) == Unknown <==>
      (code < 0 || 4 <= code <= 44 || 49 <= code <= 50 || 68 <= code <= 70
       || 78 <= code <= 79 || 83 <= code <= 94)
    ensures GetWeatherCondition(code) == Unknown <==>
      (forall i :: 0 <= i < |Table| ==> !Contains(Table[i], code))
  {
    ClassifierIsTableLookup(code);
    TableIsPairwiseDisjoint();
    if j :| 0 <= j < |Table| && Contains(Table[j], code) {
      LookupFindsContainingBand(Table, code, j);
    } else {
      LookupWithoutMatch(Table, code);
    }
  }

  /** Code 0 alone is clear sky; codes 1 to 3 are partly cloudy. */
  lemma ClearAndPartlyCloudy(code: int)
    ensures GetWeatherCondition(code) == ClearSky <==> code == 0
    ensures GetWeatherCondition(code) == PartlyCloudy <==> 1 <= code <= 3
  {
  }

  /** Every code from 95 up is a thunderstorm, with no upper bound. */
  lemma ThunderstormHasNoUpperBound(code: int)
    ensures GetWeatherCondition(code) == Thunderstorm <==> code >= 95
  {
  }

  /** The freezing drizzle and freezing rain codes count as drizzle or rain; the snow showers codes fall into a gap. */
  lemma CoarseCodes()
    ensures GetWeatherCondition(56) == DrizzleRain && GetWeatherCondition(57) == DrizzleRain
    ensures GetWeatherCondition(66) == DrizzleRain && GetWeatherCondition(67) == DrizzleRain
    ensures GetWeatherCondition(85) == Unknown && GetWeatherCondition(86) == Unknown
    ensures GetWeatherCondition(999) == Thunderstorm
  {
  }

  /** The label alone determines the icon. */
  lemma LabelDeterminesIcon(a: int, b: int)
    ensures GetWeatherCondition(a).labelText == GetWeatherCondition(b).labelText
        ==> GetWeatherCondition(a).iconName == GetWeatherCondition(b).iconName
  {
  }

  /** The eight conditions have eight distinct labels. */
  lemma LabelsAreDistinct()
    ensures forall i, j :: 0 <= i < j < |AllConditions| ==> AllConditions[i].labelText != AllConditions[j].labelText
  {
  }
}
