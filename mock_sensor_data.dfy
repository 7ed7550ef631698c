/** The agronomic evaluation engine of the dashboard: the three-band status
    classifier, the snapshot builder that classifies the built-in readings for
    a crop, and the recommendation engine whose four rules feed a stable sort
    by priority. */
module MockSensorData {
  import opened Common
  import opened SensorTypes
  import opened CropPresets

  // ---------------------------------------------------------------------------
  // Status classifier
  // ---------------------------------------------------------------------------

  /** How far outside the optimal range a value still only warns: 30 % of the
      range's width. A zero-width range has no margin at all. */
  function Margin(optimal: Range): (m: real)
    ensures optimal.min <= optimal.max ==> m >= 0.0
    ensures m == 0.0 <==> optimal.min == optimal.max
  {
    (optimal.max - optimal.min) * 0.3
  }

  /** `getStatus`: optimal inside the range (bounds included), warning inside
      the range widened by the margin on both sides, critical beyond. */
  function GetStatus(value: real, optimal: Range): (s: SensorStatus)
    ensures s == Optimal <==> optimal.min <= value <= optimal.max
    ensures s == Warning <==>
      !(optimal.min <= value <= optimal.max) &&
      optimal.min - Margin(optimal) <= value <= optimal.max + Margin(optimal)
    ensures s == Critical <==>
      !(optimal.min - Margin(optimal) <= value <= optimal.max + Margin(optimal))
  {
    if value >= optimal.min && value <= optimal.max then Optimal
    else
      var margin := (optimal.max - optimal.min) * 0.3;
      if value >= optimal.min - margin && value <= optimal.max + margin then Warning
      else Critical
  }

  /** An independent description of the bands: the distance of a value from
      the range (0 inside it). */
  function DistanceOutside(value: real, optimal: Range): real
  {
    if value < optimal.min then optimal.min - value
    else if value > optimal.max then value - optimal.max
    else 0.0
  }

  function Severity(s: SensorStatus): nat
  {
    match s
    case Optimal => 0
    case Warning => 1
    case Critical => 2
  }

  /** For a proper range the status is decided by the distance alone:
      0 is optimal, up to the margin is warning, beyond is critical. */
  lemma StatusByDistance(value: real, optimal: Range)
    requires optimal.min <= optimal.max
    ensures GetStatus(value, optimal) ==
      if DistanceOutside(value, optimal) == 0.0 then Optimal
      else if DistanceOutside(value, optimal) <= Margin(optimal) then Warning
      else Critical
  {
  }

  /** Moving further away from a proper range never improves the status. */
  lemma StatusMonotoneInDistance(v1: real, v2: real, optimal: Range)
    requires optimal.min <= optimal.max
    requires DistanceOutside(v1, optimal) <= DistanceOutside(v2, optimal)
    ensures Severity(GetStatus(v1, optimal)) <= Severity(GetStatus(v2, optimal))
  {
    StatusByDistance(v1, optimal);
    StatusByDistance(v2, optimal);
  }

  /** A zero-width range has no warning band: every other value is critical. */
  lemma ZeroWidthRange(value: real, optimal: Range)
    requires optimal.min == optimal.max
    ensures GetStatus(value, optimal) == (if value == optimal.min then Optimal else Critical)
  {
  }

  /** Example: rice's pH range is {5.5, 6.5}, so its margin is 0.3 and the
      warning band below it is [5.2, 5.5): 5.3 warns, 5.0 is already critical. */
  lemma RicePhExamples()
    ensures GetOptimalRange("rice", "ph") == Range(5.5, 6.5)
    ensures GetStatus(5.3, GetOptimalRange("rice", "ph")) == Warning
    ensures GetStatus(5.0, GetOptimalRange("rice", "ph")) == Critical
  {
    KnownCropRange(0, "ph");
    assert Presets[0].id == "rice";
  }

  // ---------------------------------------------------------------------------
  // Snapshot builder
  // ---------------------------------------------------------------------------

  /** The built-in reading of one channel and its display metadata. */
  datatype BaseSensor = BaseSensor(value: real, unit: string, name: string, icon: string, min: real, max: real)

  /** `baseSensorValues`, in its declaration order (the order `Object.entries`
      yields for these keys). */
  const BaseSensorValues: seq<(string, BaseSensor)> := [
    ("moisture", BaseSensor(42.0, "%", "Soil Moisture", "Droplets", 0.0, 100.0)),
    ("soil-temp", BaseSensor(24.0, "°C", "Soil Temperature", "Thermometer", 0.0, 50.0)),
    ("ph", BaseSensor(5.4, "", "Soil pH", "FlaskConical", 0.0, 14.0)),
    ("ec", BaseSensor(1.8, "dS/m", "Electrical Conductivity", "Zap", 0.0, 5.0)),
    ("nitrogen", BaseSensor(28.0, "mg/kg", "Nitrogen (N)", "Leaf", 0.0, 150.0)),
    ("phosphorus", BaseSensor(32.0, "mg/kg", "Phosphorus (P)", "Sparkles", 0.0, 100.0)),
    ("potassium", BaseSensor(45.0, "mg/kg", "Potassium (K)", "Gem", 0.0, 100.0)),
    ("humidity", BaseSensor(68.0, "%", "Ambient Humidity", "CloudRain", 0.0, 100.0)),
    ("ambient-temp", BaseSensor(31.0, "°C", "Ambient Temperature", "Sun", 0.0, 50.0))
  ]

  /** The built-in values of the four channels the suggestion rules read. */
  lemma RuleChannelValues()
    ensures BaseSensorValues[0].1.value == 42.0 && BaseSensorValues[2].1.value == 5.4
    ensures BaseSensorValues[4].1.value == 28.0 && BaseSensorValues[8].1.value == 31.0
  {
  }

  const HistoryLength: nat := 24

  /** `generateHistory`: 24 samples `max(0, base + (draw - 0.5) * variance * 2)`,
      where each `draw` is what `Math.random` returned for that sample. */
  function GenerateHistory(base: real, variance: real, draws: seq<real>): (h: seq<real>)
    requires |draws| == HistoryLength
    ensures |h| == HistoryLength
    ensures forall i :: 0 <= i < |h| ==> h[i] >= 0.0
    ensures forall i :: 0 <= i < |h| && base >= 0.0 && variance >= 0.0 && 0.0 <= draws[i] < 1.0 ==>
      base - variance <= h[i] <= base + variance
  {
    seq(|draws|, i requires 0 <= i < |draws| => Sample(base, variance, draws[i]))
  }

  /** One sample of the history: the base moved by the draw, floored at 0. */
  function Sample(base: real, variance: real, draw: real): (v: real)
    ensures v >= 0.0
    ensures base >= 0.0 && variance >= 0.0 && 0.0 <= draw < 1.0 ==> base - variance <= v <= base + variance
  {
    var v := Max(0.0, base + (draw - 0.5) * variance * 2.0);
    if base >= 0.0 && variance >= 0.0 && 0.0 <= draw < 1.0 then
      JitterBound(draw, variance);
      v
    else
      v
  }

  /** One draw moves a sample by at most the variance either way. */
  lemma JitterBound(draw: real, variance: real)
    requires 0.0 <= draw < 1.0 && variance >= 0.0
    ensures -variance <= (draw - 0.5) * variance * 2.0 <= variance
  {
    var t := (draw - 0.5) * 2.0;
    assert (draw - 0.5) * variance * 2.0 == t * variance;
    NonNegativeProduct(1.0 - t, variance);
    NonNegativeProduct(t + 1.0, variance);
  }

  lemma NonNegativeProduct(a: real, b: real)
    requires a >= 0.0 && b >= 0.0
    ensures a * b >= 0.0
  {
  }

  /** One reading of the snapshot: the base data, the crop's range for the
      channel, and the status the classifier gives the value against it. */
  function MakeReading(cropType: string, id: string, base: BaseSensor, draws: seq<real>, now: real): (r: SensorData)
    requires |draws| == HistoryLength
    ensures r.id == id && r.value == base.value && r.lastUpdated == now
    ensures r.optimal == GetOptimalRange(cropType, id) && r.status == GetStatus(r.value, r.optimal)
    ensures |r.history| == HistoryLength && forall k :: 0 <= k < |r.history| ==> r.history[k] >= 0.0
    ensures base.value >= 0.0 ==> forall k :: 0 <= k < |r.history| && 0.0 <= draws[k] < 1.0 ==>
      base.value * 0.85 <= r.history[k] <= base.value * 1.15
  {
    var optimal := GetOptimalRange(cropType, id);
    SensorData(id, base.name, base.value, base.unit, GetStatus(base.value, optimal), base.icon,
               base.min, base.max, optimal, GenerateHistory(base.value, base.value * 0.15, draws), now)
  }

  /** Random draws for every sample of every channel. */
  predicate ValidDraws(draws: seq<seq<real>>)
  {
    |draws| == |BaseSensorValues| && forall i :: 0 <= i < |draws| ==> |draws[i]| == HistoryLength
  }

  /** `getSensorData`: one reading per channel, in table order; every reading's
      status is the classifier's verdict on its value and the crop's range. */
  function GetSensorData(cropType: string, draws: seq<seq<real>>, now: real): (data: seq<SensorData>)
    requires ValidDraws(draws)
    ensures |data| == |BaseSensorValues|
    ensures forall i :: 0 <= i < |data| ==>
      var base := BaseSensorValues[i].1;
      && data[i].id == BaseSensorValues[i].0
      && data[i].value == base.value && data[i].unit == base.unit && data[i].name == base.name
      && data[i].icon == base.icon && data[i].min == base.min && data[i].max == base.max
      && data[i].optimal == GetOptimalRange(cropType, data[i].id)
      && data[i].status == GetStatus(data[i].value, data[i].optimal)
      && |data[i].history| == HistoryLength
      && (forall k :: 0 <= k < |data[i].history| ==> data[i].history[k] >= 0.0)
      && data[i].lastUpdated == now
  {
    seq(|BaseSensorValues|, i requires 0 <= i < |BaseSensorValues| =>
      MakeReading(cropType, BaseSensorValues[i].0, BaseSensorValues[i].1, draws[i], now))
  }

  /** The snapshot lists exactly the channels every crop preset defines, in
      the same order. */
  lemma SnapshotChannels(cropType: string, draws: seq<seq<real>>, now: real)
    requires ValidDraws(draws)
    ensures |GetSensorData(cropType, draws, now)| == |SensorIds|
    ensures forall i :: 0 <= i < |SensorIds| ==> GetSensorData(cropType, draws, now)[i].id == SensorIds[i]
  {
    assert |BaseSensorValues| == |SensorIds|;
    assert forall i :: 0 <= i < |SensorIds| ==> BaseSensorValues[i].0 == SensorIds[i];
  }

  /** The notification badge: how many readings are not optimal. */
  function IssueCount(data: seq<SensorData>): (n: nat)
    ensures n <= |data|
    ensures n == 0 <==> forall i :: 0 <= i < |data| ==> data[i].status == Optimal
  {
    if data == [] then 0
    else
      var rest := IssueCount(data[1..]);
      assert (forall i :: 0 <= i < |data| ==> data[i].status == Optimal) <==>
             data[0].status == Optimal && (forall i :: 0 <= i < |data[1..]| ==> data[1..][i].status == Optimal) by {
        if forall i :: 0 <= i < |data[1..]| ==> data[1..][i].status == Optimal {
          forall i | 1 <= i < |data| ensures data[i].status == Optimal {
            assert data[i] == data[1..][i - 1];
          }
        }
      }
      (if data[0].status != Optimal then 1 else 0) + rest
  }

  /** Counting issues distributes over concatenation. */
  lemma {:induction false} IssueCountAppend(a: seq<SensorData>, b: seq<SensorData>)
    ensures IssueCount(a + b) == IssueCount(a) + IssueCount(b)
  {
    if a != [] {
      assert (a + b)[0] == a[0] && (a + b)[1..] == a[1..] + b;
      IssueCountAppend(a[1..], b);
      var head := if a[0].status != Optimal then 1 else 0;
      assert IssueCount(a + b) == head + IssueCount(a[1..] + b);
      assert IssueCount(a) == head + IssueCount(a[1..]);
    } else {
      assert a + b == b;
    }
  }

  /** A single reading is one issue exactly when it is not optimal. */
  lemma IssueCountSingle(x: SensorData)
    ensures IssueCount([x]) == if x.status != Optimal then 1 else 0
  {
    assert [x][1..] == [];
  }

  // ---------------------------------------------------------------------------
  // Recommendation engine
  // ---------------------------------------------------------------------------

  /** The first reading with that id (`sensorData.find(s => s.id === id)`). */
  function FindSensor(data: seq<SensorData>, id: string): (r: Option<SensorData>)
    ensures r.None? <==> forall i :: 0 <= i < |data| ==> data[i].id != id
    ensures r.Some? ==> exists i :: 0 <= i < |data| && data[i] == r.value && r.value.id == id &&
                                   forall j :: 0 <= j < i ==> data[j].id != id
  {
    Find(data, (s: SensorData) => s.id == id)
  }

  /** A critical reading gets a high priority, a warning a medium one. */
  function PriorityFor(status: SensorStatus): (p: Priority)
    ensures p == High <==> status == Critical
    ensures p != Low
  {
    if status == Critical then High else Medium
  }

  /** pH rule: a non-optimal pH asks for lime when below the range, for sulfur
      or organic matter otherwise. */
  function PhRule(crop: CropPreset, ph: Option<SensorData>): (r: seq<AISuggestion>)
    ensures |r| <= 1
    ensures r != [] <==> ph.Some? && ph.value.status != Optimal
    ensures r != [] ==>
      && r[0].id == "ph-correction" && r[0].kind == Ph && r[0].icon == "FlaskConical"
      && (r[0].advice == AddLime <==> ph.value.value < ph.value.optimal.min)
      && r[0].advice in {AddLime, LowerPh}
      && (r[0].priority == High <==> ph.value.status == Critical) && r[0].priority != Low
      && r[0].facts == TextFacts(crop.name, ph.value.value, ph.value.optimal)
  {
    if ph.Some? && ph.value.status != Optimal then
      var s := ph.value;
      var isAcidic := s.value < s.optimal.min;
      [AISuggestion("ph-correction", Ph,
                    if isAcidic then "Soil pH Too Acidic" else "Soil pH Too Alkaline",
                    if isAcidic then AddLime else LowerPh,
                    TextFacts(crop.name, s.value, s.optimal), PriorityFor(s.status), "FlaskConical")]
    else []
  }

  /** Nitrogen rule: only a deficiency is reported; the advice is specific to
      rice when the requested crop id is literally "rice". */
  function NitrogenRule(cropType: string, crop: CropPreset, n: Option<SensorData>): (r: seq<AISuggestion>)
    ensures |r| <= 1
    ensures r != [] <==> n.Some? && n.value.status != Optimal && n.value.value < n.value.optimal.min
    ensures n.Some? && n.value.value >= n.value.optimal.min ==> r == []
    ensures r != [] ==>
      && r[0].id == "nitrogen-supplement" && r[0].kind == Fertilizer && r[0].icon == "Leaf"
      && (r[0].advice == RiceUrea <==> cropType == "rice")
      && r[0].advice in {RiceUrea, UreaOrCompost}
      && (r[0].priority == High <==> n.value.status == Critical) && r[0].priority != Low
      && r[0].facts == TextFacts(crop.name, n.value.value, n.value.optimal)
  {
    if n.Some? && n.value.status != Optimal && n.value.value < n.value.optimal.min then
      var s := n.value;
      [AISuggestion("nitrogen-supplement", Fertilizer, "Nitrogen Supplementation Required",
                    if cropType == "rice" then RiceUrea else UreaOrCompost,
                    TextFacts(crop.name, s.value, s.optimal), PriorityFor(s.status), "Leaf")]
    else []
  }

  /** Irrigation rule: always one suggestion when there is a moisture reading. */
  function IrrigationRule(crop: CropPreset, m: Option<SensorData>): (r: seq<AISuggestion>)
    ensures |r| == (if m.Some? then 1 else 0)
    ensures r != [] ==>
      && r[0].kind == Irrigation && r[0].icon == "Droplets"
      && r[0].facts == TextFacts(crop.name, m.value.value, m.value.optimal)
      && (r[0].id == "irrigation-status" <==> m.value.status == Optimal)
      && (r[0].id != "irrigation-status" ==> r[0].id == "irrigation-action")
      && (m.value.status == Optimal ==> r[0].priority == Low && r[0].advice == NoIrrigationChange)
      && (m.value.status != Optimal ==>
            && (r[0].priority == High <==> m.value.status == Critical) && r[0].priority != Low
            && (r[0].advice == IncreaseIrrigation <==> m.value.value < m.value.optimal.min)
            && r[0].advice in {IncreaseIrrigation, ReduceWatering})
  {
    if m.None? then []
    else
      var s := m.value;
      if s.status == Optimal then
        [AISuggestion("irrigation-status", Irrigation, "Irrigation Status: Optimal", NoIrrigationChange,
                      TextFacts(crop.name, s.value, s.optimal), Low, "Droplets")]
      else
        var isLow := s.value < s.optimal.min;
        [AISuggestion("irrigation-action", Irrigation,
                      if isLow then "Irrigation Required" else "Reduce Watering",
                      if isLow then IncreaseIrrigation else ReduceWatering,
                      TextFacts(crop.name, s.value, s.optimal), PriorityFor(s.status), "Droplets")]
  }

  /** Temperature rule: a non-optimal ambient temperature is hot when above
      the range, cold otherwise. */
  function TemperatureRule(crop: CropPreset, t: Option<SensorData>): (r: seq<AISuggestion>)
    ensures |r| <= 1
    ensures r != [] <==> t.Some? && t.value.status != Optimal
    ensures r != [] ==>
      && r[0].id == "temp-advisory" && r[0].kind == General && r[0].icon == "Sun"
      && (r[0].advice == ShadeAndMulch <==> t.value.value > t.value.optimal.max)
      && r[0].advice in {ShadeAndMulch, RowCovers}
      && (r[0].priority == High <==> t.value.status == Critical) && r[0].priority != Low
      && r[0].facts == TextFacts(crop.name, t.value.value, t.value.optimal)
  {
    if t.Some? && t.value.status != Optimal then
      var s := t.value;
      var isHot := s.value > s.optimal.max;
      [AISuggestion("temp-advisory", General,
                    if isHot then "High Temperature Advisory" else "Low Temperature Advisory",
                    if isHot then ShadeAndMulch else RowCovers,
                    TextFacts(crop.name, s.value, s.optimal), PriorityFor(s.status), "Sun")]
    else []
  }

  /** The suggestions in rule order, before sorting, for the crop record
      `crop` that `cropType` selected. */
  function RuleSuggestions(cropType: string, crop: CropPreset, data: seq<SensorData>): (r: seq<AISuggestion>)
    ensures |r| <= 4
    ensures FindSensor(data, "moisture").Some? ==> r != []
  {
    PhRule(crop, FindSensor(data, "ph"))
      + NitrogenRule(cropType, crop, FindSensor(data, "nitrogen"))
      + IrrigationRule(crop, FindSensor(data, "moisture"))
      + TemperatureRule(crop, FindSensor(data, "ambient-temp"))
  }

  function Rank(p: Priority): nat
  {
    match p
    case High => 0
    case Medium => 1
    case Low => 2
  }

  /** The part of a single suggestion that filtering by `p` keeps. */
  function Keep(x: AISuggestion, p: Priority): seq<AISuggestion>
  {
    if x.priority == p then [x] else []
  }

  /** The suggestions of one priority, in their original order. */
  function WithPriority(s: seq<AISuggestion>, p: Priority): (r: seq<AISuggestion>)
    ensures |r| <= |s|
  {
    if s == [] then [] else Keep(s[0], p) + WithPriority(s[1..], p)
  }

  /** What `suggestions.sort((a, b) => rank(a) - rank(b))` returns. The
      library sort is stable, so with a three-valued key the result is the
      high ones, then the medium ones, then the low ones, each group in its
      original order; `StableSortIsUnique` shows no other order qualifies. */
  function SortByPriority(s: seq<AISuggestion>): (r: seq<AISuggestion>)
    ensures |r| == |s|
  {
    WithPriorityMultiset(s);
    assert |multiset(WithPriority(s, High) + WithPriority(s, Medium) + WithPriority(s, Low))| == |multiset(s)|;
    WithPriority(s, High) + WithPriority(s, Medium) + WithPriority(s, Low)
  }

  /** What `getAISuggestions` returns: the rules' output sorted by priority. */
  function Suggestions(cropType: string, crop: CropPreset, data: seq<SensorData>): (r: seq<AISuggestion>)
    ensures |r| <= 4
    ensures FindSensor(data, "moisture").Some? ==> r != []
  {
    SortByPriority(RuleSuggestions(cropType, crop, data))
  }

  ghost predicate SortedByRank(r: seq<AISuggestion>)
  {
    forall i, j :: 0 <= i < j < |r| ==> Rank(r[i].priority) <= Rank(r[j].priority)
  }

  /** `r` keeps the relative order of the suggestions of each priority in `s`. */
  ghost predicate StableFor(r: seq<AISuggestion>, s: seq<AISuggestion>)
  {
    forall p: Priority :: WithPriority(r, p) == WithPriority(s, p)
  }

  lemma {:induction false} WithPriorityAppend(a: seq<AISuggestion>, b: seq<AISuggestion>, p: Priority)
    ensures WithPriority(a + b, p) == WithPriority(a, p) + WithPriority(b, p)
  {
    if a == [] {
      assert a + b == b;
    } else {
      calc {
        WithPriority(a + b, p);
      == { assert (a + b)[0] == a[0] && (a + b)[1..] == a[1..] + b; }
        Keep(a[0], p) + WithPriority(a[1..] + b, p);
      == { WithPriorityAppend(a[1..], b, p); }
        Keep(a[0], p) + (WithPriority(a[1..], p) + WithPriority(b, p));
      }
    }
  }

  /** Filtering keeps only suggestions of the priority asked for. */
  lemma {:induction false} WithPriorityOnly(s: seq<AISuggestion>, p: Priority)
    ensures forall i :: 0 <= i < |WithPriority(s, p)| ==> WithPriority(s, p)[i].priority == p
  {
    if s != [] {
      WithPriorityOnly(s[1..], p);
      var w := WithPriority(s, p);
      var head := Keep(s[0], p);
      forall i | 0 <= i < |w| ensures w[i].priority == p {
        if i >= |head| {
          assert w[i] == WithPriority(s[1..], p)[i - |head|];
        }
      }
    }
  }

  /** Filtering only keeps elements of the original sequence. */
  lemma {:induction false} WithPrioritySubset(s: seq<AISuggestion>, p: Priority)
    ensures forall x :: x in WithPriority(s, p) ==> x in s
  {
    if s != [] {
      WithPrioritySubset(s[1..], p);
      assert s == [s[0]] + s[1..];
    }
  }

  lemma {:induction false} WithPriorityTwice(s: seq<AISuggestion>, p: Priority, q: Priority)
    ensures WithPriority(WithPriority(s, q), p) == if p == q then WithPriority(s, p) else []
  {
    if s != [] {
      WithPriorityTwice(s[1..], p, q);
      var head := Keep(s[0], q);
      WithPriorityAppend(head, WithPriority(s[1..], q), p);
    }
  }

  lemma {:induction false} WithPriorityNone(s: seq<AISuggestion>, p: Priority)
    requires forall i :: 0 <= i < |s| ==> s[i].priority != p
    ensures WithPriority(s, p) == []
  {
    if s != [] {
      WithPriorityNone(s[1..], p);
    }
  }

  lemma {:induction false} WithPriorityMultiset(s: seq<AISuggestion>)
    ensures multiset(WithPriority(s, High)) + multiset(WithPriority(s, Medium)) + multiset(WithPriority(s, Low))
            == multiset(s)
  {
    if s != [] {
      var t := s[1..];
      WithPriorityMultiset(t);
      assert s == [s[0]] + t;
      assert multiset(s) == multiset{s[0]} + multiset(t);
      match s[0].priority
      case High =>
        assert WithPriority(s, High) == [s[0]] + WithPriority(t, High);
        assert WithPriority(s, Medium) == WithPriority(t, Medium);
        assert WithPriority(s, Low) == WithPriority(t, Low);
      case Medium =>
        assert WithPriority(s, High) == WithPriority(t, High);
        assert WithPriority(s, Medium) == [s[0]] + WithPriority(t, Medium);
        assert WithPriority(s, Low) == WithPriority(t, Low);
      case Low =>
        assert WithPriority(s, High) == WithPriority(t, High);
        assert WithPriority(s, Medium) == WithPriority(t, Medium);
        assert WithPriority(s, Low) == [s[0]] + WithPriority(t, Low);
    }
  }

  /** The tail of a rank-sorted sequence is rank-sorted, and no element of
      it ranks before the head. */
  lemma SortedTail(r: seq<AISuggestion>)
    requires r != [] && SortedByRank(r)
    ensures SortedByRank(r[1..])
    ensures forall i :: 0 <= i < |r| - 1 ==> Rank(r[0].priority) <= Rank(r[1..][i].priority)
  {
    var t := r[1..];
    forall i, j | 0 <= i < j < |t| ensures Rank(t[i].priority) <= Rank(t[j].priority) {
      assert t[i] == r[i + 1] && t[j] == r[j + 1];
    }
  }

  /** Where the head of a sequence goes when its tail is `h + m + l`. */
  lemma ConsOntoParts<T>(r: seq<T>, h: seq<T>, m: seq<T>, l: seq<T>)
    requires r != [] && r[1..] == h + m + l
    ensures r == ([r[0]] + h) + m + l
    ensures h == [] ==> r == h + ([r[0]] + m) + l
    ensures h == [] && m == [] ==> r == h + m + ([r[0]] + l)
  {
    assert r == [r[0]] + r[1..];
  }

  /** One step of `SortedSplits`: a sequence whose tail is split is split,
      provided nothing in the tail ranks before the head. */
  lemma SplitsCons(r: seq<AISuggestion>)
    requires r != []
    requires r[1..] == WithPriority(r[1..], High) + WithPriority(r[1..], Medium) + WithPriority(r[1..], Low)
    requires r[0].priority != High ==> WithPriority(r[1..], High) == []
    requires r[0].priority == Low ==> WithPriority(r[1..], Medium) == []
    ensures r == WithPriority(r, High) + WithPriority(r, Medium) + WithPriority(r, Low)
  {
    var x, t := r[0], r[1..];
    var h, m, l := WithPriority(t, High), WithPriority(t, Medium), WithPriority(t, Low);
    ConsOntoParts(r, h, m, l);
    match x.priority
    case High =>
      assert WithPriority(r, High) == [x] + h;
      assert WithPriority(r, Medium) == m;
      assert WithPriority(r, Low) == l;
    case Medium =>
      assert WithPriority(r, High) == h;
      assert WithPriority(r, Medium) == [x] + m;
      assert WithPriority(r, Low) == l;
    case Low =>
      assert WithPriority(r, High) == h;
      assert WithPriority(r, Medium) == m;
      assert WithPriority(r, Low) == [x] + l;
  }

  /** A rank-sorted sequence is its high part, then its medium part, then its low part. */
  lemma {:induction false} SortedSplits(r: seq<AISuggestion>)
    requires SortedByRank(r)
    ensures r == WithPriority(r, High) + WithPriority(r, Medium) + WithPriority(r, Low)
  {
    if r != [] {
      var t := r[1..];
      SortedTail(r);
      SortedSplits(t);
      if r[0].priority != High {
        WithPriorityNone(t, High);
      }
      if r[0].priority == Low {
        WithPriorityNone(t, Medium);
      }
      SplitsCons(r);
    }
  }

  /** The sorted suggestions are ordered by rank: high, medium, low. */
  lemma SortByPrioritySorted(s: seq<AISuggestion>)
    ensures SortedByRank(SortByPriority(s))
  {
    var r := SortByPriority(s);
    var h, m, l := WithPriority(s, High), WithPriority(s, Medium), WithPriority(s, Low);
    WithPriorityOnly(s, High);
    WithPriorityOnly(s, Medium);
    WithPriorityOnly(s, Low);
    forall k | 0 <= k < |r|
      ensures Rank(r[k].priority) == if k < |h| then 0 else if k < |h| + |m| then 1 else 2
    {
      if k < |h| {
        assert r[k] == h[k];
      } else if k < |h| + |m| {
        assert r[k] == m[k - |h|];
      } else {
        assert r[k] == l[k - |h| - |m|];
      }
    }
  }

  /** Sorting loses and adds nothing. */
  lemma SortByPriorityPermutes(s: seq<AISuggestion>)
    ensures multiset(SortByPriority(s)) == multiset(s)
    ensures |SortByPriority(s)| == |s|
    ensures forall x :: x in SortByPriority(s) <==> x in s
  {
    WithPriorityMultiset(s);
    assert multiset(SortByPriority(s)) == multiset(s);
    assert |multiset(SortByPriority(s))| == |multiset(s)|;
    forall x ensures x in SortByPriority(s) <==> x in s {
      assert x in SortByPriority(s) <==> x in multiset(SortByPriority(s));
      assert x in s <==> x in multiset(s);
    }
  }

  /** Equal priorities keep their original order. */
  lemma SortByPriorityStable(s: seq<AISuggestion>)
    ensures StableFor(SortByPriority(s), s)
  {
    forall p: Priority ensures WithPriority(SortByPriority(s), p) == WithPriority(s, p) {
      var h, m, l := WithPriority(s, High), WithPriority(s, Medium), WithPriority(s, Low);
      WithPriorityAppend(h + m, l, p);
      WithPriorityAppend(h, m, p);
      WithPriorityTwice(s, p, High);
      WithPriorityTwice(s, p, Medium);
      WithPriorityTwice(s, p, Low);
    }
  }

  /** Any rank-sorted sequence that keeps the order within each priority is
      exactly `SortByPriority(s)`, so this is what every stable sort returns. */
  lemma StableSortIsUnique(r: seq<AISuggestion>, s: seq<AISuggestion>)
    requires SortedByRank(r) && StableFor(r, s)
    ensures r == SortByPriority(s)
  {
    SortedSplits(r);
    assert WithPriority(r, High) == WithPriority(s, High);
    assert WithPriority(r, Medium) == WithPriority(s, Medium);
    assert WithPriority(r, Low) == WithPriority(s, Low);
  }

  /** The pH block of `getAISuggestions`: pushes a correction unless the pH is optimal. */
  method PushPhSuggestion(suggestions: seq<AISuggestion>, crop: CropPreset, phSensor: Option<SensorData>)
    returns (r: seq<AISuggestion>)
    ensures r == suggestions + PhRule(crop, phSensor)
  {
    r := suggestions;
    if phSensor.Some? && phSensor.value.status != Optimal {
      var s := phSensor.value;
      var isAcidic := s.value < s.optimal.min;
      r := r + [AISuggestion("ph-correction", Ph,
        if isAcidic then "Soil pH Too Acidic" else "Soil pH Too Alkaline",
        if isAcidic then AddLime else LowerPh,
        TextFacts(crop.name, s.value, s.optimal),
        if s.status == Critical then High else Medium, "FlaskConical")];
    }
  }

  /** The nitrogen block: pushes a supplement only for a low reading. */
  method PushNitrogenSuggestion(suggestions: seq<AISuggestion>, cropType: string, crop: CropPreset,
                                nitrogenSensor: Option<SensorData>)
    returns (r: seq<AISuggestion>)
    ensures r == suggestions + NitrogenRule(cropType, crop, nitrogenSensor)
  {
    r := suggestions;
    if nitrogenSensor.Some? && nitrogenSensor.value.status != Optimal {
      var s := nitrogenSensor.value;
      var isLow := s.value < s.optimal.min;
      if isLow {
        r := r + [AISuggestion("nitrogen-supplement", Fertilizer,
          "Nitrogen Supplementation Required",
          if cropType == "rice" then RiceUrea else UreaOrCompost,
          TextFacts(crop.name, s.value, s.optimal),
          if s.status == Critical then High else Medium, "Leaf")];
      }
    }
  }

  /** The irrigation block: pushes a status or an action for any moisture reading. */
  method PushIrrigationSuggestion(suggestions: seq<AISuggestion>, crop: CropPreset,
                                  moistureSensor: Option<SensorData>)
    returns (r: seq<AISuggestion>)
    ensures r == suggestions + IrrigationRule(crop, moistureSensor)
  {
    r := suggestions;
    if moistureSensor.Some? {
      var s := moistureSensor.value;
      if s.status == Optimal {
        r := r + [AISuggestion("irrigation-status", Irrigation,
          "Irrigation Status: Optimal", NoIrrigationChange,
          TextFacts(crop.name, s.value, s.optimal), Low, "Droplets")];
      } else {
        var isLow := s.value < s.optimal.min;
        r := r + [AISuggestion("irrigation-action", Irrigation,
          if isLow then "Irrigation Required" else "Reduce Watering",
          if isLow then IncreaseIrrigation else ReduceWatering,
          TextFacts(crop.name, s.value, s.optimal),
          if s.status == Critical then High else Medium, "Droplets")];
      }
    }
  }

  /** The temperature block: pushes an advisory unless the temperature is optimal. */
  method PushTemperatureSuggestion(suggestions: seq<AISuggestion>, crop: CropPreset,
                                   tempSensor: Option<SensorData>)
    returns (r: seq<AISuggestion>)
    ensures r == suggestions + TemperatureRule(crop, tempSensor)
  {
    r := suggestions;
    if tempSensor.Some? && tempSensor.value.status != Optimal {
      var s := tempSensor.value;
      var isHot := s.value > s.optimal.max;
      r := r + [AISuggestion("temp-advisory", General,
        if isHot then "High Temperature Advisory" else "Low Temperature Advisory",
        if isHot then ShadeAndMulch else RowCovers,
        TextFacts(crop.name, s.value, s.optimal),
        if s.status == Critical then High else Medium, "Sun")];
    }
  }

  /** `getAISuggestions`: evaluates the pH, nitrogen, irrigation and
      temperature rules in turn, pushing at most one suggestion each, then
      sorts by priority. */
  method GetAISuggestions(cropType: string, sensorData: seq<SensorData>) returns (result: seq<AISuggestion>)
    ensures result == Suggestions(cropType, GetCropPreset(cropType), sensorData)
  {
    var suggestions: seq<AISuggestion> := [];
    var crop := GetCropPreset(cropType);
    var phSensor := FindSensor(sensorData, "ph");
    suggestions := PushPhSuggestion(suggestions, crop, phSensor);
    assert suggestions == PhRule(crop, phSensor);
    var nitrogenSensor := FindSensor(sensorData, "nitrogen");
    suggestions := PushNitrogenSuggestion(suggestions, cropType, crop, nitrogenSensor);
    var moistureSensor := FindSensor(sensorData, "moisture");
    suggestions := PushIrrigationSuggestion(suggestions, crop, moistureSensor);
    var tempSensor := FindSensor(sensorData, "ambient-temp");
    suggestions := PushTemperatureSuggestion(suggestions, crop, tempSensor);
    result := SortByPriority(suggestions);
  }

  /** `mockRoverState`: the rover as the dashboard first shows it. */
  const MockRoverState: RoverState := RoverState(true, 78.0, 50.0, Position(0.0, 0.0))
}
