/** What the recommendation engine promises about its whole result: what
    `getAISuggestions` returns for a snapshot is `SortByPriority` of the four
    rules' output, so every fact below is about that sequence. */
module SuggestionProperties {
  import opened Common
  import opened SensorTypes
  import opened CropPresets
  import opened MockSensorData

  ghost predicate DistinctIds(s: seq<AISuggestion>)
  {
    forall i, j :: 0 <= i < j < |s| ==> s[i].id != s[j].id
  }

  /** In a sequence with distinct ids, different elements have different ids. */
  lemma DifferentElementsDifferentIds(s: seq<AISuggestion>, x: AISuggestion, y: AISuggestion)
    requires DistinctIds(s) && x in s && y in s && x != y
    ensures x.id != y.id
  {
    var i :| 0 <= i < |s| && s[i] == x;
    var j :| 0 <= j < |s| && s[j] == y;
    if i < j {
      assert s[i].id != s[j].id;
    } else {
      assert s[j].id != s[i].id;
    }
  }

  /** Filtering by priority keeps ids distinct. */
  lemma {:induction false} WithPriorityDistinct(s: seq<AISuggestion>, p: Priority)
    requires DistinctIds(s)
    ensures DistinctIds(WithPriority(s, p))
  {
    if s != [] {
      var t := s[1..];
      assert DistinctIds(t) by {
        forall i, j | 0 <= i < j < |t| ensures t[i].id != t[j].id {
          assert t[i] == s[i + 1] && t[j] == s[j + 1];
        }
      }
      WithPriorityDistinct(t, p);
      WithPrioritySubset(t, p);
      var w := WithPriority(t, p);
      if s[0].priority == p {
        assert WithPriority(s, p) == [s[0]] + w;
        forall k | 0 <= k < |w| ensures s[0].id != w[k].id {
          assert w[k] in t;
          var j :| 0 <= j < |t| && t[j] == w[k];
          assert s[j + 1] == w[k];
        }
      } else {
        assert WithPriority(s, p) == w;
      }
    }
  }

  /** Sorting by priority keeps ids distinct. */
  lemma SortDistinct(s: seq<AISuggestion>)
    requires DistinctIds(s)
    ensures DistinctIds(SortByPriority(s))
  {
    var h, m, l := WithPriority(s, High), WithPriority(s, Medium), WithPriority(s, Low);
    WithPriorityDistinct(s, High);
    WithPriorityDistinct(s, Medium);
    WithPriorityDistinct(s, Low);
    WithPriorityOnly(s, High);
    WithPriorityOnly(s, Medium);
    WithPriorityOnly(s, Low);
    var r := SortByPriority(s);
    forall i, j | 0 <= i < j < |r| ensures r[i].id != r[j].id {
      if j < |h| {
        assert r[i] == h[i] && r[j] == h[j];
      } else if i >= |h| + |m| {
        assert r[i] == l[i - |h| - |m|] && r[j] == l[j - |h| - |m|];
      } else if i >= |h| && j < |h| + |m| {
        assert r[i] == m[i - |h|] && r[j] == m[j - |h|];
      } else {
        if i < |h| {
          assert r[i] == h[i];
          assert r[j] in m + l;
        } else {
          assert r[i] == m[i - |h|];
          assert r[j] == l[j - |h| - |m|];
        }
        assert r[i].priority != r[j].priority;
        assert r[i] in s && r[j] in s by { SortByPriorityPermutes(s); }
        DifferentElementsDifferentIds(s, r[i], r[j]);
      }
    }
  }

  /** Two id-distinct sequences with no id in common append to an id-distinct one. */
  lemma AppendDistinct(x: seq<AISuggestion>, y: seq<AISuggestion>)
    requires DistinctIds(x) && DistinctIds(y)
    requires forall i, j :: 0 <= i < |x| && 0 <= j < |y| ==> x[i].id != y[j].id
    ensures DistinctIds(x + y)
  {
    var s := x + y;
    forall i, j | 0 <= i < j < |s| ensures s[i].id != s[j].id {
      if j < |x| {
        assert s[i] == x[i] && s[j] == x[j];
      } else if i >= |x| {
        assert s[i] == y[i - |x|] && s[j] == y[j - |x|];
      } else {
        assert s[i] == x[i] && s[j] == y[j - |x|];
      }
    }
  }

  /** What the four rules' parts look like: at most one suggestion each,
      told apart by id (and the irrigation one by its kind). */
  ghost predicate TaggedParts(a: seq<AISuggestion>, b: seq<AISuggestion>, c: seq<AISuggestion>, d: seq<AISuggestion>)
  {
    && |a| <= 1 && |b| <= 1 && |c| <= 1 && |d| <= 1
    && (a != [] ==> a[0].id == "ph-correction" && a[0].kind == Ph)
    && (b != [] ==> b[0].id == "nitrogen-supplement" && b[0].kind == Fertilizer)
    && (c != [] ==> c[0].id in {"irrigation-status", "irrigation-action"} && c[0].kind == Irrigation)
    && (d != [] ==> d[0].id == "temp-advisory" && d[0].kind == General)
  }

  /** The rules' output is the concatenation of four tagged parts. */
  lemma RuleParts(cropType: string, crop: CropPreset, data: seq<SensorData>)
    ensures var a := PhRule(crop, FindSensor(data, "ph"));
      var b := NitrogenRule(cropType, crop, FindSensor(data, "nitrogen"));
      var c := IrrigationRule(crop, FindSensor(data, "moisture"));
      var d := TemperatureRule(crop, FindSensor(data, "ambient-temp"));
      RuleSuggestions(cropType, crop, data) == a + b + c + d && TaggedParts(a, b, c, d)
  {
  }

  /** Which part an element of the concatenation came from, read off its id or kind. */
  lemma PartOf(a: seq<AISuggestion>, b: seq<AISuggestion>, c: seq<AISuggestion>, d: seq<AISuggestion>, x: AISuggestion)
    requires TaggedParts(a, b, c, d) && x in a + b + c + d
    ensures x.id == "ph-correction" ==> x == a[0]
    ensures x.id == "nitrogen-supplement" ==> x == b[0]
    ensures x.kind == Irrigation ==> x == c[0]
    ensures x.id == "temp-advisory" ==> x == d[0]
  {
    assert x in a || x in b || x in c || x in d;
  }

  /** The five suggestion ids are different strings. */
  lemma SuggestionIdsDistinct()
    ensures "ph-correction" !in {"nitrogen-supplement", "irrigation-status", "irrigation-action", "temp-advisory"}
    ensures "nitrogen-supplement" !in {"irrigation-status", "irrigation-action", "temp-advisory"}
    ensures "irrigation-status" != "temp-advisory" && "irrigation-action" != "temp-advisory"
  {
  }

  /** Four tagged parts concatenate to an id-distinct sequence of at most four. */
  lemma RulePartsDistinct(a: seq<AISuggestion>, b: seq<AISuggestion>, c: seq<AISuggestion>, d: seq<AISuggestion>)
    requires TaggedParts(a, b, c, d)
    ensures |a + b + c + d| <= 4
    ensures DistinctIds(a + b + c + d)
  {
    var ab, abc := a + b, a + b + c;
    SuggestionIdsDistinct();
    AppendDistinct(a, b);
    assert forall k :: 0 <= k < |ab| ==> ab[k].id in {"ph-correction", "nitrogen-supplement"} by {
      forall k | 0 <= k < |ab| ensures ab[k].id in {"ph-correction", "nitrogen-supplement"} {
        if k < |a| { assert ab[k] == a[0]; } else { assert ab[k] == b[0]; }
      }
    }
    AppendDistinct(ab, c);
    assert forall k :: 0 <= k < |abc| ==>
      abc[k].id in {"ph-correction", "nitrogen-supplement", "irrigation-status", "irrigation-action"} by {
      forall k | 0 <= k < |abc|
        ensures abc[k].id in {"ph-correction", "nitrogen-supplement", "irrigation-status", "irrigation-action"}
      {
        if k < |ab| { assert abc[k] == ab[k]; } else { assert abc[k] == c[0]; }
      }
    }
    AppendDistinct(abc, d);
  }

  /** The four rules never emit two suggestions with the same id. */
  lemma RuleSuggestionsDistinct(cropType: string, crop: CropPreset, data: seq<SensorData>)
    ensures |RuleSuggestions(cropType, crop, data)| <= 4
    ensures DistinctIds(RuleSuggestions(cropType, crop, data))
  {
    var a := PhRule(crop, FindSensor(data, "ph"));
    var b := NitrogenRule(cropType, crop, FindSensor(data, "nitrogen"));
    var c := IrrigationRule(crop, FindSensor(data, "moisture"));
    var d := TemperatureRule(crop, FindSensor(data, "ambient-temp"));
    RuleParts(cropType, crop, data);
    RulePartsDistinct(a, b, c, d);
  }

  /** The result has at most four suggestions, no two with the same id. */
  lemma SuggestionsDistinct(cropType: string, crop: CropPreset, data: seq<SensorData>)
    ensures |Suggestions(cropType, crop, data)| <= 4
    ensures DistinctIds(Suggestions(cropType, crop, data))
  {
    RuleSuggestionsDistinct(cropType, crop, data);
    SortByPriorityPermutes(RuleSuggestions(cropType, crop, data));
    SortDistinct(RuleSuggestions(cropType, crop, data));
  }

  /** In an id-distinct sequence an id occurs at one index only. */
  lemma SameIdSameIndex(s: seq<AISuggestion>, i: int, j: int)
    requires DistinctIds(s) && 0 <= i < |s| && 0 <= j < |s| && s[i].id == s[j].id
    ensures i == j
  {
    assert !(i < j);
    assert !(j < i);
  }

  /** In four tagged parts, the ph-correction is the pH part's suggestion. */
  lemma PhInParts(a: seq<AISuggestion>, b: seq<AISuggestion>, c: seq<AISuggestion>, d: seq<AISuggestion>)
    requires TaggedParts(a, b, c, d)
    ensures (exists x :: x in a + b + c + d && x.id == "ph-correction") <==> a != []
    ensures forall x :: x in a + b + c + d && x.id == "ph-correction" ==> x == a[0]
  {
    forall x | x in a + b + c + d ensures x.id == "ph-correction" ==> x == a[0] {
      PartOf(a, b, c, d, x);
    }
    if a != [] { assert a[0] in a + b + c + d; }
  }

  /** In four tagged parts, the nitrogen-supplement is the nitrogen part's suggestion. */
  lemma NitrogenInParts(a: seq<AISuggestion>, b: seq<AISuggestion>, c: seq<AISuggestion>, d: seq<AISuggestion>)
    requires TaggedParts(a, b, c, d)
    ensures (exists x :: x in a + b + c + d && x.id == "nitrogen-supplement") <==> b != []
    ensures forall x :: x in a + b + c + d && x.id == "nitrogen-supplement" ==> x == b[0]
  {
    forall x | x in a + b + c + d ensures x.id == "nitrogen-supplement" ==> x == b[0] {
      PartOf(a, b, c, d, x);
    }
    if b != [] { assert b[0] in a + b + c + d; }
  }

  /** In four tagged parts, every irrigation suggestion is the irrigation part's one. */
  lemma IrrigationInParts(a: seq<AISuggestion>, b: seq<AISuggestion>, c: seq<AISuggestion>, d: seq<AISuggestion>)
    requires TaggedParts(a, b, c, d)
    ensures forall x :: x in a + b + c + d && x.kind == Irrigation ==> x == c[0]
    ensures c != [] ==> c[0] in a + b + c + d
  {
    forall x | x in a + b + c + d ensures x.kind == Irrigation ==> x == c[0] {
      PartOf(a, b, c, d, x);
    }
    if c != [] { assert c[0] in a + b + c + d; }
  }

  /** In four tagged parts, the temp-advisory is the temperature part's suggestion. */
  lemma TemperatureInParts(a: seq<AISuggestion>, b: seq<AISuggestion>, c: seq<AISuggestion>, d: seq<AISuggestion>)
    requires TaggedParts(a, b, c, d)
    ensures (exists x :: x in a + b + c + d && x.id == "temp-advisory") <==> d != []
    ensures forall x :: x in a + b + c + d && x.id == "temp-advisory" ==> x == d[0]
  {
    forall x | x in a + b + c + d ensures x.id == "temp-advisory" ==> x == d[0] {
      PartOf(a, b, c, d, x);
    }
    if d != [] { assert d[0] in a + b + c + d; }
  }

  /** pH: a correction is in the result iff the pH reading is not optimal; it
      asks for lime iff the value is below the range, and is urgent iff the
      reading is critical. */
  lemma PhCorrectionInResult(cropType: string, crop: CropPreset, data: seq<SensorData>)
    ensures var ph := FindSensor(data, "ph");
      (exists x :: x in Suggestions(cropType, crop, data) && x.id == "ph-correction") <==>
      ph.Some? && ph.value.status != Optimal
    ensures var ph := FindSensor(data, "ph");
      forall x :: x in Suggestions(cropType, crop, data) && x.id == "ph-correction" ==>
        && ph.Some? && x.kind == Ph
        && (x.advice == AddLime <==> ph.value.value < ph.value.optimal.min)
        && (x.priority == High <==> ph.value.status == Critical) && x.priority != Low
  {
    var a := PhRule(crop, FindSensor(data, "ph"));
    var b := NitrogenRule(cropType, crop, FindSensor(data, "nitrogen"));
    var c := IrrigationRule(crop, FindSensor(data, "moisture"));
    var d := TemperatureRule(crop, FindSensor(data, "ambient-temp"));
    SuggestionsPermuteParts(cropType, crop, data);
    PhInParts(a, b, c, d);
  }

  /** Nitrogen: a supplement is in the result iff the reading is not optimal
      and below the range, so an excess never produces one; the rice-specific
      advice is chosen iff the crop id is "rice". */
  lemma NitrogenSupplementInResult(cropType: string, crop: CropPreset, data: seq<SensorData>)
    ensures var n := FindSensor(data, "nitrogen");
      (exists x :: x in Suggestions(cropType, crop, data) && x.id == "nitrogen-supplement") <==>
      n.Some? && n.value.status != Optimal && n.value.value < n.value.optimal.min
    ensures var n := FindSensor(data, "nitrogen");
      forall x :: x in Suggestions(cropType, crop, data) && x.id == "nitrogen-supplement" ==>
        && n.Some? && x.kind == Fertilizer
        && (x.advice == RiceUrea <==> cropType == "rice")
        && (x.priority == High <==> n.value.status == Critical) && x.priority != Low
  {
    var a := PhRule(crop, FindSensor(data, "ph"));
    var b := NitrogenRule(cropType, crop, FindSensor(data, "nitrogen"));
    var c := IrrigationRule(crop, FindSensor(data, "moisture"));
    var d := TemperatureRule(crop, FindSensor(data, "ambient-temp"));
    SuggestionsPermuteParts(cropType, crop, data);
    NitrogenInParts(a, b, c, d);
  }

  /** Temperature: an advisory is in the result iff the ambient temperature is
      not optimal; it is the hot-weather one iff the value is above the range. */
  lemma TemperatureAdvisoryInResult(cropType: string, crop: CropPreset, data: seq<SensorData>)
    ensures var t := FindSensor(data, "ambient-temp");
      (exists x :: x in Suggestions(cropType, crop, data) && x.id == "temp-advisory") <==>
      t.Some? && t.value.status != Optimal
    ensures var t := FindSensor(data, "ambient-temp");
      forall x :: x in Suggestions(cropType, crop, data) && x.id == "temp-advisory" ==>
        && t.Some? && x.kind == General
        && (x.advice == ShadeAndMulch <==> t.value.value > t.value.optimal.max)
        && (x.priority == High <==> t.value.status == Critical) && x.priority != Low
  {
    var a := PhRule(crop, FindSensor(data, "ph"));
    var b := NitrogenRule(cropType, crop, FindSensor(data, "nitrogen"));
    var c := IrrigationRule(crop, FindSensor(data, "moisture"));
    var d := TemperatureRule(crop, FindSensor(data, "ambient-temp"));
    SuggestionsPermuteParts(cropType, crop, data);
    TemperatureInParts(a, b, c, d);
  }

  /** A permutation of four tagged parts holds one irrigation suggestion if
      the irrigation part has one, none otherwise, and any it holds is that one. */
  lemma IrrigationInPermutation(r: seq<AISuggestion>, a: seq<AISuggestion>, b: seq<AISuggestion>,
                                c: seq<AISuggestion>, d: seq<AISuggestion>)
    requires TaggedParts(a, b, c, d) && DistinctIds(r)
    requires forall x :: x in r <==> x in a + b + c + d
    ensures forall x :: x in r && x.kind == Irrigation ==> x == c[0]
    ensures c == [] ==> forall i :: 0 <= i < |r| ==> r[i].kind != Irrigation
    ensures c != [] ==> exists i :: 0 <= i < |r| && r[i].kind == Irrigation &&
                          forall j :: 0 <= j < |r| && r[j].kind == Irrigation ==> j == i
  {
    IrrigationInParts(a, b, c, d);
    if c == [] {
      forall i | 0 <= i < |r| ensures r[i].kind != Irrigation {
        assert r[i] in a + b + c + d;
        PartOf(a, b, c, d, r[i]);
      }
    } else {
      assert c[0] in r;
      var i :| 0 <= i < |r| && r[i] == c[0];
      forall j | 0 <= j < |r| && r[j].kind == Irrigation ensures j == i {
        assert r[j] in r;
        SameIdSameIndex(r, i, j);
      }
    }
  }

  /** The result holds the elements of the four tagged parts, each once. */
  lemma SuggestionsPermuteParts(cropType: string, crop: CropPreset, data: seq<SensorData>)
    ensures var a := PhRule(crop, FindSensor(data, "ph"));
      var b := NitrogenRule(cropType, crop, FindSensor(data, "nitrogen"));
      var c := IrrigationRule(crop, FindSensor(data, "moisture"));
      var d := TemperatureRule(crop, FindSensor(data, "ambient-temp"));
      var r := Suggestions(cropType, crop, data);
      && TaggedParts(a, b, c, d) && DistinctIds(r)
      && forall x :: x in r <==> x in a + b + c + d
  {
    RuleParts(cropType, crop, data);
    SortByPriorityPermutes(RuleSuggestions(cropType, crop, data));
    SuggestionsDistinct(cropType, crop, data);
  }

  /** Irrigation: every irrigation suggestion in the result comes from a
      moisture reading; it is the low-priority status iff moisture is optimal,
      and otherwise an action that increases watering iff the value is below
      the range, urgent iff the reading is critical. */
  lemma IrrigationInResult(cropType: string, crop: CropPreset, data: seq<SensorData>)
    ensures var m, r := FindSensor(data, "moisture"), Suggestions(cropType, crop, data);
      forall x :: x in r && x.kind == Irrigation ==>
        && m.Some?
        && (x.id == "irrigation-status" <==> m.value.status == Optimal)
        && (m.value.status == Optimal ==> x.priority == Low && x.advice == NoIrrigationChange)
        && (m.value.status != Optimal ==>
              && x.id == "irrigation-action"
              && (x.priority == High <==> m.value.status == Critical) && x.priority != Low
              && (x.advice == IncreaseIrrigation <==> m.value.value < m.value.optimal.min))
  {
    var m, r := FindSensor(data, "moisture"), Suggestions(cropType, crop, data);
    var a := PhRule(crop, FindSensor(data, "ph"));
    var b := NitrogenRule(cropType, crop, FindSensor(data, "nitrogen"));
    var c := IrrigationRule(crop, m);
    var d := TemperatureRule(crop, FindSensor(data, "ambient-temp"));
    SuggestionsPermuteParts(cropType, crop, data);
    IrrigationInPermutation(r, a, b, c, d);
  }

  /** Irrigation: with a moisture reading the result holds exactly one
      irrigation suggestion, without one it holds none. */
  lemma IrrigationExactlyOnce(cropType: string, crop: CropPreset, data: seq<SensorData>)
    ensures var m, r := FindSensor(data, "moisture"), Suggestions(cropType, crop, data);
      m.None? ==> forall i :: 0 <= i < |r| ==> r[i].kind != Irrigation
    ensures var m, r := FindSensor(data, "moisture"), Suggestions(cropType, crop, data);
      m.Some? ==> exists i :: 0 <= i < |r| && r[i].kind == Irrigation &&
                    forall j :: 0 <= j < |r| && r[j].kind == Irrigation ==> j == i
  {
    var m, r := FindSensor(data, "moisture"), Suggestions(cropType, crop, data);
    var a := PhRule(crop, FindSensor(data, "ph"));
    var b := NitrogenRule(cropType, crop, FindSensor(data, "nitrogen"));
    var c := IrrigationRule(crop, m);
    var d := TemperatureRule(crop, FindSensor(data, "ambient-temp"));
    SuggestionsPermuteParts(cropType, crop, data);
    IrrigationInPermutation(r, a, b, c, d);
  }

  /** Looking up an id that occurs once finds the reading at that index. */
  lemma FindUnique(data: seq<SensorData>, id: string, k: nat)
    requires k < |data| && data[k].id == id
    requires forall i :: 0 <= i < |data| && data[i].id == id ==> i == k
    ensures FindSensor(data, id) == Some(data[k])
  {
    var found := FindSensor(data, id);
    var i :| 0 <= i < |data| && data[i] == found.value && data[i].id == id;
  }

  /** In a snapshot, looking up a channel finds that channel's reading. */
  lemma SnapshotFind(cropType: string, draws: seq<seq<real>>, now: real, k: nat)
    requires ValidDraws(draws) && k < |SensorIds|
    ensures FindSensor(GetSensorData(cropType, draws, now), SensorIds[k]) == Some(GetSensorData(cropType, draws, now)[k])
  {
    var data := GetSensorData(cropType, draws, now);
    SnapshotChannels(cropType, draws, now);
    SensorIdsDistinct();
    forall i | 0 <= i < |data| && data[i].id == SensorIds[k] ensures i == k {
      assert SensorIds[i] == SensorIds[k];
    }
    FindUnique(data, SensorIds[k], k);
  }

  /** One channel of a snapshot: the reading at its index, which a lookup by
      its id finds, holds the built-in value judged against the crop's range. */
  lemma SnapshotReading(cropType: string, draws: seq<seq<real>>, now: real, k: nat)
    requires ValidDraws(draws) && k < |SensorIds|
    ensures var data := GetSensorData(cropType, draws, now);
      && FindSensor(data, SensorIds[k]) == Some(data[k])
      && data[k].value == BaseSensorValues[k].1.value
      && data[k].optimal == GetOptimalRange(cropType, SensorIds[k])
      && data[k].status == GetStatus(data[k].value, data[k].optimal)
  {
    SnapshotChannels(cropType, draws, now);
    SnapshotFind(cropType, draws, now, k);
  }

  /** Wheat's pH reading, 5.4, is critical against {6.0, 7.5}. */
  lemma WheatPhReading(draws: seq<seq<real>>, now: real)
    requires ValidDraws(draws)
    ensures var data := GetSensorData("wheat", draws, now);
      && FindSensor(data, "ph") == Some(data[2])
      && data[2].status == Critical && data[2].value < data[2].optimal.min
  {
    var data := GetSensorData("wheat", draws, now);
    SnapshotReading("wheat", draws, now, 2);
    WheatPhRange();
    RuleChannelIndices();
    RuleChannelValues();
    assert data[2].value == 5.4 && data[2].optimal == Range(6.0, 7.5);
  }

  /** Wheat's nitrogen reading, 28, is a warning against {30, 60}. */
  lemma WheatNitrogenReading(draws: seq<seq<real>>, now: real)
    requires ValidDraws(draws)
    ensures var data := GetSensorData("wheat", draws, now);
      && FindSensor(data, "nitrogen") == Some(data[4])
      && data[4].status == Warning && data[4].value < data[4].optimal.min
  {
    var data := GetSensorData("wheat", draws, now);
    SnapshotReading("wheat", draws, now, 4);
    WheatNitrogenRange();
    RuleChannelIndices();
    RuleChannelValues();
    assert data[4].value == 28.0 && data[4].optimal == Range(30.0, 60.0);
  }

  /** Wheat's moisture reading, 42, is optimal in {30, 50}. */
  lemma WheatMoistureReading(draws: seq<seq<real>>, now: real)
    requires ValidDraws(draws)
    ensures var data := GetSensorData("wheat", draws, now);
      && FindSensor(data, "moisture") == Some(data[0]) && data[0].status == Optimal
  {
    var data := GetSensorData("wheat", draws, now);
    SnapshotReading("wheat", draws, now, 0);
    WheatMoistureRange();
    RuleChannelIndices();
    RuleChannelValues();
    assert data[0].value == 42.0 && data[0].optimal == Range(30.0, 50.0);
  }

  /** Wheat's air temperature, 31 degrees, is critical against {15, 25}. */
  lemma WheatTemperatureReading(draws: seq<seq<real>>, now: real)
    requires ValidDraws(draws)
    ensures var data := GetSensorData("wheat", draws, now);
      && FindSensor(data, "ambient-temp") == Some(data[8])
      && data[8].status == Critical && data[8].value > data[8].optimal.max
  {
    var data := GetSensorData("wheat", draws, now);
    SnapshotReading("wheat", draws, now, 8);
    WheatTemperatureRange();
    RuleChannelIndices();
    RuleChannelValues();
    assert data[8].value == 31.0 && data[8].optimal == Range(15.0, 25.0);
  }

  /** With pH and temperature critical (too acidic, too hot), nitrogen low
      but only a warning and moisture optimal, the rules fire in their fixed
      order with these priorities and advice. */
  lemma FourRulesFire(cropType: string, crop: CropPreset, p: SensorData, n: SensorData, m: SensorData, t: SensorData)
    requires cropType != "rice"
    requires p.status == Critical && p.value < p.optimal.min
    requires n.status == Warning && n.value < n.optimal.min
    requires m.status == Optimal
    requires t.status == Critical && t.value > t.optimal.max
    ensures var s := PhRule(crop, Some(p)) + NitrogenRule(cropType, crop, Some(n))
                   + IrrigationRule(crop, Some(m)) + TemperatureRule(crop, Some(t));
      && |s| == 4
      && s[0].id == "ph-correction" && s[0].priority == High && s[0].advice == AddLime
      && s[1].id == "nitrogen-supplement" && s[1].priority == Medium && s[1].advice == UreaOrCompost
      && s[2].id == "irrigation-status" && s[2].priority == Low
      && s[3].id == "temp-advisory" && s[3].priority == High && s[3].advice == ShadeAndMulch
  {
    var a := PhRule(crop, Some(p));
    var b := NitrogenRule(cropType, crop, Some(n));
    var c := IrrigationRule(crop, Some(m));
    var d := TemperatureRule(crop, Some(t));
    assert |a| == 1 && |b| == 1 && |c| == 1 && |d| == 1;
    SingletonsConcat(a, b, c, d);
  }

  lemma SingletonsConcat<T>(a: seq<T>, b: seq<T>, c: seq<T>, d: seq<T>)
    requires |a| == 1 && |b| == 1 && |c| == 1 && |d| == 1
    ensures a + b + c + d == [a[0], b[0], c[0], d[0]]
  {
    assert a == [a[0]] && b == [b[0]] && c == [c[0]] && d == [d[0]];
  }

  lemma WithPriorityCons(x: AISuggestion, t: seq<AISuggestion>, p: Priority)
    ensures WithPriority([x] + t, p) == Keep(x, p) + WithPriority(t, p)
  {
    assert ([x] + t)[1..] == t;
  }

  /** Filtering four suggestions keeps each one on its own merit, in order. */
  lemma WithPriorityFour(a: AISuggestion, b: AISuggestion, c: AISuggestion, d: AISuggestion, p: Priority)
    ensures WithPriority([a, b, c, d], p) == Keep(a, p) + Keep(b, p) + Keep(c, p) + Keep(d, p)
  {
    calc {
      WithPriority([a, b, c, d], p);
    == { assert [a, b, c, d] == [a] + [b, c, d]; WithPriorityCons(a, [b, c, d], p); }
      Keep(a, p) + WithPriority([b, c, d], p);
    == { assert [b, c, d] == [b] + [c, d]; WithPriorityCons(b, [c, d], p); }
      Keep(a, p) + (Keep(b, p) + WithPriority([c, d], p));
    == { assert [c, d] == [c] + [d]; WithPriorityCons(c, [d], p); }
      Keep(a, p) + (Keep(b, p) + (Keep(c, p) + WithPriority([d], p)));
    == { assert [d] == [d] + []; WithPriorityCons(d, [], p); }
      Keep(a, p) + (Keep(b, p) + (Keep(c, p) + (Keep(d, p) + WithPriority([], p))));
    == { assert WithPriority([], p) == []; }
      Keep(a, p) + Keep(b, p) + Keep(c, p) + Keep(d, p);
    }
  }

  /** Four suggestions with priorities high, medium, low, high come out of
      the sort as the first, the fourth, the second and the third. */
  lemma SortFour(s: seq<AISuggestion>)
    requires |s| == 4
    requires s[0].priority == High && s[1].priority == Medium && s[2].priority == Low && s[3].priority == High
    ensures SortByPriority(s) == [s[0], s[3], s[1], s[2]]
  {
    assert s == [s[0], s[1], s[2], s[3]];
    assert WithPriority(s, High) == [s[0], s[3]] by {
      WithPriorityFour(s[0], s[1], s[2], s[3], High);
      assert Keep(s[0], High) + Keep(s[1], High) + Keep(s[2], High) + Keep(s[3], High) == [s[0]] + [] + [] + [s[3]];
    }
    assert WithPriority(s, Medium) == [s[1]] by {
      WithPriorityFour(s[0], s[1], s[2], s[3], Medium);
      assert Keep(s[0], Medium) + Keep(s[1], Medium) + Keep(s[2], Medium) + Keep(s[3], Medium) == [] + [s[1]] + [] + [];
    }
    assert WithPriority(s, Low) == [s[2]] by {
      WithPriorityFour(s[0], s[1], s[2], s[3], Low);
      assert Keep(s[0], Low) + Keep(s[1], Low) + Keep(s[2], Low) + Keep(s[3], Low) == [] + [] + [s[2]] + [];
    }
  }

  /** The rules' four suggestions, as the wheat example produces them,
      come out of the sort with the two high-priority ones first. */
  lemma SortWheatOrder(s: seq<AISuggestion>)
    requires |s| == 4
    requires s[0].id == "ph-correction" && s[0].priority == High
    requires s[1].id == "nitrogen-supplement" && s[1].priority == Medium
    requires s[2].id == "irrigation-status" && s[2].priority == Low
    requires s[3].id == "temp-advisory" && s[3].priority == High
    ensures var r := SortByPriority(s);
      && |r| == 4
      && r[0].id == "ph-correction" && r[1].id == "temp-advisory"
      && r[2].id == "nitrogen-supplement" && r[3].id == "irrigation-status"
  {
    SortFour(s);
  }

  /** Example: the rules' output, in order, for wheat with the built-in readings. */
  lemma WheatRuleSuggestions(draws: seq<seq<real>>, now: real)
    requires ValidDraws(draws)
    ensures var s := RuleSuggestions("wheat", GetCropPreset("wheat"), GetSensorData("wheat", draws, now));
      && |s| == 4
      && s[0].id == "ph-correction" && s[0].priority == High && s[0].advice == AddLime
      && s[1].id == "nitrogen-supplement" && s[1].priority == Medium && s[1].advice == UreaOrCompost
      && s[2].id == "irrigation-status" && s[2].priority == Low
      && s[3].id == "temp-advisory" && s[3].priority == High && s[3].advice == ShadeAndMulch
  {
    var data := GetSensorData("wheat", draws, now);
    WheatPhReading(draws, now);
    WheatNitrogenReading(draws, now);
    WheatMoistureReading(draws, now);
    WheatTemperatureReading(draws, now);
    FourRulesFire("wheat", GetCropPreset("wheat"), data[2], data[4], data[0], data[8]);
  }

  /** Example: for wheat with the built-in readings the result is
      [ph-correction, temp-advisory, nitrogen-supplement, irrigation-status]:
      the two high-priority ones in rule order, then the medium, then the low one. */
  lemma WheatSuggestions(draws: seq<seq<real>>, now: real)
    requires ValidDraws(draws)
    ensures var r := Suggestions("wheat", GetCropPreset("wheat"), GetSensorData("wheat", draws, now));
      && |r| == 4
      && r[0].id == "ph-correction" && r[1].id == "temp-advisory"
      && r[2].id == "nitrogen-supplement" && r[3].id == "irrigation-status"
  {
    var s := RuleSuggestions("wheat", GetCropPreset("wheat"), GetSensorData("wheat", draws, now));
    WheatRuleSuggestions(draws, now);
    SortWheatOrder(s);
  }
}
