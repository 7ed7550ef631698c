/** The backend's threshold rules engine `AIRulesEngine.analyze`: three fixed
    rules over the soil readings, each appending at most one recommendation,
    and a summary sentence built from the recommended actions. */
module RulesEngine {

  /** The sensor dictionary the engine reads: groups ("soil", ...) of named
      numeric readings. */
  type SensorDict = map<string, map<string, real>>

  /** One recommendation. Its reason text interpolates the reading, so the
      model keeps the reading it was raised for. */
  datatype Recommendation = Recommendation(action: string, reading: real)

  datatype Analysis = Analysis(summary: string, recommendations: seq<Recommendation>)

  const AddLime := "Add lime"
  const AddSulfur := "Add sulfur"
  const ApplyNitrogen := "Apply nitrogen fertilizer"
  const WaterCrops := "Water crops"
  const Healthy := "Soil is healthy."
  const AttentionPrefix := "Attention required: "

  /** `dict.get(key, default)`. */
  function Get(m: map<string, real>, key: string, default: real): (v: real)
    ensures key in m ==> v == m[key]
    ensures key !in m ==> v == default
  {
    if key in m then m[key] else default
  }

  /** `sensors.get("soil", {})`. */
  function Soil(sensors: SensorDict): (soil: map<string, real>)
    ensures "soil" in sensors ==> soil == sensors["soil"]
    ensures "soil" !in sensors ==> soil == map[]
  {
    if "soil" in sensors then sensors["soil"] else map[]
  }

  /** The pH reading, 7.0 (neutral) when absent. */
  function Ph(sensors: SensorDict): (v: real)
    ensures "soil" in sensors && "ph" in sensors["soil"] ==> v == sensors["soil"]["ph"]
    ensures !("soil" in sensors && "ph" in sensors["soil"]) ==> v == 7.0
  {
    Get(Soil(sensors), "ph", 7.0)
  }

  /** The nitrogen reading, 0 when absent. */
  function Nitrogen(sensors: SensorDict): (v: real)
    ensures "soil" in sensors && "nitrogen" in sensors["soil"] ==> v == sensors["soil"]["nitrogen"]
    ensures !("soil" in sensors && "nitrogen" in sensors["soil"]) ==> v == 0.0
  {
    Get(Soil(sensors), "nitrogen", 0.0)
  }

  /** The moisture reading, 0 when absent. */
  function Moisture(sensors: SensorDict): (v: real)
    ensures "soil" in sensors && "moisture" in sensors["soil"] ==> v == sensors["soil"]["moisture"]
    ensures !("soil" in sensors && "moisture" in sensors["soil"]) ==> v == 0.0
  {
    Get(Soil(sensors), "moisture", 0.0)
  }

  /** The pH rule: lime below 6.0, sulfur above 7.5, nothing in between. */
  function PhRule(ph: real): (r: seq<Recommendation>)
    ensures |r| <= 1
    ensures r == [] <==> 6.0 <= ph <= 7.5
    ensures r != [] ==> r[0].reading == ph && (r[0].action == AddLime <==> ph < 6.0)
    ensures r != [] ==> r[0].action in {AddLime, AddSulfur}
  {
    if ph < 6.0 then [Recommendation(AddLime, ph)]
    else if ph > 7.5 then [Recommendation(AddSulfur, ph)]
    else []
  }

  /** The nitrogen rule: fertilizer below 20. */
  function NitrogenRule(n: real): (r: seq<Recommendation>)
    ensures |r| <= 1
    ensures r != [] <==> n < 20.0
    ensures r != [] ==> r[0] == Recommendation(ApplyNitrogen, n)
  {
    if n < 20.0 then [Recommendation(ApplyNitrogen, n)] else []
  }

  /** The moisture rule: water below 30. */
  function MoistureRule(moisture: real): (r: seq<Recommendation>)
    ensures |r| <= 1
    ensures r != [] <==> moisture < 30.0
    ensures r != [] ==> r[0] == Recommendation(WaterCrops, moisture)
  {
    if moisture < 30.0 then [Recommendation(WaterCrops, moisture)] else []
  }

  /** What `analyze` recommends: the three rules' outputs in rule order. */
  function Recommendations(sensors: SensorDict): (r: seq<Recommendation>)
    ensures |r| <= 3
    ensures r == [] <==> 6.0 <= Ph(sensors) <= 7.5 && Nitrogen(sensors) >= 20.0 && Moisture(sensors) >= 30.0
  {
    PhRule(Ph(sensors)) + NitrogenRule(Nitrogen(sensors)) + MoistureRule(Moisture(sensors))
  }

  function Actions(r: seq<Recommendation>): (a: seq<string>)
    ensures |a| == |r|
    ensures forall i :: 0 <= i < |r| ==> a[i] == r[i].action
  {
    if r == [] then [] else [r[0].action] + Actions(r[1..])
  }

  /** `sep.join(parts)`: the parts with `sep` between neighbours. */
  function Join(parts: seq<string>, sep: string): (j: string)
    ensures parts == [] ==> j == ""
    ensures parts != [] ==> |parts[0]| <= |j| && j[..|parts[0]|] == parts[0]
    ensures |parts| >= 2 ==> |parts[0]| + |sep| <= |j| && j[|parts[0]|..|parts[0]| + |sep|] == sep
  {
    if |parts| == 0 then ""
    else if |parts| == 1 then parts[0]
    else parts[0] + sep + Join(parts[1..], sep)
  }

  /** The summary sentence for a list of recommendations. */
  function Summary(r: seq<Recommendation>): (s: string)
    ensures r == [] ==> s == Healthy
    ensures r != [] ==> |AttentionPrefix| < |s| && s[..|AttentionPrefix|] == AttentionPrefix && s[|s| - 1] == '.'
    ensures r != [] ==>
      |AttentionPrefix| + |r[0].action| < |s| && s[|AttentionPrefix|..|AttentionPrefix| + |r[0].action|] == r[0].action
  {
    if r == [] then Healthy else AttentionPrefix + Join(Actions(r), ", ") + "."
  }

  /** `AIRulesEngine.analyze`: appends the rules' recommendations one by one,
      then builds the summary. */
  method Analyze(sensors: SensorDict) returns (result: Analysis)
    ensures result.recommendations == Recommendations(sensors)
    ensures result.summary == Summary(result.recommendations)
  {
    var recommendations: seq<Recommendation> := [];
    var soil := if "soil" in sensors then sensors["soil"] else map[];

    var ph := if "ph" in soil then soil["ph"] else 7.0;
    if ph < 6.0 {
      recommendations := recommendations + [Recommendation(AddLime, ph)];
    } else if ph > 7.5 {
      recommendations := recommendations + [Recommendation(AddSulfur, ph)];
    }

    var n := if "nitrogen" in soil then soil["nitrogen"] else 0.0;
    if n < 20.0 {
      recommendations := recommendations + [Recommendation(ApplyNitrogen, n)];
    }

    var moisture := if "moisture" in soil then soil["moisture"] else 0.0;
    if moisture < 30.0 {
      recommendations := recommendations + [Recommendation(WaterCrops, moisture)];
    }

    var summary := Healthy;
    if recommendations != [] {
      summary := AttentionPrefix + Join(Actions(recommendations), ", ") + ".";
    }
    result := Analysis(summary, recommendations);
  }

  /** The position of an action in the fixed rule order. */
  function RuleRank(action: string): nat
  {
    if action == AddLime || action == AddSulfur then 0
    else if action == ApplyNitrogen then 1
    else 2
  }

  /** At most three recommendations, at most one about pH, and they appear in
      rule order (pH, nitrogen, moisture), each rule at most once. */
  lemma RecommendationsShape(sensors: SensorDict)
    ensures var r := Recommendations(sensors);
      && |r| <= 3
      && (forall i, j :: 0 <= i < j < |r| ==> RuleRank(r[i].action) < RuleRank(r[j].action))
      && (forall i :: 0 <= i < |r| ==> r[i].action in {AddLime, AddSulfur, ApplyNitrogen, WaterCrops})
  {
    var a := PhRule(Ph(sensors));
    var b := NitrogenRule(Nitrogen(sensors));
    var c := MoistureRule(Moisture(sensors));
    var r := a + b + c;
    forall i | 0 <= i < |r|
      ensures r[i].action in {AddLime, AddSulfur, ApplyNitrogen, WaterCrops}
      ensures RuleRank(r[i].action) == if i < |a| then 0 else if i < |a| + |b| then 1 else 2
    {
      if i < |a| {
        assert r[i] == a[i];
      } else if i < |a| + |b| {
        assert r[i] == b[i - |a|];
      } else {
        assert r[i] == c[i - |a| - |b|];
      }
    }
  }

  /** The four actions are different strings. */
  lemma ActionsDistinct()
    ensures AddLime != AddSulfur && AddLime != ApplyNitrogen && AddLime != WaterCrops
    ensures AddSulfur != ApplyNitrogen && AddSulfur != WaterCrops && ApplyNitrogen != WaterCrops
  {
    assert |AddLime| == 8 && |AddSulfur| == 10 && |ApplyNitrogen| == 25 && |WaterCrops| == 11;
  }

  /** Each action is recommended exactly when its threshold is crossed, on
      the readings with their defaults. */
  lemma ActionsByThreshold(sensors: SensorDict)
    ensures var acts := Actions(Recommendations(sensors));
      && (AddLime in acts <==> Ph(sensors) < 6.0)
      && (AddSulfur in acts <==> Ph(sensors) > 7.5)
      && (ApplyNitrogen in acts <==> Nitrogen(sensors) < 20.0)
      && (WaterCrops in acts <==> Moisture(sensors) < 30.0)
  {
    var a := PhRule(Ph(sensors));
    var b := NitrogenRule(Nitrogen(sensors));
    var c := MoistureRule(Moisture(sensors));
    var pa := if Ph(sensors) < 6.0 then [AddLime] else if Ph(sensors) > 7.5 then [AddSulfur] else [];
    var na := if Nitrogen(sensors) < 20.0 then [ApplyNitrogen] else [];
    var ma := if Moisture(sensors) < 30.0 then [WaterCrops] else [];
    assert Actions(Recommendations(sensors)) == pa + na + ma by {
      ActionsAppend(a, b);
      ActionsAppend(a + b, c);
      assert Actions(a) == pa && Actions(b) == na && Actions(c) == ma;
    }
    ActionsDistinct();
  }

  lemma {:induction false} ActionsAppend(x: seq<Recommendation>, y: seq<Recommendation>)
    ensures Actions(x + y) == Actions(x) + Actions(y)
  {
    if x == [] {
      assert x + y == y;
    } else {
      assert (x + y)[1..] == x[1..] + y;
      ActionsAppend(x[1..], y);
    }
  }

  /** The summary is the healthy sentence exactly when nothing is recommended. */
  lemma SummaryHealthyIffEmpty(r: seq<Recommendation>)
    ensures Summary(r) == Healthy <==> r == []
  {
    if r != [] {
      assert Summary(r)[0] == 'A' != Healthy[0];
    }
  }

  /** Joining one more part adds the separator and that part at the end. */
  lemma {:induction false} JoinSnoc(parts: seq<string>, last: string, sep: string)
    requires parts != []
    ensures Join(parts + [last], sep) == Join(parts, sep) + sep + last
  {
    if |parts| == 1 {
      assert parts + [last] == [parts[0], last];
      assert [parts[0], last][1..] == [last];
    } else {
      assert (parts + [last])[1..] == parts[1..] + [last];
      JoinSnoc(parts[1..], last, sep);
    }
  }

  function TotalLength(parts: seq<string>): nat
  {
    if parts == [] then 0 else |parts[0]| + TotalLength(parts[1..])
  }

  /** The join is exactly as long as its parts plus one separator between
      each pair of neighbours. */
  lemma {:induction false} JoinLength(parts: seq<string>, sep: string)
    requires parts != []
    ensures |Join(parts, sep)| == TotalLength(parts) + (|parts| - 1) * |sep|
  {
    if |parts| > 1 {
      JoinLength(parts[1..], sep);
    }
  }

  /** The summary of two recommendations names both actions, in order. */
  lemma SummaryOfTwo(r: seq<Recommendation>)
    requires |r| == 2
    ensures Summary(r) == AttentionPrefix + r[0].action + ", " + r[1].action + "."
  {
    assert Actions(r) == [r[0].action, r[1].action];
    assert Actions(r)[1..] == [r[1].action];
    assert Join(Actions(r), ", ") == r[0].action + ", " + Join([r[1].action], ", ");
  }

  /** Example: with no "soil" group the defaults (pH 7, nitrogen 0, moisture 0)
      ask for fertilizer and water, and the summary lists both. */
  lemma NoSoilGroup(sensors: SensorDict)
    requires "soil" !in sensors
    ensures Recommendations(sensors) == [Recommendation(ApplyNitrogen, 0.0), Recommendation(WaterCrops, 0.0)]
    ensures Summary(Recommendations(sensors)) == AttentionPrefix + ApplyNitrogen + ", " + WaterCrops + "."
  {
    var r := Recommendations(sensors);
    assert Ph(sensors) == 7.0 && Nitrogen(sensors) == 0.0 && Moisture(sensors) == 0.0;
    assert r == [Recommendation(ApplyNitrogen, 0.0), Recommendation(WaterCrops, 0.0)];
    SummaryOfTwo(r);
  }
}
