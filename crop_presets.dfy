/** The crop-profile store: a constant table of five crops, each giving an
    optimal range for the nine sensor channels, and the two lookups that fall
    back to a default instead of failing. */
module CropPresets {
  import opened Common
  import opened SensorTypes

  datatype CropPreset = CropPreset(
    id: string,
    name: string,
    icon: string,
    description: string,
    optimalRanges: map<string, Range>)

  /** The nine channels, in the order the dashboard lists them. */
  const SensorIds: seq<string> :=
    ["moisture", "soil-temp", "ph", "ec", "nitrogen", "phosphorus", "potassium", "humidity", "ambient-temp"]

  const Rice: CropPreset :=
    CropPreset("rice", "Rice (Paddy)", "Wheat", "Flooded field crop, high water needs",
      map[
        "moisture" := Range(70.0, 90.0),
        "soil-temp" := Range(20.0, 35.0),
        "ph" := Range(5.5, 6.5),
        "ec" := Range(0.5, 2.0),
        "nitrogen" := Range(40.0, 80.0),
        "phosphorus" := Range(15.0, 35.0),
        "potassium" := Range(40.0, 80.0),
        "humidity" := Range(60.0, 90.0),
        "ambient-temp" := Range(22.0, 35.0)])

  const Wheat: CropPreset :=
    CropPreset("wheat", "Wheat", "Wheat", "Cool season grain crop",
      map[
        "moisture" := Range(30.0, 50.0),
        "soil-temp" := Range(12.0, 25.0),
        "ph" := Range(6.0, 7.5),
        "ec" := Range(1.0, 2.5),
        "nitrogen" := Range(30.0, 60.0),
        "phosphorus" := Range(20.0, 40.0),
        "potassium" := Range(25.0, 50.0),
        "humidity" := Range(40.0, 70.0),
        "ambient-temp" := Range(15.0, 25.0)])

  const Vegetables: CropPreset :=
    CropPreset("vegetables", "Vegetables", "Carrot", "Mixed vegetable cultivation",
      map[
        "moisture" := Range(40.0, 60.0),
        "soil-temp" := Range(15.0, 28.0),
        "ph" := Range(6.0, 7.0),
        "ec" := Range(1.5, 3.0),
        "nitrogen" := Range(35.0, 70.0),
        "phosphorus" := Range(25.0, 50.0),
        "potassium" := Range(35.0, 70.0),
        "humidity" := Range(50.0, 75.0),
        "ambient-temp" := Range(18.0, 30.0)])

  const Corn: CropPreset :=
    CropPreset("corn", "Corn (Maize)", "Wheat", "High-yield grain crop",
      map[
        "moisture" := Range(50.0, 70.0),
        "soil-temp" := Range(16.0, 30.0),
        "ph" := Range(5.8, 7.0),
        "ec" := Range(1.0, 2.5),
        "nitrogen" := Range(50.0, 100.0),
        "phosphorus" := Range(20.0, 45.0),
        "potassium" := Range(30.0, 60.0),
        "humidity" := Range(50.0, 80.0),
        "ambient-temp" := Range(20.0, 32.0)])

  const Cotton: CropPreset :=
    CropPreset("cotton", "Cotton", "Flower2", "Fiber crop, warm climate",
      map[
        "moisture" := Range(35.0, 55.0),
        "soil-temp" := Range(20.0, 35.0),
        "ph" := Range(5.8, 8.0),
        "ec" := Range(1.0, 3.0),
        "nitrogen" := Range(30.0, 60.0),
        "phosphorus" := Range(15.0, 35.0),
        "potassium" := Range(40.0, 80.0),
        "humidity" := Range(40.0, 70.0),
        "ambient-temp" := Range(25.0, 38.0)])

  /** The table, in the order the crop selector lists it. */
  const Presets: seq<CropPreset> := [Rice, Wheat, Vegetables, Corn, Cotton]

  /** The range used for a channel the selected preset does not define. */
  const DefaultRange: Range := Range(0.0, 100.0)

  predicate IsKnownCrop(cropType: string)
  {
    exists i :: 0 <= i < |Presets| && Presets[i].id == cropType
  }

  /** Preset `p` defines exactly the nine channels, every range with
      min < max. */
  predicate WellFormedPreset(p: CropPreset)
  {
    && p.optimalRanges.Keys == set k | k in SensorIds
    && forall k :: k in p.optimalRanges ==> p.optimalRanges[k].min < p.optimalRanges[k].max
  }

  lemma RiceWellFormed()
    ensures WellFormedPreset(Presets[0])
  {
  }

  lemma WheatWellFormed()
    ensures WellFormedPreset(Presets[1])
  {
  }

  lemma VegetablesWellFormed()
    ensures WellFormedPreset(Presets[2])
  {
  }

  lemma CornWellFormed()
    ensures WellFormedPreset(Presets[3])
  {
  }

  lemma CottonWellFormed()
    ensures WellFormedPreset(Presets[4])
  {
  }

  /** Every preset of the table defines the nine channels with ordered
      ranges. */
  lemma PresetWellFormed(p: CropPreset)
    requires p in Presets
    ensures WellFormedPreset(p)
  {
    var i :| 0 <= i < |Presets| && Presets[i] == p;
    if i == 0 { RiceWellFormed(); }
    else if i == 1 { WheatWellFormed(); }
    else if i == 2 { VegetablesWellFormed(); }
    else if i == 3 { CornWellFormed(); }
    else { CottonWellFormed(); }
  }

  /** The five presets have distinct ids. */
  lemma PresetIdsDistinct()
    ensures |Presets| == 5
    ensures forall i, j :: 0 <= i < j < |Presets| ==> Presets[i].id != Presets[j].id
  {
  }

  /** The nine channel ids are distinct. */
  lemma SensorIdsDistinct()
    ensures forall i, j :: 0 <= i < j < |SensorIds| ==> SensorIds[i] != SensorIds[j]
  {
  }

  /** Where the four channels the suggestion rules read sit in the list. */
  lemma RuleChannelIndices()
    ensures SensorIds[0] == "moisture" && SensorIds[2] == "ph"
    ensures SensorIds[4] == "nitrogen" && SensorIds[8] == "ambient-temp"
  {
  }

  /** `getCropPreset`: the preset with that id, or the first (rice) when
      there is none; it never fails. */
  function GetCropPreset(cropType: string): (p: CropPreset)
    ensures p in Presets
    ensures IsKnownCrop(cropType) ==> p.id == cropType
    ensures !IsKnownCrop(cropType) ==> p == Presets[0]
  {
    match Find(Presets, (c: CropPreset) => c.id == cropType)
    case Some(c) => c
    case None => Presets[0]
  }

  /** `getOptimalRange`: the selected preset's range for the channel, or
      {0, 100} for a channel it does not define. */
  function GetOptimalRange(cropType: string, sensorId: string): (r: Range)
    ensures r.min < r.max
    ensures sensorId in SensorIds ==>
      sensorId in GetCropPreset(cropType).optimalRanges && r == GetCropPreset(cropType).optimalRanges[sensorId]
    ensures sensorId !in SensorIds ==> r == DefaultRange
  {
    var preset := GetCropPreset(cropType);
    PresetWellFormed(preset);
    if sensorId in preset.optimalRanges then preset.optimalRanges[sensorId] else DefaultRange
  }

  /** For a known crop the range comes from the row with that id. */
  lemma KnownCropRange(i: nat, sensorId: string)
    requires i < |Presets| && sensorId in SensorIds
    ensures GetCropPreset(Presets[i].id) == Presets[i]
    ensures sensorId in Presets[i].optimalRanges
      && GetOptimalRange(Presets[i].id, sensorId) == Presets[i].optimalRanges[sensorId]
  {
    PresetIdsDistinct();
    var p := GetCropPreset(Presets[i].id);
    assert IsKnownCrop(Presets[i].id);
    var j :| 0 <= j < |Presets| && Presets[j] == p;
    assert Presets[j].id == Presets[i].id;
    assert j == i;
    PresetWellFormed(Presets[i]);
  }

  /** Wheat's ranges for the four channels the suggestion rules read. */
  lemma WheatPhRange()
    ensures GetOptimalRange("wheat", "ph") == Range(6.0, 7.5)
  {
    assert Presets[1].id == "wheat";
    KnownCropRange(1, "ph");
  }

  lemma WheatNitrogenRange()
    ensures GetOptimalRange("wheat", "nitrogen") == Range(30.0, 60.0)
  {
    assert Presets[1].id == "wheat";
    KnownCropRange(1, "nitrogen");
  }

  lemma WheatMoistureRange()
    ensures GetOptimalRange("wheat", "moisture") == Range(30.0, 50.0)
  {
    assert Presets[1].id == "wheat";
    KnownCropRange(1, "moisture");
  }

  lemma WheatTemperatureRange()
    ensures GetOptimalRange("wheat", "ambient-temp") == Range(15.0, 25.0)
  {
    assert Presets[1].id == "wheat";
    KnownCropRange(1, "ambient-temp");
  }

  /** An unrecognised crop behaves exactly like rice, for every channel. */
  lemma UnknownCropIsRice(cropType: string, sensorId: string)
    requires !IsKnownCrop(cropType)
    ensures GetCropPreset(cropType) == GetCropPreset("rice")
    ensures GetOptimalRange(cropType, sensorId) == GetOptimalRange("rice", sensorId)
  {
    assert Presets[0].id == "rice";
  }

  /** Example: "banana" is not a crop, so its pH range is rice's {5.5, 6.5}. */
  lemma BananaUsesRicePh()
    ensures GetOptimalRange("banana", "ph") == Range(5.5, 6.5)
  {
    assert !IsKnownCrop("banana") by {
      forall i | 0 <= i < |Presets| ensures Presets[i].id != "banana" {
        assert Presets[i].id[0] != 'b';
      }
    }
    UnknownCropIsRice("banana", "ph");
  }
}
