/** The dashboard's record types: a classified sensor reading, a
    recommendation, and the rover's displayed state. */
module SensorTypes {

  datatype SensorStatus = Optimal | Warning | Critical

  /** An inclusive band `{min, max}`. */
  datatype Range = Range(min: real, max: real)

  /** One sensor channel as the dashboard shows it. `lastUpdated` stands for
      the `Date` of the snapshot, as seconds. */
  datatype SensorData = SensorData(
    id: string,
    name: string,
    value: real,
    unit: string,
    status: SensorStatus,
    icon: string,
    min: real,
    max: real,
    optimal: Range,
    history: seq<real>,
    lastUpdated: real)

  datatype SuggestionType = Fertilizer | Irrigation | Ph | General

  datatype Priority = High | Medium | Low

  /** Which of its variants a rule's description takes. The descriptions are
      templates that interpolate numbers; the model keeps the branch. */
  datatype Advice =
    | AddLime            // pH too acidic
    | LowerPh            // pH too alkaline: sulfur or organic matter
    | RiceUrea           // rice: split urea doses
    | UreaOrCompost      // any other crop: urea or compost
    | NoIrrigationChange // moisture optimal
    | IncreaseIrrigation // moisture below the range
    | ReduceWatering     // moisture above the range
    | ShadeAndMulch      // too hot
    | RowCovers          // too cold

  /** The facts a description and a reason interpolate: the crop's display
      name, the reading's value and the optimal range it was judged against. */
  datatype TextFacts = TextFacts(cropName: string, value: real, optimal: Range)

  datatype AISuggestion = AISuggestion(
    id: string,
    kind: SuggestionType,
    title: string,
    advice: Advice,
    facts: TextFacts,
    priority: Priority,
    icon: string)

  datatype Position = Position(x: real, y: real)

  datatype RoverState = RoverState(connected: bool, battery: real, speed: real, position: Position)
}
