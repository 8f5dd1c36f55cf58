/**
 * The state of the window that the computations read and write: the six
 * input entries (registered in the order of `fields_dict`), the three output
 * labels, and the error dialogs the program pops up.
 */
module Widgets {

  const GravelLabel: string := "Gravel (%)"
  const SandLabel: string := "Sand (%)"
  const SiltLabel: string := "Silt (%)"
  const LiquidLimitLabel: string := "Liquid Limit (%)"
  const PlasticLimitLabel: string := "Plastic Limit (%)"
  const CompactionEnergyLabel: string := "Compaction Energy (kN-m/m³)"

  /** The entry labels in declaration order; the feature vector follows this order. */
  const FieldLabels: seq<string> :=
    [GravelLabel, SandLabel, SiltLabel, LiquidLimitLabel, PlasticLimitLabel, CompactionEnergyLabel]

  /** What the user has typed into each of the six entries. */
  datatype Form = Form(
    gravel: string,
    sand: string,
    silt: string,
    liquidLimit: string,
    plasticLimit: string,
    compactionEnergy: string)

  /** One item of the entry dictionary: its field label and the entry's current text. */
  datatype Entry = Entry(field: string, text: string)

  /**
   * The entry dictionary as iterated: one item per field, in declaration
   * order, under pairwise distinct labels.
   */
  function Entries(form: Form): (entries: seq<Entry>)
    ensures |entries| == |FieldLabels|
    ensures forall i :: 0 <= i < |entries| ==> entries[i].field == FieldLabels[i]
    ensures forall i, j :: 0 <= i < j < |entries| ==> entries[i].field != entries[j].field
  {
    [ Entry(GravelLabel, form.gravel),
      Entry(SandLabel, form.sand),
      Entry(SiltLabel, form.silt),
      Entry(LiquidLimitLabel, form.liquidLimit),
      Entry(PlasticLimitLabel, form.plasticLimit),
      Entry(CompactionEnergyLabel, form.compactionEnergy) ]
  }

  /** The texts of the three output labels: Clay, Plasticity Index and the results. */
  datatype Display = Display(clay: string, plasticityIndex: string, result: string)

  /** The labels as the window is created. */
  const InitialDisplay: Display := Display("N/A", "N/A", "")

  /** A character for which Python's `str.isspace` holds. */
  predicate IsSpace(c: char)
  {
    c == ' ' || ('\t' <= c <= '\r') || ('\U{1C}' <= c <= '\U{1F}') ||
    c == '\U{85}' || c == '\U{A0}' || c == '\U{1680}' || ('\U{2000}' <= c <= '\U{200A}') ||
    c == '\U{2028}' || c == '\U{2029}' || c == '\U{202F}' || c == '\U{205F}' || c == '\U{3000}'
  }

  /** `not text.strip()`: the text is empty or holds only whitespace. */
  predicate IsBlank(text: string)
  {
    forall i :: 0 <= i < |text| ==> IsSpace(text[i])
  }

  /** The error dialogs the program shows, each with its title and message. */
  datatype Dialog =
    | LoadError(cause: string)
    | ClaySumError
    | NegativeIndexError
    | FillInError(field: string)
    | PredictionError(cause: string)
  {
    function Title(): string
    {
      match this
      case LoadError(_) => "Error"
      case ClaySumError => "Input Error"
      case NegativeIndexError => "Input Error"
      case FillInError(_) => "Input Error"
      case PredictionError(_) => "Prediction Error"
    }

    function Message(): string
    {
      match this
      case LoadError(cause) => "Error loading models: " + cause
      case ClaySumError => "The sum of Gravel, Sand, and Silt cannot exceed 100%."
      case NegativeIndexError => "Plasticity Index cannot be negative."
      case FillInError(field) => "Please fill in the " + field + "."
      case PredictionError(cause) => "Error during prediction: " + cause
    }
  }

}
