/**
 * The two derived features: the Clay fraction, the complement to 100 of
 * Gravel + Sand + Silt, and the Plasticity Index, Liquid Limit minus Plastic
 * Limit. Each derivation returns the number (or `None`) together with the
 * text it writes into its label and the dialog it shows, if any.
 */
module Derivation {

  import opened Wrappers
  import opened Widgets

  /** Text-to-number conversion (`float(text)`); `None` where it raises `ValueError`. */
  type Parser = string -> Option<real>

  /** Two-decimal rendering of a number (`f"{x:.2f}"`). */
  type Formatter = real -> string

  /**
   * Python's `float` raises on a text that is empty or holds only
   * whitespace; a parser with this property behaves like it there.
   */
  ghost predicate RejectsBlankText(parse: Parser)
  {
    forall t :: IsBlank(t) ==> parse(t).None?
  }

  const InvalidText: string := "Invalid"
  const NotApplicableText: string := "N/A"
  const InvalidInputText: string := "Invalid Input"

  datatype Outcome =
    | Ok(value: real)    // the derived number
    | OutOfRange         // parsed, but outside the physical range
    | NotApplicable      // an input is missing; not an error
    | Unparsable         // an input is not a number

  /** The result of one derivation: its outcome, the new label text and the dialog shown. */
  datatype Derived = Derived(outcome: Outcome, shown: string, dialog: Option<Dialog>)
  {
    /** What the Python function returns: the number, or `None`. */
    function Value(): Option<real>
    {
      if outcome.Ok? then Some(outcome.value) else None
    }

    /** The dialogs shown, as a sequence. */
    function Dialogs(): seq<Dialog>
    {
      if dialog.Some? then [dialog.value] else []
    }
  }

  /** `float(text or 0)`: for the Clay preview an empty entry counts as 0. */
  function PreviewNumber(text: string, parse: Parser): Option<real>
  {
    if text == "" then Some(0.0) else parse(text)
  }

  /** The three coarse fractions read for the Clay preview all convert to numbers. */
  predicate FractionsParse(form: Form, parse: Parser)
  {
    PreviewNumber(form.gravel, parse).Some? &&
    PreviewNumber(form.sand, parse).Some? &&
    PreviewNumber(form.silt, parse).Some?
  }

  /** Gravel + Sand + Silt as read for the Clay preview. */
  function CoarseSum(form: Form, parse: Parser): real
    requires FractionsParse(form, parse)
  {
    PreviewNumber(form.gravel, parse).value +
    PreviewNumber(form.sand, parse).value +
    PreviewNumber(form.silt, parse).value
  }

  /**
   * `update_clay`: Clay is what Gravel, Sand and Silt leave of 100 %. It is
   * accepted exactly when it lies in [0, 100]; otherwise the label reads
   * "Invalid" and the range dialog is shown. An entry that is not a number
   * also gives "Invalid", without a dialog.
   */
  function UpdateClay(form: Form, parse: Parser, fmt: Formatter): (d: Derived)
    ensures !d.outcome.NotApplicable?
    ensures d.outcome.Unparsable? <==> !FractionsParse(form, parse)
    ensures d.outcome.Ok? <==> FractionsParse(form, parse) && 0.0 <= CoarseSum(form, parse) <= 100.0
    ensures d.outcome.Ok? ==>
      d.outcome.value + CoarseSum(form, parse) == 100.0 && 0.0 <= d.outcome.value <= 100.0 &&
      d.shown == fmt(d.outcome.value) + "%" && d.dialog == None
    ensures d.outcome.OutOfRange? ==> d.shown == InvalidText && d.dialog == Some(ClaySumError)
    ensures d.outcome.Unparsable? ==> d.shown == InvalidText && d.dialog == None
  {
    match (PreviewNumber(form.gravel, parse), PreviewNumber(form.sand, parse), PreviewNumber(form.silt, parse))
    case (Some(gravel), Some(sand), Some(silt)) =>
      var clay := 100.0 - (gravel + sand + silt);
      if clay < 0.0 || clay > 100.0 then Derived(OutOfRange, InvalidText, Some(ClaySumError))
      else Derived(Ok(clay), fmt(clay) + "%", None)
    case _ => Derived(Unparsable, InvalidText, None)
  }

  /**
   * `calculate_plasticity_index`: with both limits entered and numeric, the
   * index is Liquid Limit minus Plastic Limit, accepted when not negative.
   * A missing limit is "N/A" (no error); a non-numeric limit is "Invalid
   * Input"; a negative index is "Invalid" with a dialog.
   */
  function CalculatePlasticityIndex(form: Form, parse: Parser, fmt: Formatter): (d: Derived)
    ensures d.outcome.NotApplicable? <==> form.liquidLimit == "" || form.plasticLimit == ""
    ensures d.outcome.Unparsable? <==>
      form.liquidLimit != "" && form.plasticLimit != "" &&
      (parse(form.liquidLimit).None? || parse(form.plasticLimit).None?)
    ensures d.outcome.Ok? || d.outcome.OutOfRange? ==>
      parse(form.liquidLimit).Some? && parse(form.plasticLimit).Some? &&
      (d.outcome.Ok? <==> parse(form.plasticLimit).value <= parse(form.liquidLimit).value)
    ensures d.outcome.Ok? ==>
      parse(form.plasticLimit).value + d.outcome.value == parse(form.liquidLimit).value &&
      d.outcome.value >= 0.0 && d.shown == fmt(d.outcome.value) && d.dialog == None
    ensures d.outcome.OutOfRange? ==> d.shown == InvalidText && d.dialog == Some(NegativeIndexError)
    ensures d.outcome.NotApplicable? ==> d.shown == NotApplicableText && d.dialog == None
    ensures d.outcome.Unparsable? ==> d.shown == InvalidInputText && d.dialog == None
  {
    if form.liquidLimit != "" && form.plasticLimit != "" then
      match (parse(form.liquidLimit), parse(form.plasticLimit))
      case (Some(liquid), Some(plastic)) =>
        var index := liquid - plastic;
        if index < 0.0 then Derived(OutOfRange, InvalidText, Some(NegativeIndexError))
        else Derived(Ok(index), fmt(index), None)
      case _ => Derived(Unparsable, InvalidInputText, None)
    else
      Derived(NotApplicable, NotApplicableText, None)
  }

  /**
   * An empty coarse-fraction entry in the Clay preview behaves exactly like
   * an entry that reads as zero.
   */
  lemma EmptyFractionIsZero(form: Form, zero: string, parse: Parser, fmt: Formatter)
    requires zero != "" && parse(zero) == Some(0.0)
    ensures UpdateClay(form.(gravel := ""), parse, fmt) == UpdateClay(form.(gravel := zero), parse, fmt)
    ensures UpdateClay(form.(sand := ""), parse, fmt) == UpdateClay(form.(sand := zero), parse, fmt)
    ensures UpdateClay(form.(silt := ""), parse, fmt) == UpdateClay(form.(silt := zero), parse, fmt)
  {
  }

  /**
   * Only the empty text counts as 0: a coarse fraction that holds only
   * whitespace reaches `float`, which rejects it, so Clay is "Invalid"
   * without a dialog.
   */
  lemma WhitespaceFractionIsInvalid(form: Form, parse: Parser, fmt: Formatter)
    requires RejectsBlankText(parse)
    requires (form.gravel != "" && IsBlank(form.gravel)) ||
             (form.sand != "" && IsBlank(form.sand)) ||
             (form.silt != "" && IsBlank(form.silt))
    ensures var d := UpdateClay(form, parse, fmt);
      d.outcome.Unparsable? && d.shown == InvalidText && d.dialog == None
  {
    assert !FractionsParse(form, parse) by {
      if form.gravel != "" && IsBlank(form.gravel) {
        assert parse(form.gravel).None?;
      } else if form.sand != "" && IsBlank(form.sand) {
        assert parse(form.sand).None?;
      } else {
        assert parse(form.silt).None?;
      }
    }
  }

  /**
   * The Clay label tells an accepted value from a rejected one: an accepted
   * value is shown with a trailing "%", which "Invalid" does not have.
   */
  lemma ClayLabelIdentifiesOutcome(form: Form, parse: Parser, fmt: Formatter)
    ensures UpdateClay(form, parse, fmt).shown == InvalidText <==> !UpdateClay(form, parse, fmt).outcome.Ok?
  {
    var d := UpdateClay(form, parse, fmt);
    if d.outcome.Ok? {
      var text := fmt(d.outcome.value) + "%";
      assert text[|text| - 1] == '%';
      assert InvalidText[|InvalidText| - 1] == 'd';
    }
  }

  /**
   * When the formatter never produces one of the three marker texts, the
   * Plasticity Index label alone tells which outcome occurred; in particular
   * "N/A" (missing limit) is distinguishable from both errors.
   */
  lemma PlasticityIndexLabelIdentifiesOutcome(form: Form, parse: Parser, fmt: Formatter)
    requires forall x :: fmt(x) != NotApplicableText && fmt(x) != InvalidText && fmt(x) != InvalidInputText
    ensures var d := CalculatePlasticityIndex(form, parse, fmt);
      (d.shown == NotApplicableText <==> d.outcome.NotApplicable?) &&
      (d.shown == InvalidText <==> d.outcome.OutOfRange?) &&
      (d.shown == InvalidInputText <==> d.outcome.Unparsable?)
  {
    assert NotApplicableText != InvalidText && NotApplicableText != InvalidInputText;
    assert InvalidText != InvalidInputText by {
      assert |InvalidText| != |InvalidInputText|;
    }
  }

}
