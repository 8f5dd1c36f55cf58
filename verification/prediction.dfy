/**
 * A prediction request: load both regressors, re-derive Clay and the
 * Plasticity Index, read the six entries in declaration order (stopping at
 * the first blank one), build the 8-feature vector and give it to both
 * regressors. `PredictionRun` states what one request does; the method
 * `PredictResults` does it step by step and is proved to agree with it.
 */
module Prediction {

  import opened Wrappers
  import opened Widgets
  import opened Derivation

  /** A trained regressor: a feature vector to one predicted value. */
  type Regressor = seq<real> -> real

  datatype Models = Models(omc: Regressor, mdd: Regressor)

  /** The model files that deserialize, by path. */
  type ArtifactStore = map<string, Regressor>

  const OmcArtifact: string := "./results/models/OMC_Gradient Boosting_best.pkl"
  const MddArtifact: string := "./results/models/MDD_Gradient Boosting_best.pkl"

  datatype Loaded = Loaded(models: Models) | LoadFailed(dialog: Dialog)

  /**
   * `load_model`: both regressors or neither. The OMC file is read first,
   * so when both are missing the error names the OMC file.
   */
  function LoadModel(store: ArtifactStore): (r: Loaded)
    ensures r.Loaded? <==> OmcArtifact in store && MddArtifact in store
    ensures r.Loaded? ==> r.models.omc == store[OmcArtifact] && r.models.mdd == store[MddArtifact]
    ensures r.LoadFailed? ==>
      r.dialog.LoadError? && r.dialog.Title() == "Error" &&
      r.dialog.cause == (if OmcArtifact !in store then OmcArtifact else MddArtifact)
  {
    if OmcArtifact !in store then LoadFailed(LoadError(OmcArtifact))
    else if MddArtifact !in store then LoadFailed(LoadError(MddArtifact))
    else Loaded(Models(store[OmcArtifact], store[MddArtifact]))
  }

  /** An entry the input loop accepts: not blank, and `float` converts it. */
  predicate Usable(entry: Entry, parse: Parser)
  {
    !IsBlank(entry.text) && parse(entry.text).Some?
  }

  /** Entry `k` is the first one the input loop does not accept. */
  predicate FailsFirstAt(entries: seq<Entry>, k: nat, parse: Parser)
  {
    k < |entries| && !Usable(entries[k], parse) &&
    forall j :: 0 <= j < k ==> Usable(entries[j], parse)
  }

  /** What the input loop ends with. */
  datatype Collected =
    | Values(values: seq<real>)             // every entry converted, in order
    | Blank(field: string)                  // the first blank entry
    | NotANumber(field: string, text: string) // the first entry `float` rejects

  /** The input loop, stated recursively over the entries in order. */
  function Collect(entries: seq<Entry>, parse: Parser): Collected
    decreases |entries|
  {
    if entries == [] then Values([])
    else if IsBlank(entries[0].text) then Blank(entries[0].field)
    else if parse(entries[0].text).None? then NotANumber(entries[0].field, entries[0].text)
    else match Collect(entries[1..], parse)
      case Values(rest) => Values([parse(entries[0].text).value] + rest)
      case failure => failure
  }

  /** Fail-fast: the loop reports the first entry it does not accept, by name. */
  lemma {:induction false} CollectStopsAt(entries: seq<Entry>, k: nat, parse: Parser)
    requires FailsFirstAt(entries, k, parse)
    ensures Collect(entries, parse) ==
      if IsBlank(entries[k].text) then Blank(entries[k].field)
      else NotANumber(entries[k].field, entries[k].text)
    decreases k
  {
    if k > 0 {
      assert Usable(entries[0], parse);
      CollectStopsAt(entries[1..], k - 1, parse);
    }
  }

  /** With every entry accepted the loop yields all the numbers, in entry order. */
  lemma {:induction false} CollectAll(entries: seq<Entry>, parse: Parser)
    requires forall j :: 0 <= j < |entries| ==> Usable(entries[j], parse)
    ensures Collect(entries, parse).Values?
    ensures |Collect(entries, parse).values| == |entries|
    ensures forall j :: 0 <= j < |entries| ==>
      parse(entries[j].text) == Some(Collect(entries, parse).values[j])
    decreases |entries|
  {
    if entries != [] {
      CollectAll(entries[1..], parse);
      var rest := Collect(entries[1..], parse).values;
      assert Collect(entries, parse).values == [parse(entries[0].text).value] + rest;
    }
  }

  /** No entry after the first rejected one is looked at. */
  lemma CollectIgnoresLaterEntries(entries: seq<Entry>, others: seq<Entry>, k: nat, parse: Parser)
    requires FailsFirstAt(entries, k, parse)
    requires k < |others| && entries[..k + 1] == others[..k + 1]
    ensures Collect(entries, parse) == Collect(others, parse)
  {
    assert forall j :: 0 <= j <= k ==> entries[j] == entries[..k + 1][j] == others[j];
    CollectStopsAt(entries, k, parse);
    CollectStopsAt(others, k, parse);
  }

  /** How a request ends. */
  datatype Verdict =
    | ModelsUnavailable          // a model file did not load
    | DerivationInvalid          // Clay or the Plasticity Index is `None`
    | MissingField(field: string)  // the first blank entry
    | NotANumberField(field: string) // an entry `float` rejects in the input loop
    | Predicted(omc: real, mdd: real)

  datatype Target = Omc | Mdd

  /** One call of a regressor's `predict`. */
  datatype Invocation = Invocation(target: Target, features: seq<real>)

  /**
   * Everything a request does: its verdict, the label texts it writes
   * (`None`: left as they were), the dialogs it shows in order, and the
   * regressor calls it makes in order.
   */
  datatype Run = Run(
    verdict: Verdict,
    clayLabel: Option<string>,
    plasticityIndexLabel: Option<string>,
    resultLabel: Option<string>,
    dialogs: seq<Dialog>,
    invocations: seq<Invocation>)
  {
    /** The labels after the request. */
    function Show(before: Display): Display
    {
      Display(
        if clayLabel.Some? then clayLabel.value else before.clay,
        if plasticityIndexLabel.Some? then plasticityIndexLabel.value else before.plasticityIndex,
        if resultLabel.Some? then resultLabel.value else before.result)
    }
  }

  /** The result label text after a successful prediction: two lines. */
  function ResultText(omc: real, mdd: real, fmt: Formatter): string
  {
    OmcLine(omc, fmt) + "\n" + MddLine(mdd, fmt)
  }

  function OmcLine(omc: real, fmt: Formatter): string
  {
    "Predicted OMC: " + fmt(omc) + "%"
  }

  function MddLine(mdd: real, fmt: Formatter): string
  {
    "Predicted MDD: " + fmt(mdd) + " g/cm³"
  }

  /** Python's wording of the `ValueError` raised by `float(text)`. */
  function ConversionCause(text: string): string
  {
    "could not convert string to float: '" + text + "'"
  }

  /** `predict_results`, as one function of the window's inputs and the model files. */
  function PredictionRun(form: Form, store: ArtifactStore, parse: Parser, fmt: Formatter): Run
  {
    match LoadModel(store)
    case LoadFailed(loadError) => Run(ModelsUnavailable, None, None, None, [loadError], [])
    case Loaded(models) =>
      var clay := UpdateClay(form, parse, fmt);
      var index := CalculatePlasticityIndex(form, parse, fmt);
      var shown := clay.Dialogs() + index.Dialogs();
      if clay.Value().None? || index.Value().None? then
        Run(DerivationInvalid, Some(clay.shown), Some(index.shown), None, shown, [])
      else
        match Collect(Entries(form), parse)
        case Blank(field) =>
          Run(MissingField(field), Some(clay.shown), Some(index.shown), None, shown + [FillInError(field)], [])
        case NotANumber(field, text) =>
          Run(NotANumberField(field), Some(clay.shown), Some(index.shown), None,
              shown + [PredictionError(ConversionCause(text))], [])
        case Values(raw) =>
          var features := raw + [index.outcome.value, clay.outcome.value];
          var omc := models.omc(features);
          var mdd := models.mdd(features);
          Run(Predicted(omc, mdd), Some(clay.shown), Some(index.shown), Some(ResultText(omc, mdd, fmt)),
              shown, [Invocation(Omc, features), Invocation(Mdd, features)])
  }

  /**
   * `predict_results` step by step: the input loop appends one converted
   * entry per iteration and returns early at the first blank or
   * non-numeric entry. It does exactly what `PredictionRun` states.
   */
  method PredictResults(form: Form, store: ArtifactStore, parse: Parser, fmt: Formatter) returns (run: Run)
    ensures run == PredictionRun(form, store, parse, fmt)
  {
    var loaded := LoadModel(store);
    if loaded.LoadFailed? {
      return Run(ModelsUnavailable, None, None, None, [loaded.dialog], []);
    }
    var models := loaded.models;

    var clay := UpdateClay(form, parse, fmt);
    var index := CalculatePlasticityIndex(form, parse, fmt);
    var shown := clay.Dialogs() + index.Dialogs();
    if clay.Value().None? || index.Value().None? {
      return Run(DerivationInvalid, Some(clay.shown), Some(index.shown), None, shown, []);
    }

    var entries := Entries(form);
    var inputs: seq<real> := [];
    var i := 0;
    while i < |entries|
      invariant 0 <= i <= |entries|
      invariant |inputs| == i
      invariant forall j :: 0 <= j < i ==> Usable(entries[j], parse)
      invariant forall j :: 0 <= j < i ==> inputs[j] == parse(entries[j].text).value
    {
      var entry := entries[i];
      if IsBlank(entry.text) {
        CollectStopsAt(entries, i, parse);
        return Run(MissingField(entry.field), Some(clay.shown), Some(index.shown), None,
                   shown + [FillInError(entry.field)], []);
      }
      var value := parse(entry.text);
      if value.None? {
        CollectStopsAt(entries, i, parse);
        return Run(NotANumberField(entry.field), Some(clay.shown), Some(index.shown), None,
                   shown + [PredictionError(ConversionCause(entry.text))], []);
      }
      inputs := inputs + [value.value];
      i := i + 1;
    }
    CollectAll(entries, parse);
    assert inputs == Collect(entries, parse).values;
    ghost var raw := inputs;

    inputs := inputs + [index.outcome.value];
    inputs := inputs + [clay.outcome.value];
    assert inputs == raw + [index.outcome.value, clay.outcome.value];
    var omc := models.omc(inputs);
    var mdd := models.mdd(inputs);
    run := Run(Predicted(omc, mdd), Some(clay.shown), Some(index.shown), Some(ResultText(omc, mdd, fmt)),
               shown, [Invocation(Omc, inputs), Invocation(Mdd, inputs)]);
  }

  /** Both model files load. */
  predicate ModelsPresent(store: ArtifactStore)
  {
    OmcArtifact in store && MddArtifact in store
  }

  /** Both derivations produce a number. */
  predicate DerivationsValid(form: Form, parse: Parser, fmt: Formatter)
  {
    UpdateClay(form, parse, fmt).outcome.Ok? && CalculatePlasticityIndex(form, parse, fmt).outcome.Ok?
  }

  /**
   * A request that does not predict calls no regressor and leaves the result
   * label as it was; each abort has exactly its cause, checked in order:
   * model files, then the derivations, then the entries.
   */
  lemma NoModelInvokedOnAbort(form: Form, store: ArtifactStore, parse: Parser, fmt: Formatter, before: Display)
    ensures var r := PredictionRun(form, store, parse, fmt);
      (r.invocations == [] <==> !r.verdict.Predicted?) &&
      (!r.verdict.Predicted? ==> r.Show(before).result == before.result) &&
      (r.verdict.ModelsUnavailable? <==> !ModelsPresent(store)) &&
      (r.verdict.DerivationInvalid? <==> ModelsPresent(store) && !DerivationsValid(form, parse, fmt)) &&
      (r.verdict.MissingField? || r.verdict.NotANumberField? ==>
        ModelsPresent(store) && DerivationsValid(form, parse, fmt) &&
        exists k :: FailsFirstAt(Entries(form), k, parse))
  {
    var r := PredictionRun(form, store, parse, fmt);
    if ModelsPresent(store) && DerivationsValid(form, parse, fmt) {
      var entries := Entries(form);
      if forall j :: 0 <= j < |entries| ==> Usable(entries[j], parse) {
        CollectAll(entries, parse);
      } else {
        var k := FirstUnusable(entries, parse);
        CollectStopsAt(entries, k, parse);
      }
    }
  }

  /** The index of the first entry the input loop does not accept. */
  lemma FirstUnusable(entries: seq<Entry>, parse: Parser) returns (k: nat)
    requires exists j :: 0 <= j < |entries| && !Usable(entries[j], parse)
    ensures FailsFirstAt(entries, k, parse)
  {
    k := 0;
    while Usable(entries[k], parse)
      invariant k < |entries|
      invariant forall j :: 0 <= j < k ==> Usable(entries[j], parse)
      invariant exists j :: k <= j < |entries| && !Usable(entries[j], parse)
      decreases |entries| - k
    {
      k := k + 1;
    }
  }

  /**
   * Fail-fast: once the models load and both derivations hold, the request
   * stops at the first entry, in declaration order, that is blank or not a
   * number, names that field, and calls no regressor.
   */
  lemma FirstRejectedFieldIsNamed(form: Form, store: ArtifactStore, parse: Parser, fmt: Formatter, k: nat)
    requires ModelsPresent(store) && DerivationsValid(form, parse, fmt)
    requires FailsFirstAt(Entries(form), k, parse)
    ensures var r := PredictionRun(form, store, parse, fmt);
      r.invocations == [] && r.resultLabel == None &&
      (IsBlank(Entries(form)[k].text) ==>
        r.verdict == MissingField(FieldLabels[k]) &&
        r.dialogs[|r.dialogs| - 1].Message() == "Please fill in the " + FieldLabels[k] + ".") &&
      (!IsBlank(Entries(form)[k].text) ==>
        r.verdict == NotANumberField(FieldLabels[k]) &&
        r.dialogs[|r.dialogs| - 1].Title() == "Prediction Error")
  {
    CollectStopsAt(Entries(form), k, parse);
  }

  /**
   * The clay preview counts an empty Gravel entry as 0, but the request
   * still rejects it: with the models present and both derivations valid,
   * an empty Gravel entry ends the request with the Gravel field named.
   */
  lemma EmptyGravelRejectedAtPrediction(form: Form, store: ArtifactStore, parse: Parser, fmt: Formatter)
    requires ModelsPresent(store) && DerivationsValid(form, parse, fmt)
    requires form.gravel == ""
    ensures PredictionRun(form, store, parse, fmt).verdict == MissingField(GravelLabel)
  {
    FirstRejectedFieldIsNamed(form, store, parse, fmt, 0);
  }

  /**
   * A blank Liquid or Plastic Limit stops the request before the input
   * loop: no field is named and no regressor is called. An empty limit makes
   * the Plasticity Index "N/A"; one that holds only whitespace reaches
   * `float`, which rejects it, and the index reads "Invalid Input".
   */
  lemma BlankLimitAbortsSilently(form: Form, store: ArtifactStore, parse: Parser, fmt: Formatter)
    requires ModelsPresent(store)
    requires IsBlank(form.liquidLimit) || IsBlank(form.plasticLimit)
    requires form.liquidLimit == "" || form.plasticLimit == "" || RejectsBlankText(parse)
    ensures var r := PredictionRun(form, store, parse, fmt);
      r.verdict == DerivationInvalid && r.invocations == [] &&
      (forall d <- r.dialogs :: !d.FillInError?) &&
      (form.liquidLimit == "" || form.plasticLimit == "" ==>
        r.plasticityIndexLabel == Some(NotApplicableText)) &&
      (form.liquidLimit != "" && form.plasticLimit != "" ==>
        r.plasticityIndexLabel == Some(InvalidInputText))
  {
    if form.liquidLimit != "" && form.plasticLimit != "" {
      if IsBlank(form.liquidLimit) {
        assert parse(form.liquidLimit).None?;
      } else {
        assert parse(form.plasticLimit).None?;
      }
    }
  }

  /**
   * With a parser that rejects blank text as `float` does, the fill-in
   * dialog never names a limit: a blank limit already ends the request in
   * the Plasticity Index, so only Gravel, Sand, Silt or Compaction Energy
   * can be reported missing.
   */
  lemma MissingFieldIsNeverALimit(form: Form, store: ArtifactStore, parse: Parser, fmt: Formatter)
    requires RejectsBlankText(parse)
    ensures var r := PredictionRun(form, store, parse, fmt);
      r.verdict.MissingField? ==>
        r.verdict.field in {GravelLabel, SandLabel, SiltLabel, CompactionEnergyLabel}
  {
    var r := PredictionRun(form, store, parse, fmt);
    if r.verdict.MissingField? {
      NoModelInvokedOnAbort(form, store, parse, fmt, InitialDisplay);
      var entries := Entries(form);
      var k: nat :| FailsFirstAt(entries, k, parse);
      CollectStopsAt(entries, k, parse);
      assert IsBlank(entries[k].text);
      assert parse(entries[k].text).None?;
      assert k != 3 && k != 4;
    }
  }

  /**
   * The feature vector: a request predicts exactly when the models load,
   * both derivations hold and every entry is accepted. Then both regressors
   * get the same 8 values: the six entries in declaration order, then the
   * Plasticity Index (Liquid Limit minus Plastic Limit), then Clay (what
   * Gravel, Sand and Silt leave of 100).
   */
  lemma FeatureVectorLayout(form: Form, store: ArtifactStore, parse: Parser, fmt: Formatter)
    ensures var r := PredictionRun(form, store, parse, fmt);
      var entries := Entries(form);
      (r.verdict.Predicted? <==>
        ModelsPresent(store) && DerivationsValid(form, parse, fmt) &&
        forall j :: 0 <= j < |entries| ==> Usable(entries[j], parse)) &&
      (r.verdict.Predicted? ==>
        |r.invocations| == 2 &&
        r.invocations[0].target == Omc && r.invocations[1].target == Mdd &&
        r.invocations[0].features == r.invocations[1].features &&
        var v := r.invocations[0].features;
        |v| == 8 &&
        (forall j :: 0 <= j < 6 ==> parse(entries[j].text) == Some(v[j])) &&
        v[6] == v[3] - v[4] && v[6] >= 0.0 &&
        v[7] == 100.0 - (v[0] + v[1] + v[2]) && 0.0 <= v[7] <= 100.0 &&
        r.verdict == Predicted(store[OmcArtifact](v), store[MddArtifact](v)) &&
        r.resultLabel == Some(ResultText(r.verdict.omc, r.verdict.mdd, fmt)))
  {
    var r := PredictionRun(form, store, parse, fmt);
    var entries := Entries(form);
    if ModelsPresent(store) && DerivationsValid(form, parse, fmt) {
      if forall j :: 0 <= j < |entries| ==> Usable(entries[j], parse) {
        CollectAll(entries, parse);
        var v := r.invocations[0].features;
        assert forall j :: 0 <= j < 6 ==> parse(entries[j].text) == Some(v[j]);
        assert entries[0].text == form.gravel && entries[1].text == form.sand && entries[2].text == form.silt;
        assert !IsBlank(form.gravel) && !IsBlank(form.sand) && !IsBlank(form.silt);
      } else {
        var k := FirstUnusable(entries, parse);
        CollectStopsAt(entries, k, parse);
      }
    }
  }

  /**
   * A worked request: Gravel 20, Sand 30, Silt 25, Liquid Limit 40, Plastic
   * Limit 20 and Compaction Energy 600 give Plasticity Index 20 and Clay 25,
   * and both regressors receive [20, 30, 25, 40, 20, 600, 20, 25].
   */
  lemma WorkedFeatureVector(store: ArtifactStore, parse: Parser, fmt: Formatter)
    requires ModelsPresent(store)
    requires parse("20") == Some(20.0) && parse("30") == Some(30.0) && parse("25") == Some(25.0)
    requires parse("40") == Some(40.0) && parse("600") == Some(600.0)
    ensures var r := PredictionRun(Form("20", "30", "25", "40", "20", "600"), store, parse, fmt);
      var v := [20.0, 30.0, 25.0, 40.0, 20.0, 600.0, 20.0, 25.0];
      r.invocations == [Invocation(Omc, v), Invocation(Mdd, v)]
  {
    var form := Form("20", "30", "25", "40", "20", "600");
    assert !IsBlank("20") && !IsBlank("30") && !IsBlank("25") && !IsBlank("40") && !IsBlank("600") by {
      assert !IsSpace("20"[0]) && !IsSpace("30"[0]) && !IsSpace("25"[0]);
      assert !IsSpace("40"[0]) && !IsSpace("600"[0]);
    }
    assert CoarseSum(form, parse) == 75.0;
    assert DerivationsValid(form, parse, fmt);
    FeatureVectorLayout(form, store, parse, fmt);
    var r := PredictionRun(form, store, parse, fmt);
    var v := r.invocations[0].features;
    var expected := [20.0, 30.0, 25.0, 40.0, 20.0, 600.0, 20.0, 25.0];
    assert v == expected by {
      assert |v| == 8;
      assert v[0] == 20.0 && v[1] == 30.0 && v[2] == 25.0;
      assert v[3] == 40.0 && v[4] == 20.0 && v[5] == 600.0;
      assert forall j :: 0 <= j < 8 ==> v[j] == expected[j];
    }
    assert r.invocations[0] == Invocation(Omc, expected);
    assert r.invocations[1] == Invocation(Mdd, expected);
    assert r.invocations == [r.invocations[0], r.invocations[1]];
  }

  /**
   * Only Compaction Energy can fail `float` inside the input loop: the other
   * five entries were already converted by the two derivations, so a
   * non-numeric one among them ends the request as a derivation failure.
   */
  lemma OnlyCompactionEnergyFailsConversion(form: Form, store: ArtifactStore, parse: Parser, fmt: Formatter)
    ensures var r := PredictionRun(form, store, parse, fmt);
      r.verdict.NotANumberField? ==> r.verdict.field == CompactionEnergyLabel
  {
    var r := PredictionRun(form, store, parse, fmt);
    if r.verdict.NotANumberField? {
      NoModelInvokedOnAbort(form, store, parse, fmt, InitialDisplay);
      var entries := Entries(form);
      var k: nat :| FailsFirstAt(entries, k, parse);
      CollectStopsAt(entries, k, parse);
      assert !IsBlank(entries[k].text) && parse(entries[k].text).None?;
      assert entries[k].text != "";
      assert k == 5;
    }
  }

}
