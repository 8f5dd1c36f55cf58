/**
 * "Copy All": the text put on the clipboard, one `field: text` line per
 * entry in declaration order, then the Clay and Plasticity Index lines and
 * a results block.
 */
module Clipboard {

  import opened Lines
  import opened Widgets
  import opened Derivation
  import opened Prediction

  /** One `field: text` line per entry, in declaration order. */
  function FieldLines(form: Form): (lines: seq<string>)
    ensures |lines| == |FieldLabels|
    ensures forall i :: 0 <= i < |lines| ==> lines[i] == FieldLabels[i] + ": " + Entries(form)[i].text
  {
    var entries := Entries(form);
    seq(|entries|, i requires 0 <= i < |entries| => entries[i].field + ": " + entries[i].text)
  }

  function ClayLine(shown: Display): string
  {
    "Clay: " + shown.clay
  }

  function PlasticityIndexLine(shown: Display): string
  {
    "Plasticity Index: " + shown.plasticityIndex
  }

  /** `copy_all`: the clipboard text for the current entries and labels. */
  function CopyAll(form: Form, shown: Display): string
  {
    JoinLines(FieldLines(form) + [ClayLine(shown), PlasticityIndexLine(shown), "\nResults:\n" + shown.result])
  }

  /** No entry text and neither derived label holds a line break. */
  predicate SingleLineFields(form: Form, shown: Display)
  {
    (forall e <- Entries(form) :: Newline !in e.text) &&
    Newline !in shown.clay && Newline !in shown.plasticityIndex
  }

  /**
   * Read back line by line, the copied text holds every entry's label and
   * text in declaration order, the Clay and Plasticity Index labels, an
   * empty line, "Results:" and then the result label verbatim.
   */
  lemma CopyAllLines(form: Form, shown: Display)
    requires SingleLineFields(form, shown)
    ensures Split(CopyAll(form, shown)) ==
      FieldLines(form) + [ClayLine(shown), PlasticityIndexLine(shown), "", "Results:"] + Split(shown.result)
  {
    var heads := FieldLines(form) + [ClayLine(shown), PlasticityIndexLine(shown)];
    HeadLinesSingle(form, shown);
    var block := "\nResults:\n" + shown.result;
    assert FieldLines(form) + [ClayLine(shown), PlasticityIndexLine(shown), block] == heads + [block];
    SplitJoinLines(heads, block);
    ResultsBlockLines(shown.result);
  }

  /** The entry lines and the two derived-value lines are single lines. */
  lemma HeadLinesSingle(form: Form, shown: Display)
    requires SingleLineFields(form, shown)
    ensures var heads := FieldLines(form) + [ClayLine(shown), PlasticityIndexLine(shown)];
      forall i :: 0 <= i < |heads| ==> Newline !in heads[i]
  {
    FieldLinesSingle(form);
    CaptionsSingleLine();
    NoNewlineInJoin("Clay: ", shown.clay);
    NoNewlineInJoin("Plasticity Index: ", shown.plasticityIndex);
  }

  lemma FieldLinesSingle(form: Form)
    requires forall e <- Entries(form) :: Newline !in e.text
    ensures forall i :: 0 <= i < |FieldLines(form)| ==> Newline !in FieldLines(form)[i]
  {
    var entries := Entries(form);
    CaptionsSingleLine();
    forall i | 0 <= i < |entries|
      ensures Newline !in FieldLines(form)[i]
    {
      assert entries[i] in entries;
      NoNewlineInJoin(FieldLabels[i], ": ");
      NoNewlineInJoin(FieldLabels[i] + ": ", entries[i].text);
    }
  }

  /** The fixed texts of the copied lines hold no line break. */
  lemma CaptionsSingleLine()
    ensures forall i :: 0 <= i < |FieldLabels| ==> Newline !in FieldLabels[i]
    ensures Newline !in ": " && Newline !in "Clay: " && Newline !in "Plasticity Index: "
    ensures Newline !in "Predicted OMC: " && Newline !in "%"
    ensures Newline !in "Predicted MDD: " && Newline !in " g/cm³"
  {
  }

  /** The results block reads back as an empty line, "Results:" and the result's own lines. */
  lemma ResultsBlockLines(result: string)
    ensures Split("\nResults:\n" + result) == ["", "Results:"] + Split(result)
  {
    var caption := "Results:";
    assert Newline !in caption;
    assert "\nResults:\n" + result == [Newline] + caption + [Newline] + result;
    CaptionBlockLines(caption, result);
  }

  lemma CaptionBlockLines(caption: string, rest: string)
    requires Newline !in caption
    ensures Split([Newline] + caption + [Newline] + rest) == ["", caption] + Split(rest)
  {
    var empty: string := [];
    assert [Newline] + caption + [Newline] + rest == empty + [Newline] + (caption + [Newline] + rest);
    SplitAtNewline(empty, caption + [Newline] + rest);
    SplitAtNewline(caption, rest);
    SplitSingleLine(empty);
    SplitSingleLine(caption);
  }

  lemma NoNewlineInJoin(a: string, b: string)
    requires Newline !in a && Newline !in b
    ensures Newline !in a + b
  {
  }

  /** With a formatter that writes no line break, the result label is two lines. */
  lemma ResultTextLines(omc: real, mdd: real, fmt: Formatter)
    requires forall x :: Newline !in fmt(x)
    ensures Split(ResultText(omc, mdd, fmt)) == [OmcLine(omc, fmt), MddLine(mdd, fmt)]
  {
    SplitAtNewline(OmcLine(omc, fmt), MddLine(mdd, fmt));
    CaptionsSingleLine();
    NoNewlineInJoin("Predicted OMC: ", fmt(omc));
    NoNewlineInJoin("Predicted OMC: " + fmt(omc), "%");
    NoNewlineInJoin("Predicted MDD: ", fmt(mdd));
    NoNewlineInJoin("Predicted MDD: " + fmt(mdd), " g/cm³");
    SplitSingleLine(OmcLine(omc, fmt));
    SplitSingleLine(MddLine(mdd, fmt));
  }

  /**
   * Copying right after a successful prediction: the Clay and Plasticity
   * Index lines show the values the request derived, and the last two lines
   * are the predicted OMC (in %) and MDD (in g/cm³).
   */
  lemma CopyAfterPrediction(form: Form, store: ArtifactStore, parse: Parser, fmt: Formatter, before: Display)
    requires PredictionRun(form, store, parse, fmt).verdict.Predicted?
    requires forall x :: Newline !in fmt(x)
    requires forall e <- Entries(form) :: Newline !in e.text
    ensures var r := PredictionRun(form, store, parse, fmt);
      Split(CopyAll(form, r.Show(before))) ==
        FieldLines(form) +
        [ "Clay: " + fmt(UpdateClay(form, parse, fmt).outcome.value) + "%",
          "Plasticity Index: " + fmt(CalculatePlasticityIndex(form, parse, fmt).outcome.value),
          "",
          "Results:",
          OmcLine(r.verdict.omc, fmt),
          MddLine(r.verdict.mdd, fmt) ]
  {
    var r := PredictionRun(form, store, parse, fmt);
    var after := r.Show(before);
    var clay := fmt(UpdateClay(form, parse, fmt).outcome.value);
    assert after.clay == clay + "%";
    assert after.result == ResultText(r.verdict.omc, r.verdict.mdd, fmt);
    CaptionsSingleLine();
    NoNewlineInJoin(clay, "%");
    CopyAllLines(form, after);
    ResultTextLines(r.verdict.omc, r.verdict.mdd, fmt);
    assert ClayLine(after) == "Clay: " + clay + "%";
    assert PlasticityIndexLine(after) ==
      "Plasticity Index: " + fmt(CalculatePlasticityIndex(form, parse, fmt).outcome.value);
  }

  /**
   * Copying before any request: the Clay and Plasticity Index lines read
   * "N/A", and the results block is empty.
   */
  lemma CopyBeforeAnyRequest(form: Form)
    requires forall e <- Entries(form) :: Newline !in e.text
    ensures Split(CopyAll(form, InitialDisplay)) ==
      FieldLines(form) + ["Clay: N/A", "Plasticity Index: N/A", "", "Results:", ""]
  {
    assert Newline !in InitialDisplay.clay && Newline !in InitialDisplay.plasticityIndex;
    CopyAllLines(form, InitialDisplay);
    assert ClayLine(InitialDisplay) == "Clay: N/A";
    assert PlasticityIndexLine(InitialDisplay) == "Plasticity Index: N/A";
    assert Split(InitialDisplay.result) == [""];
  }

}
