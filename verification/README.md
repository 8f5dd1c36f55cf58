# OMC / MDD prediction: input pipeline model

This project models in Dafny the logic of a small desktop application. The application predicts two
soil-compaction parameters, Optimum Moisture Content (OMC) and Maximum Dry Density (MDD), from six
entries typed into a window: Gravel, Sand and Silt percentages, Liquid Limit, Plastic Limit and
Compaction Energy. All of the logic is in `OMC-MDD_GUI.py`, and this model covers:

- **Clay preview** (`update_clay`). Clay is 100 minus Gravel + Sand + Silt, and an empty entry counts
  as 0 (one holding only whitespace does not). The result is accepted only inside [0, 100].
- **Plasticity Index** (`calculate_plasticity_index`). The index is Liquid Limit minus Plastic Limit.
  It has four outcomes: a value, "Invalid" (negative), "N/A" (a limit is empty, not an error) and
  "Invalid Input" (both limits entered and one is not a number).
- **A prediction request** (`predict_results`). The request loads both regressors, re-derives Clay and
  the index, and reads the six entries in declaration order, stopping at the first blank one. It then
  builds the 8-value feature vector (the six entries, the index, then Clay) and calls both regressors
  with that same vector.
- **Copy All** (`copy_all`). This builds the newline-joined text of the entries, the two derived
  labels and the results block.

The window is modelled as values. `Widgets.Form` holds the six entry texts. `Widgets.Display` holds
the texts of the Clay, Plasticity Index and result labels. Every operation returns what it writes
into the labels and the error dialogs it shows. A request (`Prediction.Run`) also records the
regressor calls it makes, in order. Number parsing (`float`) and two-decimal formatting are
parameters of type `string -> Option<real>` and `real -> string`. A regressor is a function
`seq<real> -> real`. The model files are a map from path to regressor.

Modules:
- `Widgets`: the entry labels in declaration order, the form, the labels and the dialogs.
- `Derivation`: Clay and the Plasticity Index.
- `Prediction`: model loading, the input loop and the prediction request. `PredictionRun` is the
  reference definition of a request. `PredictResults` is the step-by-step method with the input loop
  and is proved equal to it.
- `Clipboard`: the Copy All text.
- `Lines`: newline join and its inverse split.
- `Wrappers`: `Option`.

Behaviour of the code worth noting:
- A blank Liquid Limit or Plastic Limit (empty or only whitespace) does not produce an error naming
  the field. The index becomes "N/A" when either limit is empty, and "Invalid Input" when one holds
  only whitespace and the other is not empty. Either way the request stops before the entry loop
  without naming the field. The Clay range dialog can still appear in that request. This relies on
  `float` rejecting whitespace-only text, stated as `Derivation.RejectsBlankText`.
- A Compaction Energy entry that is not a number is reported through the generic "Prediction Error"
  dialog, not as an input error. It is the only entry that can fail conversion inside the loop, because
  the other five were already converted by the two derivations.
- A failed request leaves the result label unchanged rather than clearing it.
- The models are loaded again for every request.
- When the models load, the range dialog for Clay and the one for the Plasticity Index can both
  appear in one request, because both derivations run before either result is checked.

## Model

| member | source | states |
|---|---|---|
| `Widgets.Entries` | OMC-MDD_GUI.py:165-179 | The entry dictionary has six items in declaration order (Gravel, Sand, Silt, Liquid Limit, Plastic Limit, Compaction Energy) under pairwise distinct labels |
| `Derivation.UpdateClay` | OMC-MDD_GUI.py:18-34 | Clay plus Gravel + Sand + Silt is exactly 100, and it is accepted iff that sum is in [0, 100]. An empty entry reads as 0. When a fraction does not parse, the label is "Invalid" with no dialog. When the sum is out of range, the label is "Invalid" with the range dialog. An accepted value is shown as fmt(clay) + "%" |
| `Derivation.CalculatePlasticityIndex` | OMC-MDD_GUI.py:37-59 | The outcome is "N/A" iff a limit is empty, and "Invalid Input" iff both are entered and one does not parse. Otherwise the index is accepted iff Plastic Limit <= Liquid Limit; its value plus Plastic Limit is Liquid Limit, and it is shown formatted. A negative index gives "Invalid" and the dialog |
| `Derivation.EmptyFractionIsZero` | OMC-MDD_GUI.py:20-22 | `PreviewNumber` models `float(text or 0)`. In the Clay preview, an empty Gravel, Sand or Silt entry gives exactly the same result as an entry that parses to 0 |
| `Derivation.WhitespaceFractionIsInvalid` | OMC-MDD_GUI.py:20-34 | When the parser rejects blank text as `float` does, a Gravel, Sand or Silt entry holding only whitespace (not empty) is not read as 0: Clay is rejected as unparsable, the label is "Invalid" and no dialog is shown |
| `Derivation.ClayLabelIdentifiesOutcome` | OMC-MDD_GUI.py:25-31 | The Clay label reads "Invalid" iff Clay was rejected, since accepted values end in "%" |
| `Derivation.PlasticityIndexLabelIdentifiesOutcome` | OMC-MDD_GUI.py:42-59 | When the formatter never prints a marker text, the label tells the outcome. "N/A" means a missing limit, "Invalid" a negative index, and "Invalid Input" a limit that does not parse |
| `Prediction.LoadModel` | OMC-MDD_GUI.py:8-15 | Both regressors load iff both files deserialize (the store holds exactly the files that do), and then each is the one stored at its path. Otherwise the "Error" dialog names the first file that fails, OMC first |
| `Prediction.CollectStopsAt` | OMC-MDD_GUI.py:76-81 | `Collect` is the input loop, with `IsBlank` modelling `not value.strip()`. It stops at the first entry that is blank or not a number and names that entry's field |
| `Prediction.CollectAll` | OMC-MDD_GUI.py:75-81 | When every entry is accepted, the loop yields one number per entry, in entry order, each being the entry's parsed text |
| `Prediction.CollectIgnoresLaterEntries` | OMC-MDD_GUI.py:76-80 | Entries after the first rejected one do not affect the loop's result |
| `Prediction.PredictResults` | OMC-MDD_GUI.py:62-100 | The step-by-step request, with the input loop and its early returns, does exactly what `PredictionRun` states. The lemmas below state what that is |
| `Prediction.NoModelInvokedOnAbort` | OMC-MDD_GUI.py:64-80 | A regressor is called iff the request predicts, and a request that does not predict leaves the result label unchanged. The checks run in order: models missing, then a derivation is None, then the first rejected entry |
| `Prediction.FirstRejectedFieldIsNamed` | OMC-MDD_GUI.py:76-81 | With the models loaded and both derivations valid, the first rejected entry in declaration order ends the request, and no regressor is called. A blank entry gives "Please fill in the <field>."; an entry that is not a number gives a "Prediction Error" dialog |
| `Prediction.EmptyGravelRejectedAtPrediction` | OMC-MDD_GUI.py:69-80 | An empty Gravel entry counts as 0 in the Clay preview, but the request still rejects it by name |
| `Prediction.BlankLimitAbortsSilently` | OMC-MDD_GUI.py:42-72 | A blank Liquid or Plastic Limit ends the request as a derivation failure: no "Please fill in" dialog is shown and no regressor is called. An empty limit makes the index label "N/A"; with both limits non-empty, a whitespace-only one makes it "Invalid Input" (this case needs a parser that rejects blank text as `float` does) |
| `Prediction.MissingFieldIsNeverALimit` | OMC-MDD_GUI.py:42-80 | When the parser rejects blank text as `float` does, a "Please fill in" verdict names only Gravel, Sand, Silt or Compaction Energy, never a limit |
| `Prediction.FeatureVectorLayout` | OMC-MDD_GUI.py:75-98 | A request predicts iff the models load, both derivations hold and every entry is accepted. Then OMC and MDD get the same 8 values: the six parsed entries in order, then the index (Liquid Limit minus Plastic Limit, >= 0), then Clay (100 minus Gravel + Sand + Silt, in [0, 100]). The result label shows both predictions |
| `Prediction.OnlyCompactionEnergyFailsConversion` | OMC-MDD_GUI.py:69-81 | A request that ends because `float` rejects an entry inside the loop always names Compaction Energy |
| `Prediction.WorkedFeatureVector` | OMC-MDD_GUI.py:83-92 | Entries 20, 30, 25, 40, 20, 600 give the vector [20, 30, 25, 40, 20, 600, 20, 25] for both regressors |
| `Lines.JoinSplit` | OMC-MDD_GUI.py:109 | `JoinLines` is `"\n".join`. Splitting at newlines and joining with newlines gives back the text |
| `Lines.SplitJoinLines` | OMC-MDD_GUI.py:109 | Joining single lines followed by a last part, then splitting, gives back those lines followed by the last part's own lines |
| `Clipboard.CopyAllLines` | OMC-MDD_GUI.py:105-109 | `CopyAll` is `copy_all`'s text. When no entry text and neither derived label holds a line break, the copied text, read back line by line, holds one "field: text" line per entry in declaration order. Then come "Clay: <label>", "Plasticity Index: <label>", an empty line, "Results:" and the result label verbatim |
| `Clipboard.CopyBeforeAnyRequest` | OMC-MDD_GUI.py:185-200 | Copying before any request, with the labels as the window creates them, gives the entry lines, "Clay: N/A", "Plasticity Index: N/A", an empty line, "Results:" and an empty result line |
| `Clipboard.ResultTextLines` | OMC-MDD_GUI.py:95-98 | The result label after a prediction is exactly two lines, "Predicted OMC: …%" and "Predicted MDD: … g/cm³" |
| `Clipboard.CopyAfterPrediction` | OMC-MDD_GUI.py:95-109 | Copying right after a successful request gives the entry lines, the derived Clay and index values, "Results:", and the OMC and MDD lines |

## Left out

- The window itself is not modelled: frames, layout, buttons, the About and How to Use boxes, the footer, `mainloop` and the key bindings that re-run the two derivations on every key release. The bindings are plain calls of `UpdateClay` and `CalculatePlasticityIndex`. Dialogs are returned as values and not displayed.
- Deserializing the model files is modelled as a map from path to regressor. The text of a load exception is modelled as the failing path, without the operating system's or joblib's wording.
- A regressor is modelled as a total function, so an exception inside `predict` is not modelled. The model covers only the `float` conversion failure that the catch-all handler reports.
- The numpy reshape of the feature vector is not modelled. The vector is a sequence of 8 reals.
- Python's `float` text parsing is an abstract parameter. Its one property the control flow depends on, that text holding only whitespace is rejected, is the predicate `RejectsBlankText`, required by the lemmas that rely on it. Arithmetic is on exact reals. IEEE rounding, infinities and NaN are not modelled. In Python a NaN Clay passes the range check, because both comparisons are false.
- The two-decimal formatting is an abstract parameter.
- The `ValueError` wording uses single quotes around the text. Python's `repr` chooses other quotes or escapes for some texts, and that is not modelled.
- The clipboard calls, the "Copied" information box and the error handler of `copy_all` are I/O and are not modelled. `CopyAll` returns the text that would be placed on the clipboard.
- Loading the window icon and logo images is not modelled.
