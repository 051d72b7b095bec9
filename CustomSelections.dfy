/**
 * Validator of the custom-selections step (the `custom_selections` group):
 * user-defined cell selections and their marker statistics, either one
 * set per selection (before 2.0, `results/markers`) or one set per
 * selection and modality (from 2.0, `results/per_selection`).
 */
module CustomSelections {
  import opened Wrappers
  import opened Containers
  import opened Sequences
  import opened Versions
  import Misc

  // Messages of the checks that fail without naming a value.
  const MarkersCountError: string := "number of groups in 'markers' is not consistent with the expected number of selections"
  const PerSelectionCountError: string := "number of groups in 'per_selection' is not consistent with the expected number of selections"

  /** Every index refers to a cell that survived quality control. */
  predicate InRange(indices: seq<int>, numCells: int) {
    forall j :: 0 <= j < |indices| ==> 0 <= indices[j] < numCells
  }

  /** Every child of `selections` is an integer vector of in-range cell indices. */
  ghost predicate SelectionsValid(selections: Node, numCells: int) {
    var names := ChildNames(selections);
    forall i :: 0 <= i < |names| ==>
      LoadIntVector(selections, names[i]).Success? && InRange(LoadIntVector(selections, names[i]).value, numCells)
  }

  /** `parameters/selections` exists and holds only valid selections. */
  ghost predicate ParametersValid(step: Node, numCells: int) {
    && OpenGroup(step, "parameters").Success?
    && OpenGroup(Child(step, "parameters").value, "selections").Success?
    && SelectionsValid(Child(Child(step, "parameters").value, "selections").value, numCells)
  }

  /** The selection names, in the order the `selections` group lists them. */
  ghost function SelectionNames(step: Node, numCells: int): seq<string>
    requires ParametersValid(step, numCells)
  {
    ChildNames(Child(Child(step, "parameters").value, "selections").value)
  }

  /**
   * Walks the selections in order, collecting their names; the first
   * selection that cannot be read or holds an out-of-range index fails.
   */
  method ValidateParameters(step: Node, numCells: int) returns (r: Checked<seq<string>>)
    ensures r.Success? <==> ParametersValid(step, numCells)
    ensures r.Success? ==> r.value == SelectionNames(step, numCells)
  {
    var params :- OpenGroup(step, "parameters");
    var selections :- OpenGroup(params, "selections");
    var names := ChildNames(selections);
    var output: seq<string> := [];
    var i := 0;
    while i < |names|
      invariant 0 <= i <= |names|
      invariant output == names[..i]
      invariant forall k :: 0 <= k < i ==>
        LoadIntVector(selections, names[k]).Success? && InRange(LoadIntVector(selections, names[k]).value, numCells)
    {
      var name := names[i];
      output := output + [name];
      var involved :- LoadIntVector(selections, name);
      var j := 0;
      while j < |involved|
        invariant 0 <= j <= |involved|
        invariant forall k :: 0 <= k < j ==> 0 <= involved[k] < numCells
      {
        if involved[j] < 0 || involved[j] >= numCells {
          return Fail("indices out of range for selection '" + output[|output| - 1] + "'");
        }
        j := j + 1;
      }
      i := i + 1;
    }
    assert output == names;
    return Success(output);
  }

  /** The statistics every marker group holds, one float per feature. */
  const Statistics: seq<string> := ["means", "detected"] + Misc.Effects

  /** Opens each named float dataset with shape `dims`, in order. */
  function CheckStatistics(g: Node, names: seq<string>, dims: seq<int>): (r: Checked<()>)
    ensures r.Success? <==> forall k :: 0 <= k < |names| ==> OpenShaped(g, names[k], FloatType, dims).Success?
  {
    if names == [] then Success(())
    else
      var first :- OpenShaped(g, names[0], FloatType, dims);
      assert forall k :: 1 <= k < |names| ==> names[k] == names[1..][k - 1];
      CheckStatistics(g, names[1..], dims)
  }

  /** Every statistic is a float dataset of length `numFeatures`. */
  function ValidateCustomMarkers(g: Node, numFeatures: int): (r: Checked<()>)
    ensures r.Success? <==>
      forall k :: 0 <= k < |Statistics| ==> OpenShaped(g, Statistics[k], FloatType, [numFeatures]).Success?
  {
    CheckStatistics(g, Statistics, [numFeatures])
  }

  /** Spelled out: means, detection proportions and the four effect sizes. */
  lemma MarkerStatisticsNamed(g: Node, numFeatures: int)
    ensures ValidateCustomMarkers(g, numFeatures).Success? <==>
      && OpenShaped(g, "means", FloatType, [numFeatures]).Success?
      && OpenShaped(g, "detected", FloatType, [numFeatures]).Success?
      && OpenShaped(g, "lfc", FloatType, [numFeatures]).Success?
      && OpenShaped(g, "delta_detected", FloatType, [numFeatures]).Success?
      && OpenShaped(g, "cohen", FloatType, [numFeatures]).Success?
      && OpenShaped(g, "auc", FloatType, [numFeatures]).Success?
  {
    var names := Statistics;
    assert names == ["means", "detected", "lfc", "delta_detected", "cohen", "auc"];
    assert names[0] == "means" && names[1] == "detected" && names[2] == "lfc";
    assert names[3] == "delta_detected" && names[4] == "cohen" && names[5] == "auc";
    assert forall k :: 0 <= k < |names| ==>
      names[k] == "means" || names[k] == "detected" || names[k] == "lfc" ||
      names[k] == "delta_detected" || names[k] == "cohen" || names[k] == "auc";
  }

  function MarkersFrame(s: string): string {
    "failed to retrieve statistics for selection '" + s + "' in 'results/markers'"
  }

  function PerSelectionFrame(s: string): string {
    "failed to retrieve statistics for selection '" + s + "' in 'results/per_selection'"
  }

  function ModalityFrame(m: string): string {
    "failed to retrieve statistics for modality '" + m + "'"
  }

  /** `parent` has a group `name` holding every statistic for `numFeatures` features. */
  ghost predicate HoldsStatistics(parent: Node, name: string, numFeatures: int) {
    && OpenGroup(parent, name).Success?
    && forall t :: 0 <= t < |Statistics| ==>
         OpenShaped(Child(parent, name).value, Statistics[t], FloatType, [numFeatures]).Success?
  }

  /**
   * Before 2.0: `results/markers` has one child per selection, and each
   * selection names a statistics group for the `numFeatures` genes.
   */
  ghost predicate MarkersLayout(step: Node, selections: seq<string>, numFeatures: int) {
    && OpenGroup(step, "results").Success?
    && OpenGroup(Child(step, "results").value, "markers").Success?
    && var markers := Child(Child(step, "results").value, "markers").value;
       && NumChildren(markers) == |selections|
       && forall k :: 0 <= k < |selections| ==> HoldsStatistics(markers, selections[k], numFeatures)
  }

  /**
   * From 2.0: `results/per_selection` has one child per selection; each
   * selection names a group holding, for every modality, a statistics group
   * for that modality's own feature count.
   */
  ghost predicate PerSelectionLayout(step: Node, selections: seq<string>, modalities: seq<string>, numFeatures: seq<int>)
    requires |modalities| <= |numFeatures|
  {
    && OpenGroup(step, "results").Success?
    && OpenGroup(Child(step, "results").value, "per_selection").Success?
    && var perSelection := Child(Child(step, "results").value, "per_selection").value;
       && NumChildren(perSelection) == |selections|
       && forall k :: 0 <= k < |selections| ==>
            && OpenGroup(perSelection, selections[k]).Success?
            && forall a :: 0 <= a < |modalities| ==>
                 HoldsStatistics(Child(perSelection, selections[k]).value, modalities[a], numFeatures[a])
  }

  /** One statistics group: per selection before 2.0, per selection and modality from 2.0. */
  function StatisticsGroup(parent: Node, name: string, numFeatures: int): (r: Checked<()>)
    ensures r.Success? <==> HoldsStatistics(parent, name, numFeatures)
  {
    var g :- OpenGroup(parent, name);
    ValidateCustomMarkers(g, numFeatures)
  }

  /** Every selection's statistics, in order. */
  function CheckMarkerSelections(markers: Node, selections: seq<string>, numFeatures: int): (r: Checked<()>)
    ensures r.Success? <==>
      forall k :: 0 <= k < |selections| ==> HoldsStatistics(markers, selections[k], numFeatures)
  {
    if selections == [] then Success(())
    else
      var first :- Wrap(StatisticsGroup(markers, selections[0], numFeatures), MarkersFrame(selections[0]));
      assert forall k :: 1 <= k < |selections| ==> selections[k] == selections[1..][k - 1];
      CheckMarkerSelections(markers, selections[1..], numFeatures)
  }

  /** The results layout before 2.0. */
  function ValidateMarkerResults(step: Node, selections: seq<string>, numFeatures: int): (r: Checked<()>)
    ensures r.Success? <==> MarkersLayout(step, selections, numFeatures)
  {
    var results :- OpenGroup(step, "results");
    var markers :- OpenGroup(results, "markers");
    if NumChildren(markers) != |selections| then
      Fail(MarkersCountError)
    else
      CheckMarkerSelections(markers, selections, numFeatures)
  }

  /** Each modality paired with its own feature count, in order. */
  function CheckModalities(sg: Node, modalities: seq<string>, numFeatures: seq<int>): (r: Checked<()>)
    requires |modalities| <= |numFeatures|
    ensures r.Success? <==>
      forall a :: 0 <= a < |modalities| ==> HoldsStatistics(sg, modalities[a], numFeatures[a])
  {
    if modalities == [] then Success(())
    else
      var first :- Wrap(StatisticsGroup(sg, modalities[0], numFeatures[0]), ModalityFrame(modalities[0]));
      assert forall a :: 1 <= a < |modalities| ==>
        modalities[a] == modalities[1..][a - 1] && numFeatures[a] == numFeatures[1..][a - 1];
      CheckModalities(sg, modalities[1..], numFeatures[1..])
  }

  /** The per-modality statistics of one selection, from 2.0. */
  function SelectionPerModality(perSelection: Node, s: string, modalities: seq<string>, numFeatures: seq<int>): (r: Checked<()>)
    requires |modalities| <= |numFeatures|
    ensures r.Success? <==>
      && OpenGroup(perSelection, s).Success?
      && forall a :: 0 <= a < |modalities| ==> HoldsStatistics(Child(perSelection, s).value, modalities[a], numFeatures[a])
  {
    var sg :- OpenGroup(perSelection, s);
    CheckModalities(sg, modalities, numFeatures)
  }

  function CheckPerSelection(perSelection: Node, selections: seq<string>, modalities: seq<string>, numFeatures: seq<int>): (r: Checked<()>)
    requires |modalities| <= |numFeatures|
    ensures r.Success? <==>
      forall k :: 0 <= k < |selections| ==> SelectionPerModality(perSelection, selections[k], modalities, numFeatures).Success?
  {
    if selections == [] then Success(())
    else
      var first :- Wrap(SelectionPerModality(perSelection, selections[0], modalities, numFeatures), PerSelectionFrame(selections[0]));
      assert forall k :: 1 <= k < |selections| ==> selections[k] == selections[1..][k - 1];
      CheckPerSelection(perSelection, selections[1..], modalities, numFeatures)
  }

  /** The results layout from 2.0. */
  function ValidatePerSelectionResults(step: Node, selections: seq<string>, modalities: seq<string>, numFeatures: seq<int>): (r: Checked<()>)
    requires |modalities| <= |numFeatures|
    ensures r.Success? <==> PerSelectionLayout(step, selections, modalities, numFeatures)
  {
    var results :- OpenGroup(step, "results");
    var perSelection :- OpenGroup(results, "per_selection");
    if NumChildren(perSelection) != |selections| then
      Fail(PerSelectionCountError)
    else
      CheckPerSelection(perSelection, selections, modalities, numFeatures)
  }

  /** What the caller must supply: a feature count per modality from 2.0, the gene count before. */
  predicate ArgumentsValid(modalities: seq<string>, numFeatures: seq<int>, version: int) {
    && (version >= V2_0 ==> |modalities| <= |numFeatures|)
    && (version < V2_0 ==> |numFeatures| >= 1)
  }

  const ParametersFrame: string := "failed to retrieve parameters from 'custom_selections'"
  const ResultsFrame: string := "failed to retrieve results from 'custom_selections'"

  /**
   * The parameters are checked first and yield the selection names that
   * the results must then cover: per selection and modality, with each
   * modality's own feature count, from 2.0; per selection, with the first
   * feature count and whatever the modalities, before.
   */
  method Validate(root: Node, numCells: int, modalities: seq<string>, numFeatures: seq<int>, version: int) returns (r: Checked<()>)
    requires ArgumentsValid(modalities, numFeatures, version)
    ensures version >= V2_0 ==> (r.Success? <==>
      && OpenGroup(root, "custom_selections").Success?
      && ParametersValid(Child(root, "custom_selections").value, numCells)
      && var step := Child(root, "custom_selections").value;
         PerSelectionLayout(step, SelectionNames(step, numCells), modalities, numFeatures))
    ensures version < V2_0 ==> (r.Success? <==>
      && OpenGroup(root, "custom_selections").Success?
      && ParametersValid(Child(root, "custom_selections").value, numCells)
      && var step := Child(root, "custom_selections").value;
         MarkersLayout(step, SelectionNames(step, numCells), numFeatures[0]))
    ensures OpenGroup(root, "custom_selections").Success? && !ParametersValid(Child(root, "custom_selections").value, numCells) ==>
      r.Failure? && |r.error.context| > 0 && r.error.context[0] == ParametersFrame
    ensures OpenGroup(root, "custom_selections").Success? && ParametersValid(Child(root, "custom_selections").value, numCells) && r.Failure? ==>
      |r.error.context| > 0 && r.error.context[0] == ResultsFrame
  {
    var step :- OpenGroup(root, "custom_selections");
    var collected := ValidateParameters(step, numCells);
    if collected.Failure? {
      return Failure(AddFrame(collected.error, ParametersFrame));
    }
    var checked: Checked<()>;
    if version >= V2_0 {
      checked := ValidatePerSelectionResults(step, collected.value, modalities, numFeatures);
    } else {
      checked := ValidateMarkerResults(step, collected.value, numFeatures[0]);
    }
    return Wrap(checked, ResultsFrame);
  }

  /**
   * With distinct selection names, the children of a passing `markers`
   * group are named exactly by the selections, each once.
   */
  lemma MarkersAreTheSelections(step: Node, selections: seq<string>, numFeatures: int)
    requires Distinct(selections) && MarkersLayout(step, selections, numFeatures)
    ensures var markers := Child(Child(step, "results").value, "markers").value;
      Elements(ChildNames(markers)) == Elements(selections) && Distinct(ChildNames(markers))
  {
    var markers := Child(Child(step, "results").value, "markers").value;
    ChildrenAreExactly(markers, selections);
  }

  /**
   * With distinct selection names, the children of a passing
   * `per_selection` group are named exactly by the selections, each once.
   */
  lemma PerSelectionAreTheSelections(step: Node, selections: seq<string>, modalities: seq<string>, numFeatures: seq<int>)
    requires |modalities| <= |numFeatures|
    requires Distinct(selections) && PerSelectionLayout(step, selections, modalities, numFeatures)
    ensures var perSelection := Child(Child(step, "results").value, "per_selection").value;
      Elements(ChildNames(perSelection)) == Elements(selections) && Distinct(ChildNames(perSelection))
  {
    var perSelection := Child(Child(step, "results").value, "per_selection").value;
    ChildrenAreExactly(perSelection, selections);
  }

  /** The error of the selection checks is that of the first failing selection, under its frame. */
  lemma {:induction false} MarkersFailureNamesSelection(markers: Node, selections: seq<string>, numFeatures: int, k: nat)
    requires k < |selections|
    requires forall j :: 0 <= j < k ==> StatisticsGroup(markers, selections[j], numFeatures).Success?
    requires StatisticsGroup(markers, selections[k], numFeatures).Failure?
    ensures CheckMarkerSelections(markers, selections, numFeatures) ==
            Failure(AddFrame(StatisticsGroup(markers, selections[k], numFeatures).error, MarkersFrame(selections[k])))
  {
    if k > 0 {
      assert forall j :: 0 <= j < k - 1 ==> selections[1..][j] == selections[j + 1];
      MarkersFailureNamesSelection(markers, selections[1..], numFeatures, k - 1);
    }
  }

  /** The error of the modality checks is that of the first failing modality, under its frame. */
  lemma {:induction false} ModalityFailureNamesModality(sg: Node, modalities: seq<string>, numFeatures: seq<int>, a: nat)
    requires |modalities| <= |numFeatures| && a < |modalities|
    requires forall j :: 0 <= j < a ==> StatisticsGroup(sg, modalities[j], numFeatures[j]).Success?
    requires StatisticsGroup(sg, modalities[a], numFeatures[a]).Failure?
    ensures CheckModalities(sg, modalities, numFeatures) ==
            Failure(AddFrame(StatisticsGroup(sg, modalities[a], numFeatures[a]).error, ModalityFrame(modalities[a])))
  {
    if a > 0 {
      assert forall j :: 0 <= j < a - 1 ==>
        modalities[1..][j] == modalities[j + 1] && numFeatures[1..][j] == numFeatures[j + 1];
      ModalityFailureNamesModality(sg, modalities[1..], numFeatures[1..], a - 1);
    }
  }

  /** The error of the per-selection checks is that of the first failing selection, under its frame. */
  lemma {:induction false} PerSelectionFailureNamesSelection(perSelection: Node, selections: seq<string>,
                                                             modalities: seq<string>, numFeatures: seq<int>, k: nat)
    requires |modalities| <= |numFeatures| && k < |selections|
    requires forall j :: 0 <= j < k ==> SelectionPerModality(perSelection, selections[j], modalities, numFeatures).Success?
    requires SelectionPerModality(perSelection, selections[k], modalities, numFeatures).Failure?
    ensures CheckPerSelection(perSelection, selections, modalities, numFeatures) ==
            Failure(AddFrame(SelectionPerModality(perSelection, selections[k], modalities, numFeatures).error,
                             PerSelectionFrame(selections[k])))
  {
    if k > 0 {
      var rest := selections[1..];
      assert rest[k - 1] == selections[k];
      assert forall j :: 0 <= j < k - 1 ==> rest[j] == selections[j + 1];
      assert SelectionPerModality(perSelection, selections[0], modalities, numFeatures).Success?;
      PerSelectionFailureNamesSelection(perSelection, rest, modalities, numFeatures, k - 1);
    }
  }

  /** A selection may name the last retained cell but not one past it, nor a negative index. */
  lemma {:induction false} SelectionBounds(numCells: int)
    requires numCells >= 1
    ensures InRange([0, numCells - 1], numCells)
    ensures !InRange([numCells], numCells)
    ensures !InRange([-1], numCells)
  {
    assert [numCells][0] == numCells;
    assert [-1][0] == -1;
  }
}
