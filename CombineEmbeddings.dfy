/**
 * Validator of the combine-embeddings step (the `combine_embeddings`
 * group), which exists from version 2.0.
 */
module CombineEmbeddings {
  import opened Wrappers
  import opened Containers
  import opened Versions

  /** A float scalar weight for every listed modality, checked in order. */
  function CheckWeights(weights: Node, modalities: seq<string>): (r: Checked<()>)
    ensures r.Success? <==>
      forall m :: 0 <= m < |modalities| ==> OpenShaped(weights, modalities[m], FloatType, []).Success?
  {
    if modalities == [] then Success(())
    else
      var first :- OpenShaped(weights, modalities[0], FloatType, []);
      var rest := CheckWeights(weights, modalities[1..]);
      assert forall m :: 1 <= m < |modalities| ==> modalities[m] == modalities[1..][m - 1];
      rest
  }

  /**
   * `approximate` must be an integer scalar; an empty `weights` group means
   * unit weights, a non-empty one must weigh every modality.
   */
  function ValidateParameters(step: Node, modalities: seq<string>): (r: Checked<()>)
    ensures r.Success? <==>
      && OpenGroup(step, "parameters").Success?
      && var params := Child(step, "parameters").value;
         && OpenShaped(params, "approximate", IntegerType, []).Success?
         && OpenGroup(params, "weights").Success?
         && var weights := Child(params, "weights").value;
            NumChildren(weights) > 0 ==>
              forall m :: 0 <= m < |modalities| ==> OpenShaped(weights, modalities[m], FloatType, []).Success?
  {
    var params :- OpenGroup(step, "parameters");
    var approximate :- OpenShaped(params, "approximate", IntegerType, []);
    var weights :- OpenGroup(params, "weights");
    if NumChildren(weights) > 0 then CheckWeights(weights, modalities) else Success(())
  }

  /** With more than one modality, `combined` must be a float dataset `[numCells, totalDims]`. */
  function ValidateResults(step: Node, numCells: int, modalities: seq<string>, totalDims: int): (r: Checked<()>)
    ensures r.Success? <==>
      && OpenGroup(step, "results").Success?
      && (|modalities| > 1 ==>
            OpenShaped(Child(step, "results").value, "combined", FloatType, [numCells, totalDims]).Success?)
  {
    var results :- OpenGroup(step, "results");
    if |modalities| > 1 then
      var combined :- OpenShaped(results, "combined", FloatType, [numCells, totalDims]);
      Success(())
    else
      Success(())
  }

  const ParametersFrame: string := "failed to retrieve parameters from 'combine_embeddings'"
  const ResultsFrame: string := "failed to retrieve results from 'combine_embeddings'"

  /**
   * Before 2.0 there is nothing to check and the container is not looked at;
   * from 2.0 the parameters are checked before the results.
   */
  function Validate(root: Node, numCells: int, modalities: seq<string>, totalDims: int, version: int): (r: Checked<()>)
    ensures version < V2_0 ==> r.Success?
    ensures version >= V2_0 ==> (r.Success? <==>
      && OpenGroup(root, "combine_embeddings").Success?
      && ValidateParameters(Child(root, "combine_embeddings").value, modalities).Success?
      && ValidateResults(Child(root, "combine_embeddings").value, numCells, modalities, totalDims).Success?)
    ensures version >= V2_0 && OpenGroup(root, "combine_embeddings").Success?
            && ValidateParameters(Child(root, "combine_embeddings").value, modalities).Failure? ==>
      r.Failure? && |r.error.context| > 0 && r.error.context[0] == ParametersFrame
    ensures version >= V2_0 && OpenGroup(root, "combine_embeddings").Success? && r.Failure?
            && ValidateParameters(Child(root, "combine_embeddings").value, modalities).Success? ==>
      |r.error.context| > 0 && r.error.context[0] == ResultsFrame
  {
    if version < V2_0 then
      Success(())
    else
      var step :- OpenGroup(root, "combine_embeddings");
      var params :- Wrap(ValidateParameters(step, modalities), ParametersFrame);
      Wrap(ValidateResults(step, numCells, modalities, totalDims), ResultsFrame)
  }

  /** A single-modality analysis needs no `combined` embedding. */
  lemma SingleModalityNeedsNoCombined(step: Node, numCells: int, modality: string, totalDims: int)
    ensures ValidateResults(step, numCells, [modality], totalDims).Success? <==> OpenGroup(step, "results").Success?
  {
  }
}
