/** Validator of the PCA step (the `pca` group). */
module Pca {
  import opened Wrappers
  import opened Containers
  import opened Versions
  import opened Misc

  // Messages of the checks that fail without naming a value.
  const HvgsError: string := "number of HVGs must be positive in 'num_hvgs'"
  const PcsError: string := "number of PCs must be positive in 'num_pcs'"

  /**
   * `num_hvgs` and `num_pcs` must be positive integer scalars; from 1.1 a
   * `block_method` string is read and checked. Returns the requested number
   * of PCs and the method, which is empty before 1.1.
   */
  function ValidateParameters(pca: Node, version: int): (r: Checked<(int, string)>)
    ensures r.Success? <==>
      && OpenGroup(pca, "parameters").Success?
      && var params := Child(pca, "parameters").value;
         && LoadIntScalar(params, "num_hvgs").Success? && LoadIntScalar(params, "num_hvgs").value > 0
         && LoadIntScalar(params, "num_pcs").Success? && LoadIntScalar(params, "num_pcs").value > 0
         && (version >= V1_1 ==>
               LoadString(params, "block_method").Success?
               && BlockMethodAllowed(LoadString(params, "block_method").value, version))
    ensures r.Success? ==> var params := Child(pca, "parameters").value;
      && r.value.0 == LoadIntScalar(params, "num_pcs").value > 0
      && (version < V1_1 ==> r.value.1 == "")
      && (version >= V1_1 ==> r.value.1 == LoadString(params, "block_method").value)
  {
    var params :- OpenGroup(pca, "parameters");
    var nhvgs :- LoadIntScalar(params, "num_hvgs");
    if nhvgs <= 0 then
      Fail(HvgsError)
    else
      var npcs :- LoadIntScalar(params, "num_pcs");
      if npcs <= 0 then
        Fail(PcsError)
      else if version >= V1_1 then
        var blockMethod :- LoadString(params, "block_method");
        var ok :- BlockMethodCheck(blockMethod, version);
        Success((npcs, blockMethod))
      else
        Success((npcs, ""))
  }

  /** MNN-corrected PCs are stored only by versions 1.1 and 1.2 that used `mnn`. */
  predicate CorrectedRequired(blockMethod: string, version: int) {
    V1_1 <= version < V2_0 && blockMethod == "mnn"
  }

  /**
   * The PCA contents, plus `corrected` of the same shape as `pcs` when
   * required; returns the observed number of PCs.
   */
  function ValidateResults(pca: Node, maxPcs: int, blockMethod: string, numCells: int, version: int) : (r: Checked<nat>)
    ensures r.Success? <==>
      && OpenGroup(pca, "results").Success?
      && var results := Child(pca, "results").value;
         && CheckPcaContents(results, maxPcs, numCells).Success?
         && (CorrectedRequired(blockMethod, version) ==>
               OpenShaped(results, "corrected", FloatType, [numCells, CheckPcaContents(results, maxPcs, numCells).value]).Success?)
    ensures r.Success? ==> r.value <= maxPcs
    ensures r.Success? ==> var results := Child(pca, "results").value;
      && Child(results, "var_exp").value.shape == [r.value]
      && Child(results, "pcs").value.shape == [numCells, r.value]
    ensures r.Success? && CorrectedRequired(blockMethod, version) ==>
      Child(Child(pca, "results").value, "corrected").value.shape == [numCells, r.value]
  {
    var results :- OpenGroup(pca, "results");
    var observed :- CheckPcaContents(results, maxPcs, numCells);
    if CorrectedRequired(blockMethod, version) then
      var corrected :- OpenShaped(results, "corrected", FloatType, [numCells, observed]);
      Success(observed)
    else
      Success(observed)
  }

  const ParametersFrame: string := "failed to retrieve parameters from 'pca'"
  const ResultsFrame: string := "failed to retrieve results from 'pca'"

  /**
   * Validates the `pca` group and returns the number of PCs it holds: the
   * length of `var_exp` and the column count of `pcs`, which never exceeds
   * the number requested in its parameters.
   */
  function Validate(root: Node, numCells: int, version: int): (r: Checked<nat>)
    ensures r.Success? <==>
      && OpenGroup(root, "pca").Success?
      && var pca := Child(root, "pca").value;
         && ValidateParameters(pca, version).Success?
         && var p := ValidateParameters(pca, version).value;
            ValidateResults(pca, p.0, p.1, numCells, version).Success?
    ensures r.Success? ==>
      var params := Child(Child(root, "pca").value, "parameters").value;
      0 <= r.value <= LoadIntScalar(params, "num_pcs").value
    ensures r.Success? ==> var results := Child(Child(root, "pca").value, "results").value;
      && Child(results, "var_exp").value.shape == [r.value]
      && Child(results, "pcs").value.shape == [numCells, r.value]
    ensures OpenGroup(root, "pca").Success? && ValidateParameters(Child(root, "pca").value, version).Failure? ==>
      r.Failure? && |r.error.context| > 0 && r.error.context[0] == ParametersFrame
    ensures OpenGroup(root, "pca").Success? && r.Failure? && ValidateParameters(Child(root, "pca").value, version).Success? ==>
      |r.error.context| > 0 && r.error.context[0] == ResultsFrame
  {
    var pca :- OpenGroup(root, "pca");
    var p :- Wrap(ValidateParameters(pca, version), ParametersFrame);
    Wrap(ValidateResults(pca, p.0, p.1, numCells, version), ResultsFrame)
  }

  /** A PCA from before 1.1 never needs `corrected`, whatever its (empty) method. */
  lemma NoCorrectedBeforeV1_1(pca: Node, version: int)
    requires version < V1_1 && ValidateParameters(pca, version).Success?
    ensures !CorrectedRequired(ValidateParameters(pca, version).value.1, version)
  {
  }
}
