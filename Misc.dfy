/**
 * Checks shared by several step validators: the PCA contents and the
 * blocking method, the quality-control discard vector, and the names of
 * the marker effect sizes.
 */
module Misc {
  import opened Wrappers
  import opened Containers
  import opened Versions

  // Messages of the checks that fail without naming a value.
  const VarExpRankError: string := "'var_exp' dataset does not have the expected dimensions"
  const VarExpLengthError: string := "length of 'var_exp' dataset exceeds the requested number of PCs"

  /**
   * `var_exp` must be a one-dimensional float dataset no longer than the
   * requested number of PCs, and `pcs` a float dataset of shape
   * `[numCells, observed]`; the observed number of PCs is returned.
   */
  function CheckPcaContents(results: Node, maxPcs: int, numCells: int): (r: Checked<nat>)
    ensures r.Success? <==>
      && OpenDataset(results, "var_exp", FloatType).Success?
      && |Child(results, "var_exp").value.shape| == 1
      && Child(results, "var_exp").value.shape[0] <= maxPcs
      && OpenShaped(results, "pcs", FloatType, [numCells, Child(results, "var_exp").value.shape[0]]).Success?
    ensures r.Success? ==> r.value <= maxPcs && Child(results, "var_exp").value.shape == [r.value]
    ensures r.Success? ==> Child(results, "pcs").value.shape == [numCells, r.value]
  {
    var varExp :- OpenDataset(results, "var_exp", FloatType);
    if |varExp.shape| != 1 then
      Fail(VarExpRankError)
    else
      var observed := varExp.shape[0];
      if observed > maxPcs then
        Fail(VarExpLengthError)
      else
        var pcs :- OpenShaped(results, "pcs", FloatType, [numCells, observed]);
        Success(observed)
  }

  /** `none` and `regress` always; `mnn` before 2.0; `weight` from 2.0. */
  predicate BlockMethodAllowed(blockMethod: string, version: int) {
    || blockMethod == "none"
    || blockMethod == "regress"
    || (version < V2_0 && blockMethod == "mnn")
    || (version >= V2_0 && blockMethod == "weight")
  }

  function BlockMethodCheck(blockMethod: string, version: int): Checked<()> {
    if BlockMethodAllowed(blockMethod, version) then Success(())
    else Fail("unrecognized value '" + blockMethod + "' for the 'block_method'")
  }

  /** Builds the list of options for the version and scans it for the method. */
  method CheckBlockMethod(blockMethod: string, version: int) returns (r: Checked<()>)
    ensures r.Success? <==> BlockMethodAllowed(blockMethod, version)
    ensures r == BlockMethodCheck(blockMethod, version)
  {
    var options := ["none", "regress"];
    if version < V2_0 {
      options := options + ["mnn"];
    } else {
      options := options + ["weight"];
    }
    var found := false;
    var i := 0;
    while i < |options| && !found
      invariant 0 <= i <= |options|
      invariant found <==> exists k :: 0 <= k < i && options[k] == blockMethod
    {
      if options[i] == blockMethod {
        found := true;
      }
      i := i + 1;
    }
    if !found {
      assert options[0] == "none" && options[1] == "regress";
      assert options[2] == if version < V2_0 then "mnn" else "weight";
      return Fail("unrecognized value '" + blockMethod + "' for the 'block_method'");
    }
    return Success(());
  }

  /** Which blocking methods each schema era accepts. */
  lemma BlockMethodsByVersion(blockMethod: string, version: int)
    ensures BlockMethodAllowed("none", version) && BlockMethodAllowed("regress", version)
    ensures BlockMethodAllowed("mnn", version) <==> version < V2_0
    ensures BlockMethodAllowed("weight", version) <==> version >= V2_0
    ensures blockMethod !in {"none", "regress", "mnn", "weight"} ==> !BlockMethodAllowed(blockMethod, version)
  {
  }

  const DiscardFrame: string := "failed to retrieve discard information from 'results'"

  /**
   * `discards` must be an integer dataset of shape `[numCells]`; returns the
   * number of cells kept, those whose entry is zero.
   */
  method CheckDiscardVector(results: Node, numCells: nat) returns (r: Checked<int>)
    ensures r.Success? <==>
      && OpenShaped(results, "discards", IntegerType, [numCells]).Success?
      && IntVector(Child(results, "discards").value).Success?
    ensures r.Success? ==> r.value == multiset(Child(results, "discards").value.ints)[0]
    ensures r.Success? ==> 0 <= r.value <= numCells
    ensures r.Failure? ==> |r.error.context| > 0 && r.error.context[0] == DiscardFrame
  {
    var handle := OpenShaped(results, "discards", IntegerType, [numCells]);
    if handle.Failure? {
      return Failure(AddFrame(handle.error, DiscardFrame));
    }
    var loaded := IntVector(handle.value);
    if loaded.Failure? {
      return Failure(AddFrame(loaded.error, DiscardFrame));
    }
    var discards := loaded.value;
    var remaining := 0;
    for i := 0 to |discards|
      invariant remaining == multiset(discards[..i])[0]
      invariant remaining <= i
    {
      assert discards[..i + 1] == discards[..i] + [discards[i]];
      if discards[i] == 0 {
        remaining := remaining + 1;
      }
    }
    assert discards[..|discards|] == discards;
    return Success(remaining);
  }

  /** The effect sizes reported for each marker comparison, in this order. */
  const Effects: seq<string> := ["lfc", "delta_detected", "cohen", "auc"]

  /** The four effect sizes, each named once, in the order the marker statistics list them. */
  lemma EffectsListed()
    ensures |Effects| == 4
    ensures Effects[0] == "lfc" && Effects[1] == "delta_detected" && Effects[2] == "cohen" && Effects[3] == "auc"
    ensures forall i, j :: 0 <= i < j < |Effects| ==> Effects[i] != Effects[j]
  {
  }
}
