/**
 * Validator of the input step (the `inputs` group). The parameters phase
 * checks the declared matrix formats, the grouping of file records into
 * runs (one run per matrix), each record's fields and the byte ranges of
 * embedded files; the results phase checks the dimensions, the number of
 * samples and the feature identities, whose encoding depends on the schema
 * version.
 */
module Inputs {
  import opened Wrappers
  import opened Containers
  import opened Sequences
  import opened Versions

  /** What the parameters phase hands to the results phase. */
  datatype ParamDump = ParamDump(numMatrices: int, multiMatrix: bool, multiSample: bool)

  /** What the input step reports about the loaded dataset. */
  datatype Details = Details(modalities: seq<string>, numFeatures: seq<int>, numCells: int, numSamples: int)

  /** The fields of one file record that later checks use (offset and size only when embedded). */
  datatype FileInfo = FileInfo(fileType: string, offset: int, size: int)

  // Messages of the checks that fail without naming a value.
  const ScalarFormatError: string := "'format' should be a scalar string in version 1.0"
  const MtxCountError: string := "expected exactly one 'mtx' file when format is 'MatrixMarket'"
  const GenesCountError: string := "expected no more than one 'genes' file when format is 'MatrixMarket'"
  const AnnotationsCountError: string := "expected no more than one 'annotation' file when format is 'MatrixMarket'"
  const TenxRunError: string := "expected exactly one 'h5' file when format is '10X'"
  const H5adRunError: string := "expected exactly one 'h5' file when format is 'H5AD'"
  const ContiguityError: string := "offsets and sizes of 'files' are not sorted and contiguous"
  const GroupCountError: string := "'sample_groups' and 'format' should have the same length"
  const GroupSumError: string := "sum of 'sample_groups' is not equal to the length of 'files'"
  const NameCountError: string := "'sample_names' and 'format' should have the same length"
  const DimensionsLengthError: string := "'dimensions' should be a dataset of length 2"
  const DimensionsSignError: string := "'dimensions' should contain non-negative integers"
  const NoModalitiesError: string := "number of modalities should be positive"
  const SamplesMatrixError: string := "'num_samples' should be equal to the number of matrices"
  const SingleSampleError: string := "'num_samples' should be 1 for single matrix inputs without 'sample_factor'"
  const PermutationRangeError: string := "'permutation' contains out-of-range values"
  const PermutationDuplicateError: string := "duplicated index in 'permutation'"
  const PermutationLengthError: string := "'permutation' should have length equal to the number of genes"
  const IdentitiesLengthError: string := "'identities' should have length equal to the number of genes"
  const IndicesLengthError: string := "'indices' should have length equal to the number of genes"

  // ---------------------------------------------------------------------
  // Parameters phase
  // ---------------------------------------------------------------------

  /**
   * The `format` entry: its strings, and whether it was a vector, which is
   * what makes the input multi-matrix.
   */
  function ReadFormats(params: Node, version: int): (r: Checked<(seq<string>, bool)>)
    ensures r.Success? <==>
      && OpenDataset(params, "format", StringType).Success?
      && var f := Child(params, "format").value;
         if f.shape == [] then StringScalar(f).Success?
         else version >= V1_1 && StringVector(f).Success?
    ensures r.Success? ==> (r.value.1 <==> Child(params, "format").value.shape != [])
    ensures r.Success? ==> r.value.0 == Child(params, "format").value.strings
    ensures r.Success? && r.value.1 ==> version >= V1_1
    ensures r.Success? && !r.value.1 ==> |r.value.0| == 1
  {
    var f :- OpenDataset(params, "format", StringType);
    if f.shape == [] then
      var s :- StringScalar(f);
      Success(([s], false))
    else if version < V1_1 then
      Fail(ScalarFormatError)
    else
      var v :- StringVector(f);
      Success((v, true))
  }

  /** Rejects the first name that repeats an earlier one. */
  method CheckSampleNames(names: seq<string>) returns (r: Checked<()>)
    ensures r.Success? <==> Distinct(names)
  {
    var seen: set<string> := {};
    for i := 0 to |names|
      invariant seen == Elements(names[..i])
      invariant Distinct(names[..i])
    {
      if names[i] in seen {
        var k :| 0 <= k < i && names[..i][k] == names[i];
        assert names[k] == names[i];
        return Fail("duplicated sample name '" + names[i] + "' in 'sample_names'");
      }
      assert Elements(names[..i + 1]) == Elements(names[..i]) + {names[i]} by {
        assert names[..i + 1] == names[..i] + [names[i]];
      }
      seen := seen + {names[i]};
    }
    assert names[..|names|] == names;
    return Success(());
  }

  const MatrixMarketTypes: set<string> := {"mtx", "genes", "annotations"}

  /** The file types one run may hold, given the format of its matrix. */
  predicate RunTypesValid(format: string, types: seq<string>) {
    if format == "MatrixMarket" then
      && (forall i :: 0 <= i < |types| ==> types[i] in MatrixMarketTypes)
      && multiset(types)["mtx"] == 1
      && multiset(types)["genes"] <= 1
      && multiset(types)["annotations"] <= 1
    else if format == "10X" || format == "H5AD" then
      types == ["h5"]
    else
      true
  }

  /** Extending a prefix by one element adds one occurrence of that element. */
  lemma PrefixCountStep(types: seq<string>, i: nat)
    requires i < |types|
    ensures multiset(types[..i + 1]) == multiset(types[..i])[types[i] := multiset(types[..i])[types[i]] + 1]
  {
    assert types[..i + 1] == types[..i] + [types[i]];
  }

  /**
   * Counts the MatrixMarket file types of one run in a table, rejecting the
   * first type that is not one of them.
   */
  method CountMatrixMarketTypes(types: seq<string>) returns (r: Checked<map<string, nat>>)
    ensures r.Success? <==> forall i :: 0 <= i < |types| ==> types[i] in MatrixMarketTypes
    ensures r.Success? ==> r.value.Keys == MatrixMarketTypes
    ensures r.Success? ==> forall t :: t in r.value ==> r.value[t] == multiset(types)[t]
  {
    var expected: map<string, nat> := map["mtx" := 0, "genes" := 0, "annotations" := 0];
    for i := 0 to |types|
      invariant expected.Keys == MatrixMarketTypes
      invariant forall k :: 0 <= k < i ==> types[k] in MatrixMarketTypes
      invariant forall t :: t in expected ==> expected[t] == multiset(types[..i])[t]
    {
      var t := types[i];
      if t !in expected {
        return Fail("unknown file type '" + t + "' when format is 'MatrixMarket'");
      }
      PrefixCountStep(types, i);
      expected := expected[t := expected[t] + 1];
    }
    assert types[..|types|] == types;
    return Success(expected);
  }

  /** A MatrixMarket run: exactly one `mtx` file, at most one `genes` and one `annotations` file. */
  method CheckMatrixMarketRun(types: seq<string>) returns (r: Checked<()>)
    ensures r.Success? <==> RunTypesValid("MatrixMarket", types)
  {
    var expected :- CountMatrixMarketTypes(types);
    var mtx, genes, annotations := expected["mtx"], expected["genes"], expected["annotations"];
    assert mtx == multiset(types)["mtx"] && genes == multiset(types)["genes"];
    assert annotations == multiset(types)["annotations"];
    if mtx != 1 {
      return Fail(MtxCountError);
    }
    if genes > 1 {
      return Fail(GenesCountError);
    }
    if annotations > 1 {
      return Fail(AnnotationsCountError);
    }
    return Success(());
  }

  /** Checks one run's file types against the format of its matrix. */
  method CheckRunTypes(format: string, types: seq<string>) returns (r: Checked<()>)
    ensures r.Success? <==> RunTypesValid(format, types)
  {
    if format == "MatrixMarket" {
      r := CheckMatrixMarketRun(types);
    } else if format == "10X" {
      if |types| != 1 || types[0] != "h5" {
        return Fail(TenxRunError);
      }
      r := Success(());
    } else if format == "H5AD" {
      if |types| != 1 || types[0] != "h5" {
        return Fail(H5adRunError);
      }
      r := Success(());
    } else {
      r := Success(());
    }
  }

  /** Total size of the byte ranges, in order. */
  function TotalSize(bytes: seq<(int, int)>): int {
    if bytes == [] then 0 else TotalSize(bytes[..|bytes| - 1]) + bytes[|bytes| - 1].1
  }

  /** Each range starts where all the ranges before it end. */
  predicate Contiguous(bytes: seq<(int, int)>) {
    forall i :: 0 <= i < |bytes| ==> bytes[i].0 == TotalSize(bytes[..i])
  }

  lemma ContiguousExtend(bytes: seq<(int, int)>, i: nat)
    requires i < |bytes| && Contiguous(bytes[..i]) && bytes[i].0 == TotalSize(bytes[..i])
    ensures Contiguous(bytes[..i + 1])
    ensures TotalSize(bytes[..i + 1]) == TotalSize(bytes[..i]) + bytes[i].1
  {
    var t := bytes[..i + 1];
    assert t[..i] == bytes[..i];
    forall j | 0 <= j < |t|
      ensures t[j].0 == TotalSize(t[..j])
    {
      if j < i {
        assert t[..j] == bytes[..i][..j];
      }
    }
  }

  /** Walks the (offset, size) pairs with a running end position. */
  method CheckContiguous(bytes: seq<(int, int)>) returns (r: Checked<()>)
    ensures r.Success? <==> Contiguous(bytes)
  {
    var sofar := 0;
    for i := 0 to |bytes|
      invariant sofar == TotalSize(bytes[..i])
      invariant Contiguous(bytes[..i])
    {
      if bytes[i].0 != sofar {
        return Fail(ContiguityError);
      }
      ContiguousExtend(bytes, i);
      sofar := sofar + bytes[i].1;
    }
    assert bytes[..|bytes|] == bytes;
    return Success(());
  }

  /** Reads the fields of the file record named `name` in `files`. */
  function ReadRecordFields(files: Node, name: string, embedded: bool): (r: Checked<FileInfo>)
    ensures r.Success? <==>
      && OpenGroup(files, name).Success?
      && var rec := Child(files, name).value;
         && OpenShaped(rec, "name", StringType, []).Success?
         && LoadString(rec, "type").Success?
         && (embedded ==> LoadCount(rec, "offset").Success? && LoadCount(rec, "size").Success?)
         && (!embedded ==> OpenShaped(rec, "id", StringType, []).Success?)
    ensures r.Success? ==> var rec := Child(files, name).value;
      && r.value.fileType == LoadString(rec, "type").value
      && (embedded ==> r.value.offset == LoadCount(rec, "offset").value && r.value.size == LoadCount(rec, "size").value)
  {
    var rec :- OpenGroup(files, name);
    var _ :- OpenShaped(rec, "name", StringType, []);
    var fileType :- LoadString(rec, "type");
    if embedded then
      var offset :- LoadCount(rec, "offset");
      var size :- LoadCount(rec, "size");
      Success(FileInfo(fileType, offset, size))
    else
      var _ :- OpenShaped(rec, "id", StringType, []);
      Success(FileInfo(fileType, 0, 0))
  }

  /** Record `k` of the flattened file list is the child named by `k` in decimal. */
  function ReadRecord(files: Node, k: nat, embedded: bool): Checked<FileInfo> {
    Wrap(ReadRecordFields(files, NatToString(k), embedded),
         "failed to retrieve information for file " + NatToString(k))
  }

  /** A run with a negative declared size takes no records. */
  function Clamp(n: int): nat {
    if n < 0 then 0 else n
  }

  /** Index of the first record of run `r`: runs take consecutive records, in order. */
  ghost function RunStart(runs: seq<int>, r: nat): nat
    requires r <= |runs|
  {
    if r == 0 then 0 else RunStart(runs, r - 1) + Clamp(runs[r - 1])
  }

  ghost predicate RecordsReadable(files: Node, n: nat, embedded: bool) {
    forall k :: 0 <= k < n ==> ReadRecord(files, k, embedded).Success?
  }

  ghost function RecordAt(files: Node, k: nat, embedded: bool): FileInfo {
    var rec := ReadRecord(files, k, embedded);
    if rec.Success? then rec.value else FileInfo("", 0, 0)
  }

  /** The types of records `lo` to `hi - 1`. */
  ghost function RunTypes(files: Node, lo: nat, hi: nat, embedded: bool): (types: seq<string>)
    requires lo <= hi
    ensures |types| == hi - lo
  {
    seq(hi - lo, j requires 0 <= j => RecordAt(files, lo + j, embedded).fileType)
  }

  /** The (offset, size) pairs of the first `n` records. */
  ghost function Extents(files: Node, n: nat, embedded: bool): (bytes: seq<(int, int)>)
    ensures |bytes| == n
  {
    seq(n, k requires 0 <= k => (RecordAt(files, k, embedded).offset, RecordAt(files, k, embedded).size))
  }

  /** The first `n` runs each hold types that suit their format. */
  ghost predicate RunsTyped(files: Node, formats: seq<string>, runs: seq<int>, n: nat, embedded: bool)
    requires n <= |runs| == |formats|
  {
    n == 0 || (RunsTyped(files, formats, runs, n - 1, embedded) && RunTyped(files, formats, runs, n - 1, embedded))
  }

  /** Run `q`'s record types suit its declared format. */
  ghost predicate RunTyped(files: Node, formats: seq<string>, runs: seq<int>, q: nat, embedded: bool)
    requires q < |runs| == |formats|
  {
    RunTypesValid(formats[q], RunTypes(files, RunStart(runs, q), RunStart(runs, q + 1), embedded))
  }

  /** The recursive form agrees with the per-run form. */
  lemma {:induction false} RunsTypedEach(files: Node, formats: seq<string>, runs: seq<int>, n: nat, embedded: bool)
    requires n <= |runs| == |formats|
    ensures RunsTyped(files, formats, runs, n, embedded) <==> forall q :: 0 <= q < n ==> RunTyped(files, formats, runs, q, embedded)
  {
    if n > 0 {
      RunsTypedEach(files, formats, runs, n - 1, embedded);
    }
  }

  lemma {:induction false} RunsTypedPrefix(files: Node, formats: seq<string>, runs: seq<int>, m: nat, n: nat, embedded: bool)
    requires m <= n <= |runs| == |formats|
    requires RunsTyped(files, formats, runs, n, embedded)
    ensures RunsTyped(files, formats, runs, m, embedded)
    decreases n - m
  {
    if m < n {
      RunsTypedPrefix(files, formats, runs, m, n - 1, embedded);
    }
  }

  /**
   * The file records are valid for the given runs: every record a run takes
   * is readable, each run's types suit its format and, when embedded, the
   * byte ranges are contiguous in record order.
   */
  ghost predicate FilesValid(files: Node, formats: seq<string>, runs: seq<int>, embedded: bool)
    requires |runs| == |formats|
  {
    && RecordsReadable(files, RunStart(runs, |runs|), embedded)
    && RunsTyped(files, formats, runs, |runs|, embedded)
    && (embedded ==> Contiguous(Extents(files, RunStart(runs, |runs|), embedded)))
  }

  /** For multi-matrix input: one group size and one distinct name per matrix, sizes summing to the file count. */
  ghost predicate SampleGroupsValid(params: Node, numMatrices: nat, nfiles: nat) {
    && LoadIntVector(params, "sample_groups").Success?
    && |LoadIntVector(params, "sample_groups").value| == numMatrices
    && Sum(LoadIntVector(params, "sample_groups").value) == nfiles
    && LoadStringVector(params, "sample_names").Success?
    && |LoadStringVector(params, "sample_names").value| == numMatrices
    && Distinct(LoadStringVector(params, "sample_names").value)
  }

  ghost function FormatsOf(params: Node, version: int): (seq<string>, bool) {
    var f := ReadFormats(params, version);
    if f.Success? then f.value else ([], false)
  }

  /** The records per run: the declared groups, or every record in one run. */
  ghost function RunsOf(params: Node, multi: bool, nfiles: nat): seq<int> {
    if !multi then [nfiles]
    else
      var g := LoadIntVector(params, "sample_groups");
      if g.Success? then g.value else []
  }

  /** Everything the parameters phase requires of the `inputs` group. */
  ghost predicate ParametersValid(inputs: Node, embedded: bool, version: int) {
    && OpenGroup(inputs, "parameters").Success?
    && var params := Child(inputs, "parameters").value;
       && ReadFormats(params, version).Success?
       && OpenGroup(params, "files").Success?
       && var formats := FormatsOf(params, version).0;
          var multi := FormatsOf(params, version).1;
          var files := Child(params, "files").value;
          && (multi ==> SampleGroupsValid(params, |formats|, NumChildren(files)))
          && FilesValid(files, formats, RunsOf(params, multi, NumChildren(files)), embedded)
          && (!multi && Exists(params, "sample_factor") ==>
                OpenShaped(params, "sample_factor", StringType, []).Success?)
  }

  /** The summary the parameters phase returns when it succeeds. */
  ghost function DumpOf(inputs: Node, version: int): ParamDump {
    var params := Child(inputs, "parameters");
    if params.None? then ParamDump(0, false, false)
    else
      var formats := FormatsOf(params.value, version).0;
      var multi := FormatsOf(params.value, version).1;
      ParamDump(|formats|, multi, multi || Exists(params.value, "sample_factor"))
  }

  lemma {:induction false} RunStartMonotone(runs: seq<int>, a: nat, b: nat)
    requires a <= b <= |runs|
    ensures RunStart(runs, a) <= RunStart(runs, b)
    decreases b - a
  {
    if a < b {
      RunStartMonotone(runs, a, b - 1);
    }
  }

  lemma ReadableStep(files: Node, n: nat, embedded: bool)
    requires RecordsReadable(files, n, embedded)
    ensures RecordsReadable(files, n + 1, embedded) <==> ReadRecord(files, n, embedded).Success?
  {
  }

  lemma UnreadableBeyond(files: Node, n: nat, m: nat, embedded: bool)
    requires n < m && ReadRecord(files, n, embedded).Failure?
    ensures !RecordsReadable(files, m, embedded)
  {
  }

  lemma {:induction false} ExtentsStep(files: Node, n: nat, embedded: bool)
    ensures Extents(files, n + 1, embedded) ==
            Extents(files, n, embedded) + [(RecordAt(files, n, embedded).offset, RecordAt(files, n, embedded).size)]
  {
    var a := Extents(files, n + 1, embedded);
    var b := Extents(files, n, embedded) + [(RecordAt(files, n, embedded).offset, RecordAt(files, n, embedded).size)];
    assert forall k :: 0 <= k < n + 1 ==> a[k] == b[k];
  }

  lemma {:induction false} RunTypesStep(files: Node, lo: nat, hi: nat, embedded: bool)
    requires lo <= hi
    ensures RunTypes(files, lo, hi + 1, embedded) == RunTypes(files, lo, hi, embedded) + [RecordAt(files, hi, embedded).fileType]
  {
    var a := RunTypes(files, lo, hi + 1, embedded);
    var b := RunTypes(files, lo, hi, embedded) + [RecordAt(files, hi, embedded).fileType];
    assert forall j :: 0 <= j < hi + 1 - lo ==> a[j] == b[j];
  }

  /**
   * Reads the `count` records of one run, starting at record `start`,
   * collecting their types and, when embedded, appending their byte ranges.
   */
  method ReadRun(files: Node, start: nat, count: int, embedded: bool, bytes: seq<(int, int)>)
    returns (r: Checked<(seq<string>, seq<(int, int)>)>)
    requires RecordsReadable(files, start, embedded)
    requires embedded ==> bytes == Extents(files, start, embedded)
    ensures r.Success? <==> RecordsReadable(files, start + Clamp(count), embedded)
    ensures r.Success? ==> r.value.0 == RunTypes(files, start, start + Clamp(count), embedded)
    ensures r.Success? && embedded ==> r.value.1 == Extents(files, start + Clamp(count), embedded)
  {
    var types: seq<string> := [];
    var extents := bytes;
    var sofar := start;
    while sofar < start + count
      invariant start <= sofar <= start + Clamp(count)
      invariant RecordsReadable(files, sofar, embedded)
      invariant types == RunTypes(files, start, sofar, embedded)
      invariant embedded ==> extents == Extents(files, sofar, embedded)
    {
      var rec := ReadRecord(files, sofar, embedded);
      if rec.Failure? {
        UnreadableBeyond(files, sofar, start + Clamp(count), embedded);
        return Failure(rec.error);
      }
      ReadableStep(files, sofar, embedded);
      RunTypesStep(files, start, sofar, embedded);
      types := types + [rec.value.fileType];
      if embedded {
        ExtentsStep(files, sofar, embedded);
        extents := extents + [(rec.value.offset, rec.value.size)];
      }
      sofar := sofar + 1;
    }
    return Success((types, extents));
  }

  lemma ReadableDownward(files: Node, m: nat, n: nat, embedded: bool)
    requires m <= n && RecordsReadable(files, n, embedded)
    ensures RecordsReadable(files, m, embedded)
  {
  }

  /** One run: reads its records, then checks their types against the run's format. */
  method CheckRun(files: Node, format: string, start: nat, count: int, embedded: bool, bytes: seq<(int, int)>)
    returns (r: Checked<seq<(int, int)>>)
    requires RecordsReadable(files, start, embedded)
    requires embedded ==> bytes == Extents(files, start, embedded)
    ensures r.Success? <==>
      && RecordsReadable(files, start + Clamp(count), embedded)
      && RunTypesValid(format, RunTypes(files, start, start + Clamp(count), embedded))
    ensures r.Success? && embedded ==> r.value == Extents(files, start + Clamp(count), embedded)
  {
    var run :- ReadRun(files, start, count, embedded, bytes);
    var ok :- CheckRunTypes(format, run.0);
    return Success(run.1);
  }

  /** A run whose records do not read, or whose types do not suit its format, invalidates the files. */
  lemma RunFailureInvalidates(files: Node, formats: seq<string>, runs: seq<int>, i: nat, embedded: bool)
    requires i < |runs| == |formats|
    requires !RecordsReadable(files, RunStart(runs, i + 1), embedded) ||
             !RunTypesValid(formats[i], RunTypes(files, RunStart(runs, i), RunStart(runs, i + 1), embedded))
    ensures !FilesValid(files, formats, runs, embedded)
  {
    RunStartMonotone(runs, i + 1, |runs|);
    if FilesValid(files, formats, runs, embedded) {
      ReadableDownward(files, RunStart(runs, i + 1), RunStart(runs, |runs|), embedded);
      RunsTypedPrefix(files, formats, runs, i + 1, |runs|, embedded);
    }
  }

  /** Checks run `i` of the files, given that the runs before it have passed. */
  method CheckRunAt(files: Node, formats: seq<string>, runs: seq<int>, i: nat, embedded: bool, sofar: nat, bytes: seq<(int, int)>)
    returns (r: Checked<seq<(int, int)>>)
    requires i < |runs| == |formats|
    requires sofar == RunStart(runs, i)
    requires RecordsReadable(files, RunStart(runs, i), embedded)
    requires RunsTyped(files, formats, runs, i, embedded)
    requires embedded ==> bytes == Extents(files, RunStart(runs, i), embedded)
    ensures r.Failure? ==> !FilesValid(files, formats, runs, embedded)
    ensures r.Success? ==>
      && RecordsReadable(files, RunStart(runs, i + 1), embedded)
      && RunsTyped(files, formats, runs, i + 1, embedded)
      && (embedded ==> r.value == Extents(files, RunStart(runs, i + 1), embedded))
  {
    ghost var next := sofar + Clamp(runs[i]);
    assert next == RunStart(runs, i + 1);
    r := CheckRun(files, formats[i], sofar, runs[i], embedded, bytes);
    if r.Failure? {
      RunFailureInvalidates(files, formats, runs, i, embedded);
    }
  }

  /** The file checks of the parameters phase: reads every run's records, then the byte ranges. */
  method CheckFiles(files: Node, formats: seq<string>, runs: seq<int>, embedded: bool) returns (r: Checked<()>)
    requires |runs| == |formats|
    ensures r.Success? <==> FilesValid(files, formats, runs, embedded)
  {
    var sofar := 0;
    var bytes: seq<(int, int)> := [];
    for i := 0 to |runs|
      invariant sofar == RunStart(runs, i)
      invariant RecordsReadable(files, RunStart(runs, i), embedded)
      invariant RunsTyped(files, formats, runs, i, embedded)
      invariant embedded ==> bytes == Extents(files, RunStart(runs, i), embedded)
    {
      var run := CheckRunAt(files, formats, runs, i, embedded, sofar, bytes);
      if run.Failure? {
        return Failure(run.error);
      }
      if embedded {
        bytes := run.value;
      }
      sofar := sofar + Clamp(runs[i]);
    }
    if embedded {
      var ok := CheckContiguous(bytes);
      if ok.Failure? {
        return Failure(ok.error);
      }
    }
    return Success(());
  }

  /** The parameters phase: formats, sample groups and names, file records, sample factor. */
  method ValidateParameters(inputs: Node, embedded: bool, version: int) returns (r: Checked<ParamDump>)
    ensures r.Success? <==> ParametersValid(inputs, embedded, version)
    ensures r.Success? ==> r.value == DumpOf(inputs, version)
  {
    var params :- OpenGroup(inputs, "parameters");
    var fm :- ReadFormats(params, version);
    var formats, multi := fm.0, fm.1;
    var files :- OpenGroup(params, "files");
    var nfiles := NumChildren(files);

    var runs: seq<int>;
    if multi {
      runs :- LoadIntVector(params, "sample_groups");
      if |runs| != |formats| {
        return Fail(GroupCountError);
      }
      if Sum(runs) != nfiles {
        return Fail(GroupSumError);
      }
      var names :- LoadStringVector(params, "sample_names");
      if |names| != |formats| {
        return Fail(NameCountError);
      }
      var unique :- CheckSampleNames(names);
    } else {
      runs := [nfiles];
    }

    var checked :- CheckFiles(files, formats, runs, embedded);

    var multiSample: bool;
    if !multi && Exists(params, "sample_factor") {
      var factor :- OpenShaped(params, "sample_factor", StringType, []);
      multiSample := true;
    } else {
      multiSample := multi;
    }
    return Success(ParamDump(|formats|, multi, multiSample));
  }

  // ---------------------------------------------------------------------
  // Results phase
  // ---------------------------------------------------------------------

  /**
   * Dimensions by version: before 2.0 a non-negative pair `dimensions`
   * (features, cells) for the single modality "RNA"; from 2.0 a scalar
   * `num_cells` and a non-empty group `num_features` of integer scalars,
   * one per modality.
   */
  ghost predicate DimensionsValid(results: Node, version: int) {
    if version < V2_0 then
      && LoadIntVector(results, "dimensions").Success?
      && |LoadIntVector(results, "dimensions").value| == 2
      && LoadIntVector(results, "dimensions").value[0] >= 0
      && LoadIntVector(results, "dimensions").value[1] >= 0
    else
      && LoadIntScalar(results, "num_cells").Success?
      && OpenGroup(results, "num_features").Success?
      && var counts := Child(results, "num_features").value;
         && NumChildren(counts) > 0
         && forall i :: 0 <= i < NumChildren(counts) ==> LoadIntScalar(counts, ChildNames(counts)[i]).Success?
  }

  ghost function IntOr(r: Checked<int>): int {
    if r.Success? then r.value else 0
  }

  /** Modalities, feature counts (parallel to the modalities) and cell count. */
  ghost function DimensionsOf(results: Node, version: int): (d: (seq<string>, seq<int>, int))
    ensures |d.0| == |d.1|
    ensures DimensionsValid(results, version) ==> |d.0| >= 1
  {
    if version < V2_0 then
      var dims := LoadIntVector(results, "dimensions");
      if dims.Success? && |dims.value| == 2 then (["RNA"], [dims.value[0]], dims.value[1])
      else (["RNA"], [0], 0)
    else
      var counts := Child(results, "num_features");
      var cells := IntOr(LoadIntScalar(results, "num_cells"));
      if counts.None? then ([], [], cells)
      else
        var names := ChildNames(counts.value);
        (names, seq(|names|, i requires 0 <= i < |names| => IntOr(LoadIntScalar(counts.value, names[i]))), cells)
  }

  /** Reads the dimensions, walking the `num_features` children in enumeration order. */
  method ReadDimensions(results: Node, version: int) returns (r: Checked<(seq<string>, seq<int>, int)>)
    ensures r.Success? <==> DimensionsValid(results, version)
    ensures r.Success? ==> r.value == DimensionsOf(results, version)
  {
    var modalities: seq<string> := [];
    var numFeatures: seq<int> := [];
    var numCells: int;
    if version < V2_0 {
      modalities := ["RNA"];
      var dims :- LoadIntVector(results, "dimensions");
      if |dims| != 2 {
        return Fail(DimensionsLengthError);
      }
      if dims[0] < 0 || dims[1] < 0 {
        return Fail(DimensionsSignError);
      }
      numFeatures := [dims[0]];
      numCells := dims[1];
    } else {
      numCells :- LoadIntScalar(results, "num_cells");
      var counts :- OpenGroup(results, "num_features");
      var nmodals := NumChildren(counts);
      if nmodals == 0 {
        return Fail(NoModalitiesError);
      }
      var names := ChildNames(counts);
      for idx := 0 to nmodals
        invariant modalities == names[..idx]
        invariant |numFeatures| == idx
        invariant forall i :: 0 <= i < idx ==> LoadIntScalar(counts, names[i]).Success?
                                                && numFeatures[i] == LoadIntScalar(counts, names[i]).value
      {
        var modality := names[idx];
        modalities := modalities + [modality];
        var count :- LoadIntScalar(counts, modality);
        numFeatures := numFeatures + [count];
      }
      assert modalities == names;
      ghost var expected := DimensionsOf(results, version);
      assert expected.0 == names && |expected.1| == |numFeatures|;
      assert forall i :: 0 <= i < |names| ==> expected.1[i] == numFeatures[i];
      assert expected.1 == numFeatures;
    }
    return Success((modalities, numFeatures, numCells));
  }

  /** The declared number of samples, 1 when absent. */
  ghost function DeclaredSamples(results: Node): Checked<int> {
    if Exists(results, "num_samples") then LoadIntScalar(results, "num_samples") else Success(1)
  }

  /**
   * `num_samples` (default 1) must equal the number of matrices for
   * multi-matrix input, and must be 1 for input that is neither
   * multi-matrix nor multi-sample.
   */
  function ReadNumSamples(results: Node, dump: ParamDump): (r: Checked<int>)
    ensures r.Success? <==>
      && DeclaredSamples(results).Success?
      && (dump.multiMatrix ==> DeclaredSamples(results).value == dump.numMatrices)
      && (!dump.multiMatrix && !dump.multiSample ==> DeclaredSamples(results).value == 1)
    ensures r.Success? ==> r.value == DeclaredSamples(results).value
  {
    var n :- if Exists(results, "num_samples") then LoadIntScalar(results, "num_samples") else Success(1);
    if dump.multiMatrix then
      if n != dump.numMatrices then Fail(SamplesMatrixError)
      else Success(n)
    else if !dump.multiSample && n != 1 then
      Fail(SingleSampleError)
    else Success(n)
  }

  /** The four historical encodings of feature identities. */
  datatype IdentityEra = PerModality | FlatIdentities | Indices | Permutation

  function IdentityEraOf(version: int, multiMatrix: bool): IdentityEra {
    if version >= V2_0 then PerModality
    else if version >= V1_2 then FlatIdentities
    else if multiMatrix then Indices
    else Permutation
  }

  /** Non-negative and duplicate-free: an injective map into the original rows. */
  predicate ValidIdentities(idx: seq<int>) {
    && (forall i :: 0 <= i < |idx| ==> idx[i] >= 0)
    && Distinct(idx)
  }

  /** A bijection of `[0, |p|)` onto itself. */
  predicate IsPermutation(p: seq<int>) {
    && (forall i :: 0 <= i < |p| ==> 0 <= p[i] < |p|)
    && Distinct(p)
  }

  /** Rejects the first negative or repeated value, remembering the values seen. */
  method CheckUnique(idx: seq<int>, what: string) returns (r: Checked<()>)
    ensures r.Success? <==> ValidIdentities(idx)
  {
    var used: set<int> := {};
    for i := 0 to |idx|
      invariant used == Elements(idx[..i])
      invariant ValidIdentities(idx[..i])
    {
      var v := idx[i];
      if v < 0 {
        return Fail(what + " contains negative values");
      } else if v in used {
        var k :| 0 <= k < i && idx[..i][k] == v;
        assert idx[k] == idx[i];
        return Fail(what + " contains duplicate values");
      }
      assert Elements(idx[..i + 1]) == Elements(idx[..i]) + {v} by {
        assert idx[..i + 1] == idx[..i] + [v];
      }
      used := used + {v};
    }
    assert idx[..|idx|] == idx;
    return Success(());
  }

  /** Checks a permutation with a presence bitmap of `|perms|` entries. */
  method CheckPermutation(perms: seq<int>) returns (r: Checked<()>)
    ensures r.Success? <==> IsPermutation(perms)
  {
    var used := new bool[|perms|](_ => false);
    for i := 0 to |perms|
      invariant forall k :: 0 <= k < i ==> 0 <= perms[k] < |perms|
      invariant Distinct(perms[..i])
      invariant forall v :: 0 <= v < used.Length ==> (used[v] <==> v in perms[..i])
    {
      var p := perms[i];
      if p < 0 || p >= |perms| {
        return Fail(PermutationRangeError);
      } else if used[p] {
        var k :| 0 <= k < i && perms[..i][k] == p;
        assert perms[k] == perms[i];
        return Fail(PermutationDuplicateError);
      }
      assert perms[..i + 1] == perms[..i] + [p];
      used[p] := true;
    }
    assert perms[..|perms|] == perms;
    return Success(());
  }

  ghost predicate IdentityVectorValid(g: Node, name: string, n: int) {
    && LoadIntVector(g, name).Success?
    && |LoadIntVector(g, name).value| == n
    && ValidIdentities(LoadIntVector(g, name).value)
  }

  /** Loads one identity vector and checks its length and values. */
  method CheckIdentityVector(g: Node, name: string, n: int, what: string, lengthError: string) returns (r: Checked<()>)
    ensures r.Success? <==> IdentityVectorValid(g, name, n)
  {
    var idx :- LoadIntVector(g, name);
    if |idx| != n {
      return Fail(lengthError);
    }
    r := CheckUnique(idx, what);
  }

  /** The feature-identity rule of the era the version and the matrix count select. */
  ghost predicate IdentitiesValid(results: Node, multiMatrix: bool, modalities: seq<string>, numFeatures: seq<int>, version: int)
    requires |modalities| == |numFeatures| >= 1
  {
    match IdentityEraOf(version, multiMatrix)
    case PerModality =>
      && OpenGroup(results, "identities").Success?
      && forall m :: 0 <= m < |modalities| ==>
           IdentityVectorValid(Child(results, "identities").value, modalities[m], numFeatures[m])
    case FlatIdentities => IdentityVectorValid(results, "identities", numFeatures[0])
    case Indices => IdentityVectorValid(results, "indices", numFeatures[0])
    case Permutation =>
      && LoadIntVector(results, "permutation").Success?
      && |LoadIntVector(results, "permutation").value| == numFeatures[0]
      && IsPermutation(LoadIntVector(results, "permutation").value)
  }

  /** From 2.0: one identity vector per modality, in modality order. */
  method CheckModalityIdentities(ids: Node, modalities: seq<string>, numFeatures: seq<int>) returns (r: Checked<()>)
    requires |modalities| == |numFeatures|
    ensures r.Success? <==>
      forall m :: 0 <= m < |modalities| ==> IdentityVectorValid(ids, modalities[m], numFeatures[m])
  {
    for m := 0 to |modalities|
      invariant forall q :: 0 <= q < m ==> IdentityVectorValid(ids, modalities[q], numFeatures[q])
    {
      var what := "'identities' for modality '" + modalities[m] + "'";
      var ok :- CheckIdentityVector(ids, modalities[m], numFeatures[m], what,
                                    what + " should have length equal to its number of features");
    }
    return Success(());
  }

  /** Before 1.2, single-matrix input: a permutation of the `n` gene rows. */
  method CheckPermutationVector(results: Node, n: int) returns (r: Checked<()>)
    ensures r.Success? <==>
      && LoadIntVector(results, "permutation").Success?
      && |LoadIntVector(results, "permutation").value| == n
      && IsPermutation(LoadIntVector(results, "permutation").value)
  {
    var perms :- LoadIntVector(results, "permutation");
    if |perms| != n {
      return Fail(PermutationLengthError);
    }
    r := CheckPermutation(perms);
  }

  method CheckIdentities(results: Node, multiMatrix: bool, modalities: seq<string>, numFeatures: seq<int>, version: int)
    returns (r: Checked<()>)
    requires |modalities| == |numFeatures| >= 1
    ensures r.Success? <==> IdentitiesValid(results, multiMatrix, modalities, numFeatures, version)
  {
    if version >= V2_0 {
      var ids :- OpenGroup(results, "identities");
      r := CheckModalityIdentities(ids, modalities, numFeatures);
    } else if version >= V1_2 {
      r := CheckIdentityVector(results, "identities", numFeatures[0], "'identities'", IdentitiesLengthError);
    } else if multiMatrix {
      r := CheckIdentityVector(results, "indices", numFeatures[0], "'indices'", IndicesLengthError);
    } else {
      r := CheckPermutationVector(results, numFeatures[0]);
    }
  }

  /** Everything the results phase requires of the `inputs` group, given the parameters' summary. */
  ghost predicate ResultsValid(inputs: Node, dump: ParamDump, version: int) {
    && OpenGroup(inputs, "results").Success?
    && var results := Child(inputs, "results").value;
       && DimensionsValid(results, version)
       && ReadNumSamples(results, dump).Success?
       && var dims := DimensionsOf(results, version);
          IdentitiesValid(results, dump.multiMatrix, dims.0, dims.1, version)
  }

  /** The details the results phase returns when it succeeds. */
  ghost function DetailsOf(inputs: Node, dump: ParamDump, version: int): Details
    requires ResultsValid(inputs, dump, version)
  {
    var results := Child(inputs, "results").value;
    var dims := DimensionsOf(results, version);
    Details(dims.0, dims.1, dims.2, ReadNumSamples(results, dump).value)
  }

  /** The results phase: dimensions, number of samples, feature identities. */
  method ValidateResults(inputs: Node, dump: ParamDump, version: int) returns (r: Checked<Details>)
    ensures r.Success? <==> ResultsValid(inputs, dump, version)
    ensures r.Success? ==> r.value == DetailsOf(inputs, dump, version)
  {
    var results :- OpenGroup(inputs, "results");
    var dims :- ReadDimensions(results, version);
    var numSamples :- ReadNumSamples(results, dump);
    var checked :- CheckIdentities(results, dump.multiMatrix, dims.0, dims.1, version);
    return Success(Details(dims.0, dims.1, dims.2, numSamples));
  }

  const ParametersFrame: string := "failed to retrieve parameters from 'inputs'"
  const ResultsFrame: string := "failed to retrieve results from 'inputs'"

  /**
   * Validates the `inputs` group: the parameters first, then the results;
   * a failure of either phase carries that phase's context frame.
   */
  method Validate(root: Node, embedded: bool, version: int) returns (r: Checked<Details>)
    ensures r.Success? <==>
      && OpenGroup(root, "inputs").Success?
      && var inputs := Child(root, "inputs").value;
         ParametersValid(inputs, embedded, version) && ResultsValid(inputs, DumpOf(inputs, version), version)
    ensures r.Success? ==>
      var inputs := Child(root, "inputs").value;
      r.value == DetailsOf(inputs, DumpOf(inputs, version), version)
    ensures OpenGroup(root, "inputs").Success? && !ParametersValid(Child(root, "inputs").value, embedded, version) ==>
      r.Failure? && |r.error.context| > 0 && r.error.context[0] == ParametersFrame
    ensures OpenGroup(root, "inputs").Success? && ParametersValid(Child(root, "inputs").value, embedded, version)
            && !ResultsValid(Child(root, "inputs").value, DumpOf(Child(root, "inputs").value, version), version) ==>
      r.Failure? && |r.error.context| > 0 && r.error.context[0] == ResultsFrame
    ensures r.Success? ==> |r.value.modalities| == |r.value.numFeatures| >= 1
  {
    var inputs :- OpenGroup(root, "inputs");
    var dump := ValidateParameters(inputs, embedded, version);
    var params :- Wrap(dump, ParametersFrame);
    var details := ValidateResults(inputs, params, version);
    r := Wrap(details, ResultsFrame);
  }

  // ---------------------------------------------------------------------
  // Properties
  // ---------------------------------------------------------------------

  /**
   * A permutation check passes exactly when every value is in range and
   * every index of the range occurs: n distinct values drawn from n slots
   * fill all of them.
   */
  lemma {:induction false} PermutationCoversRange(p: seq<int>)
    ensures IsPermutation(p) <==>
      && (forall i :: 0 <= i < |p| ==> 0 <= p[i] < |p|)
      && (forall v :: 0 <= v < |p| ==> v in Elements(p))
  {
    if forall i :: 0 <= i < |p| ==> 0 <= p[i] < |p| {
      assert Elements(p) <= Range(|p|);
      RangeCount(|p|);
      if Distinct(p) {
        DistinctElementsCount(p);
        SubsetOfSameSize(Elements(p), Range(|p|));
      }
      if forall v :: 0 <= v < |p| ==> v in Elements(p) {
        assert Elements(p) == Range(|p|);
        ElementsCountDistinct(p);
      }
    }
  }

  lemma {:induction false} TotalSizeStep(bytes: seq<(int, int)>, i: nat)
    requires 0 < i <= |bytes|
    ensures TotalSize(bytes[..i]) == TotalSize(bytes[..i - 1]) + bytes[i - 1].1
  {
    assert bytes[..i][..i - 1] == bytes[..i - 1];
  }

  /**
   * Contiguity as the source states it: the first offset is 0 and each
   * offset is the previous offset plus the previous size.
   */
  lemma {:induction false} ContiguousIffAdjacent(bytes: seq<(int, int)>)
    ensures Contiguous(bytes) <==>
      && (|bytes| > 0 ==> bytes[0].0 == 0)
      && (forall i :: 0 < i < |bytes| ==> bytes[i].0 == bytes[i - 1].0 + bytes[i - 1].1)
  {
    forall i | 0 < i < |bytes| {
      TotalSizeStep(bytes, i);
    }
    if (|bytes| > 0 ==> bytes[0].0 == 0) &&
       (forall i :: 0 < i < |bytes| ==> bytes[i].0 == bytes[i - 1].0 + bytes[i - 1].1) {
      var i := 0;
      while i < |bytes|
        invariant 0 <= i <= |bytes|
        invariant forall k :: 0 <= k < i ==> bytes[k].0 == TotalSize(bytes[..k])
      {
        i := i + 1;
      }
    }
  }

  lemma {:induction false} TotalSizeGrows(bytes: seq<(int, int)>, i: nat, j: nat)
    requires i <= j <= |bytes|
    requires forall k :: 0 <= k < |bytes| ==> bytes[k].1 >= 0
    ensures TotalSize(bytes[..i]) <= TotalSize(bytes[..j])
    decreases j - i
  {
    if i < j {
      TotalSizeStep(bytes, j);
      TotalSizeGrows(bytes, i, j - 1);
    }
  }

  /** Contiguous ranges of non-negative size are in record order and never overlap. */
  lemma {:induction false} ContiguousInOrder(bytes: seq<(int, int)>, i: nat, j: nat)
    requires Contiguous(bytes)
    requires forall k :: 0 <= k < |bytes| ==> bytes[k].1 >= 0
    requires i < j < |bytes|
    ensures bytes[i].0 + bytes[i].1 <= bytes[j].0
  {
    TotalSizeStep(bytes, i + 1);
    TotalSizeGrows(bytes, i + 1, j);
  }

  /** Every record index below the total belongs to some run ... */
  lemma {:induction false} RecordHasRun(runs: seq<int>, k: nat) returns (r: nat)
    requires k < RunStart(runs, |runs|)
    ensures r < |runs| && RunStart(runs, r) <= k < RunStart(runs, r + 1)
  {
    r := |runs| - 1;
    while RunStart(runs, r) > k
      invariant 0 <= r < |runs|
      invariant k < RunStart(runs, r + 1)
      decreases r
    {
      r := r - 1;
    }
  }

  /** ... and to only one. */
  lemma {:induction false} RecordRunUnique(runs: seq<int>, k: nat, r: nat, q: nat)
    requires r < |runs| && RunStart(runs, r) <= k < RunStart(runs, r + 1)
    requires q < |runs| && RunStart(runs, q) <= k < RunStart(runs, q + 1)
    ensures r == q
  {
    if r < q {
      RunStartMonotone(runs, r + 1, q);
    } else if q < r {
      RunStartMonotone(runs, q + 1, r);
    }
  }

  /** With no negative group sizes, the runs take exactly `Sum(runs)` records. */
  lemma {:induction false} RunStartIsSum(runs: seq<int>, n: nat)
    requires n <= |runs|
    requires forall i :: 0 <= i < |runs| ==> runs[i] >= 0
    ensures RunStart(runs, n) == Sum(runs[..n])
  {
    if n > 0 {
      RunStartIsSum(runs, n - 1);
      assert runs[..n][..n - 1] == runs[..n - 1];
    }
  }

  /** The names of the first `n` file records: `"0"`, `"1"`, and so on. */
  function RecordNames(n: nat): (names: seq<string>)
    ensures |names| == n && Distinct(names)
  {
    var names := seq(n, k requires 0 <= k => NatToString(k));
    forall i, j | 0 <= i < j < n
      ensures names[i] != names[j]
    {
      NatToStringInjective(i, j);
    }
    names
  }

  /**
   * When the parameters are valid and no declared group size is negative,
   * the records that the runs take are exactly the children of `files`:
   * as many records as children, and the children are named `"0"` to
   * `"n-1"`, each once.
   */
  lemma {:induction false} RunsCoverFiles(inputs: Node, embedded: bool, version: int)
    requires ParametersValid(inputs, embedded, version)
    ensures var params := Child(inputs, "parameters").value;
            var files := Child(params, "files").value;
            var runs := RunsOf(params, FormatsOf(params, version).1, NumChildren(files));
            (forall i :: 0 <= i < |runs| ==> runs[i] >= 0) ==>
              && RunStart(runs, |runs|) == NumChildren(files)
              && Elements(ChildNames(files)) == Elements(RecordNames(NumChildren(files)))
              && Distinct(ChildNames(files))
  {
    var params := Child(inputs, "parameters").value;
    var files := Child(params, "files").value;
    var runs := RunsOf(params, FormatsOf(params, version).1, NumChildren(files));
    if forall i :: 0 <= i < |runs| ==> runs[i] >= 0 {
      RunStartIsSum(runs, |runs|);
      assert runs[..|runs|] == runs;
      var n := NumChildren(files);
      var names := RecordNames(n);
      forall k | 0 <= k < n
        ensures Exists(files, names[k])
      {
        assert ReadRecord(files, k, embedded).Success?;
      }
      ChildrenAreExactly(files, names);
    }
  }

  /**
   * Multi-matrix input implies multi-sample input and a version of at least
   * 1.1, so the `indices` era is only reached in [1.1, 1.2); single-matrix
   * input has exactly one matrix.
   */
  lemma MultiMatrixFacts(inputs: Node, embedded: bool, version: int)
    requires ParametersValid(inputs, embedded, version)
    ensures DumpOf(inputs, version).multiMatrix ==> DumpOf(inputs, version).multiSample && version >= V1_1
    ensures !DumpOf(inputs, version).multiMatrix ==> DumpOf(inputs, version).numMatrices == 1
    ensures IdentityEraOf(version, DumpOf(inputs, version).multiMatrix) == Indices ==> V1_1 <= version < V1_2
  {
  }

  /** Without multiple matrices or a sample factor, the number of samples is 1. */
  lemma SingleSampleByDefault(inputs: Node, dump: ParamDump, version: int)
    requires ResultsValid(inputs, dump, version)
    requires !dump.multiMatrix && !dump.multiSample
    ensures DetailsOf(inputs, dump, version).numSamples == 1
  {
  }

  /** A version exactly at a threshold takes the era that the threshold opens. */
  lemma EraThresholds(multiMatrix: bool)
    ensures IdentityEraOf(V2_0, multiMatrix) == PerModality
    ensures IdentityEraOf(V1_2, multiMatrix) == FlatIdentities
    ensures IdentityEraOf(V1_2 - 1, multiMatrix) == (if multiMatrix then Indices else Permutation)
  {
  }

  lemma IdentityExamples()
    ensures IsPermutation([0, 1, 2, 3])
    ensures !IsPermutation([0, 1, 1, 3]) && !IsPermutation([0, 1, 2, 4])
    ensures ValidIdentities([5, 2, 9])
    ensures !ValidIdentities([5, 2, 5]) && !ValidIdentities([-1, 2, 5])
  {
    var dup, wide := [0, 1, 1, 3], [0, 1, 2, 4];
    assert dup[1] == dup[2];
    assert !(0 <= wide[3] < |wide|);
    var same, negative := [5, 2, 5], [-1, 2, 5];
    assert same[0] == same[2];
    assert negative[0] < 0;
  }

  lemma ContiguityExamples()
    ensures Contiguous([(0, 10), (10, 20), (30, 5)])
    ensures !Contiguous([(0, 10), (0, 20), (10, 5)])
  {
    ContiguousIffAdjacent([(0, 10), (10, 20), (30, 5)]);
    var gap := [(0, 10), (0, 20), (10, 5)];
    ContiguousIffAdjacent(gap);
    assert gap[1].0 != gap[0].0 + gap[0].1;
  }

  /**
   * A `format` vector may be empty: with no sample groups, no sample names
   * and no files, the parameters phase accepts an input of zero matrices.
   */
  lemma ZeroMatricesAccepted()
    ensures var params := Group([("format", Dataset(StringType, [0], [], [])),
                                 ("files", Group([])),
                                 ("sample_groups", Dataset(IntegerType, [0], [], [])),
                                 ("sample_names", Dataset(StringType, [0], [], []))]);
            var inputs := Group([("parameters", params)]);
            ParametersValid(inputs, false, V1_1) && DumpOf(inputs, V1_1).numMatrices == 0
  {
    var params := Group([("format", Dataset(StringType, [0], [], [])),
                         ("files", Group([])),
                         ("sample_groups", Dataset(IntegerType, [0], [], [])),
                         ("sample_names", Dataset(StringType, [0], [], []))]);
    var inputs := Group([("parameters", params)]);
    assert Child(inputs, "parameters") == Some(params);
    assert Child(params, "format").Some?;
    assert Child(params, "files") == Some(Group([]));
    assert Child(params, "sample_groups").Some?;
    assert Child(params, "sample_names").Some?;
    assert FormatsOf(params, V1_1) == ([], true);
    assert RunsOf(params, true, 0) == [];
  }
}
