# kanaval validators, modelled in Dafny

kanaval checks a saved single-cell analysis state. The state is an HDF5
file: a tree of named groups and typed, shaped datasets. Each analysis step
has its own validator, and the format has several schema versions. A
version is the integer `major * 1000000 + minor * 1000 + patch`, so 1.1 is
1001000 and 2.0 is 2000000. A validator either returns a small summary or
fails with a message. Each enclosing layer of the validator prepends a
context phrase to that message.

This project models the validators of the input step, the custom-selection
step, the PCA step and the combine-embeddings step. It also models the
shared helpers those steps use. The file tree is the datatype
`Containers.Node`: a `Group` with an ordered list of named children, or a
`Dataset` with a type tag (integer, float or string), a shape, and its
integer or string payload. Children keep their enumeration order, and
the validators follow that order.

Every validator returns `Checked<T>`, which is `Result<T, Error>`. An
`Error` is a base message plus the list of context frames, outermost
first. Each contract says exactly when the validator succeeds, usually as
an "if and only if" with a predicate over the tree. It also says what the
summary contains when the validator succeeds. Where the source changes
state step by step, the model does too:

- loops push onto sequences;
- `set`s record the names and identities seen so far;
- a `map` counts MatrixMarket file types;
- an `array<bool>` bitmap marks the values of a permutation.

Each such method is proved against a ghost predicate that states the rule
over the whole tree.

Modules, one per source file plus shared support:

- `Wrappers`: `Option` and `Result`.
- `Containers`: the tree, errors and context frames, and the accessors that
  stand in for the HDF5 access layer. It also has the decimal rendering of
  record indices.
- `Sequences`: distinctness, element sets, integer ranges and sums, with
  counting lemmas.
- `Versions`: the version thresholds and the proof that the integer encoding
  orders versions lexicographically.
- `Inputs`, `CustomSelections`, `Pca`, `CombineEmbeddings`, `Misc`: the
  validators.

Notes on behaviour, where the code decides:

- An empty `format` vector is accepted from 1.1, as long as `sample_groups`,
  `sample_names` and `files` are empty too. The code never requires at least
  one matrix. `Inputs.ZeroMatricesAccepted` gives such an input.
- From 2.0, `num_cells` and the `num_features` entries are read without a
  sign check. Only the pre-2.0 `dimensions` pair must be non-negative.
- In `sample_groups`, a negative group size takes no records: the source's
  record loop does not run for it. The sum check still counts the negative
  value.
- A dataset counts as readable only when its payload length matches its
  shape. The vector loaders also require rank 1.
- `Pca.Validate` takes the version as an explicit argument. In the source it
  defaults to 1001000.

## Model

| member | source | states |
|---|---|---|
| Inputs.ReadFormats | inst/include/kanaval/inputs.hpp:65-81 | succeeds iff `format` is a scalar string, or a string vector when version >= 1.1; the input is multi-matrix iff `format` is not a scalar; returns exactly the stored strings, one for a scalar |
| Inputs.CheckSampleNames | inst/include/kanaval/inputs.hpp:105-111 | with a growing set of names seen: succeeds iff `sample_names` are pairwise distinct |
| Inputs.CountMatrixMarketTypes | inst/include/kanaval/inputs.hpp:144-157 | with a map of counts: fails on the first type that is not `mtx`, `genes` or `annotations`; otherwise each count is that type's multiplicity in the run |
| Inputs.CheckMatrixMarketRun | inst/include/kanaval/inputs.hpp:144-167 | a MatrixMarket run passes iff it has only known types, exactly one `mtx`, at most one `genes` and at most one `annotations` |
| Inputs.CheckRunTypes | inst/include/kanaval/inputs.hpp:144-176 | succeeds iff the run satisfies its format's rule: MatrixMarket as above, 10X and H5AD exactly `["h5"]`, any other format unconstrained |
| Inputs.CheckContiguous | inst/include/kanaval/inputs.hpp:180-189 | with a running end position: succeeds iff each byte range starts where all earlier ranges end |
| Inputs.ReadRecordFields | inst/include/kanaval/inputs.hpp:125-138 | a record reads iff it is a group with a string scalar `name`, a string `type`, non-negative `offset` and `size` when embedded, and a string scalar `id` when linked; returns the type and the byte range |
| Inputs.ReadRun | inst/include/kanaval/inputs.hpp:121-142 | reads a run's records in order from the running cursor; succeeds iff every record up to the end of the run reads; returns the run's types and the byte ranges extended by the run's records |
| Inputs.CheckRun | inst/include/kanaval/inputs.hpp:119-176 | one run: succeeds iff its records read and its types satisfy its format's rule |
| Inputs.RunFailureInvalidates | inst/include/kanaval/inputs.hpp:119-176 | a run whose records do not read, or whose types do not suit its format, makes the file records invalid, whatever the later runs hold |
| Inputs.RunsTypedEach | inst/include/kanaval/inputs.hpp:119-176 | the runs checked one after another are well typed iff each run on its own suits its format |
| Inputs.CheckRunAt | inst/include/kanaval/inputs.hpp:119-176 | given that the earlier runs passed: a failing run invalidates the file records; a passing run extends the readable prefix, the typed runs and the byte ranges by one run |
| Inputs.CheckFiles | inst/include/kanaval/inputs.hpp:116-189 | succeeds iff the runs, taking consecutive records, are all readable, each run's types suit its format, and, when embedded, the byte ranges of all records are contiguous |
| Inputs.ValidateParameters | inst/include/kanaval/inputs.hpp:61-199 | succeeds iff the whole parameters predicate holds: formats, for multi-matrix input matching group and name counts, a group sum equal to the file count and distinct names, the file checks, and a string scalar `sample_factor` when present on single-matrix input; returns the matrix count and the multi-matrix and multi-sample flags |
| Inputs.ReadDimensions | inst/include/kanaval/inputs.hpp:206-232 | before 2.0 modalities are `["RNA"]` with a non-negative `dimensions` pair (features, cells); from 2.0 `num_cells` and a non-empty `num_features` group read in child order; succeeds iff readable, and then returns exactly those values |
| Inputs.DimensionsOf | inst/include/kanaval/inputs.hpp:206-232 | modalities and feature counts are parallel, and at least one modality exists whenever the dimensions are valid |
| Inputs.ReadNumSamples | inst/include/kanaval/inputs.hpp:235-247 | `num_samples`, defaulting to 1, must equal the matrix count for multi-matrix input and be 1 for input that is neither multi-matrix nor multi-sample; returns it |
| Inputs.CheckUnique | inst/include/kanaval/inputs.hpp:249-260 | with a growing set of values seen: succeeds iff the values are non-negative and pairwise distinct |
| Inputs.CheckPermutation | inst/include/kanaval/inputs.hpp:287-302 | with a presence bitmap of n entries: succeeds iff every value lies in `[0, n)` and no value repeats |
| Inputs.CheckIdentityVector | inst/include/kanaval/inputs.hpp:264-285 | succeeds iff the named integer vector has the expected length and non-negative, distinct values |
| Inputs.CheckModalityIdentities | inst/include/kanaval/inputs.hpp:262-270 | from 2.0: succeeds iff each modality's `identities` vector has that modality's feature count as length and non-negative, distinct values |
| Inputs.CheckPermutationVector | inst/include/kanaval/inputs.hpp:286-302 | succeeds iff `permutation` is an integer vector of the gene count's length whose values lie in `[0, n)` and do not repeat |
| Inputs.CheckIdentities | inst/include/kanaval/inputs.hpp:262-305 | applies the rule of the version's era: per-modality `identities` from 2.0, a flat `identities` from 1.2, `indices` for multi-matrix input and `permutation` otherwise; succeeds iff that era's rule holds |
| Inputs.ValidateResults | inst/include/kanaval/inputs.hpp:201-308 | succeeds iff the dimensions, the sample count and the identities are valid; returns modalities, feature counts, cell count and sample count |
| Inputs.Validate | inst/include/kanaval/inputs.hpp:496-514 | parameters before results; succeeds iff both phases hold; a parameters failure carries the parameters frame even if the results are bad too, and a results failure carries the results frame; the details have as many feature counts as modalities, at least one |
| Inputs.PermutationCoversRange | inst/include/kanaval/inputs.hpp:293-302 | the bitmap rule is the same as bijectivity: in range and duplicate-free iff in range and every index of `[0, n)` occurs |
| Inputs.ContiguousIffAdjacent | inst/include/kanaval/inputs.hpp:180-189 | contiguity is equivalent to `offset[0] == 0` and `offset[i] == offset[i-1] + size[i-1]` |
| Inputs.ContiguousInOrder | inst/include/kanaval/inputs.hpp:180-189 | contiguous ranges of non-negative size follow record order and never overlap |
| Inputs.RecordHasRun | inst/include/kanaval/inputs.hpp:119-124 | every record below the total belongs to a run |
| Inputs.RecordRunUnique | inst/include/kanaval/inputs.hpp:119-124 | no record belongs to two runs |
| Inputs.RunsCoverFiles | inst/include/kanaval/inputs.hpp:93-124 | for valid parameters with no negative group size, the runs take as many records as `files` has children, and those children are named `"0"` to `"n-1"`, each exactly once |
| Inputs.MultiMatrixFacts | inst/include/kanaval/inputs.hpp:68-81 | multi-matrix input is multi-sample and needs version >= 1.1; single-matrix input has one matrix; the `indices` era is reachable only between 1.1 and 1.2 |
| Inputs.SingleSampleByDefault | inst/include/kanaval/inputs.hpp:235-246 | input that is neither multi-matrix nor multi-sample reports one sample |
| Inputs.EraThresholds | inst/include/kanaval/inputs.hpp:262-280 | each threshold opens its era: 2.0 is per-modality, 1.2 flat, just below 1.2 `indices` or `permutation` |
| Inputs.IdentityExamples | inst/include/kanaval/inputs.hpp:249-302 | `[0,1,2,3]` is a permutation and `[0,1,1,3]`, `[0,1,2,4]` are not; `[5,2,9]` passes the uniqueness rule and `[5,2,5]`, `[-1,2,5]` fail |
| Inputs.ContiguityExamples | inst/include/kanaval/inputs.hpp:180-189 | `(0,10),(10,20),(30,5)` is contiguous and `(0,10),(0,20),(10,5)` is not |
| Inputs.ZeroMatricesAccepted | inst/include/kanaval/inputs.hpp:65-114 | an empty `format` vector with empty groups, names and files passes the parameters phase with zero matrices |
| Containers.NatToStringInjective | inst/include/kanaval/inputs.hpp:123-124 | record names denote their index, and distinct indices give distinct names |
| Containers.NatToStringCanonical | inst/include/kanaval/inputs.hpp:123-124 | record names have no leading zero, so together with their denoted value they are the standard decimal rendering |
| Containers.ChildrenAreExactly | inst/include/kanaval/inputs.hpp:93-124 | a group with as many children as distinct expected names, each of which it holds, has exactly those child names, none repeated |
| Misc.CheckPcaContents | inst/include/kanaval/misc.hpp:13-28 | succeeds iff `var_exp` is a one-dimensional float dataset no longer than `max_pcs` and `pcs` is a float dataset of shape `[num_cells, observed]`; returns `observed` |
| Misc.CheckBlockMethod | inst/include/kanaval/misc.hpp:30-49 | scans the option list built for the version; succeeds iff the method is `none`, `regress`, `mnn` before 2.0, or `weight` from 2.0 |
| Misc.BlockMethodsByVersion | inst/include/kanaval/misc.hpp:30-49 | `none` and `regress` always pass; `mnn` passes iff version < 2.0; `weight` passes iff version >= 2.0; nothing else passes |
| Misc.CheckDiscardVector | inst/include/kanaval/misc.hpp:56-71 | succeeds iff `discards` is an integer dataset of shape `[num_cells]`; returns the number of zero entries, between 0 and `num_cells`; a failure carries the discard frame |
| Misc.EffectsListed | inst/include/kanaval/misc.hpp:77 | the effects are `lfc`, `delta_detected`, `cohen`, `auc`, in that order and distinct |
| Pca.ValidateParameters | inst/include/kanaval/pca.hpp:22-42 | succeeds iff `num_hvgs` and `num_pcs` are positive integer scalars and, from 1.1, `block_method` is an allowed string; returns `num_pcs` and the method, empty before 1.1 |
| Pca.ValidateResults | inst/include/kanaval/pca.hpp:44-56 | succeeds iff the PCA contents are valid and, for `mnn` between 1.1 and 2.0, `corrected` has shape `[num_cells, observed]`; returns the length of `var_exp`, which is the column count of `pcs` and at most `max_pcs` |
| Pca.Validate | inst/include/kanaval/pca.hpp:96-117 | succeeds iff parameters and then results are valid; returns the length of `var_exp`, which is the column count of `pcs` and between 0 and `num_pcs`; each failing phase carries its frame |
| Pca.NoCorrectedBeforeV1_1 | inst/include/kanaval/pca.hpp:35-53 | before 1.1 the method is empty and `corrected` is never required |
| CustomSelections.ValidateParameters | inst/include/kanaval/custom_selections.hpp:22-40 | walks `selections` in child order; succeeds iff every selection is an integer vector of indices in `[0, num_cells)`; returns exactly the child names in order |
| CustomSelections.CheckStatistics | inst/include/kanaval/custom_selections.hpp:42-49 | succeeds iff every named statistic is a float dataset of the given shape |
| CustomSelections.ValidateCustomMarkers | inst/include/kanaval/custom_selections.hpp:42-49 | succeeds iff every listed statistic is a float dataset of shape `[num_features]` |
| CustomSelections.MarkerStatisticsNamed | inst/include/kanaval/custom_selections.hpp:42-49 | the listed statistics are `means`, `detected`, `lfc`, `delta_detected`, `cohen` and `auc` |
| CustomSelections.StatisticsGroup | inst/include/kanaval/custom_selections.hpp:59-61 | a named statistics group exists and holds every statistic for the given feature count (per selection here, per modality at lines 80-82) |
| CustomSelections.CheckMarkerSelections | inst/include/kanaval/custom_selections.hpp:58-65 | succeeds iff every selection names a valid statistics group |
| CustomSelections.ValidateMarkerResults | inst/include/kanaval/custom_selections.hpp:51-67 | succeeds iff `results/markers` has as many children as there are selections and every selection names a valid statistics group there |
| CustomSelections.MarkersFailureNamesSelection | inst/include/kanaval/custom_selections.hpp:58-65 | the error is that of the first failing selection, under that selection's frame |
| CustomSelections.CheckModalities | inst/include/kanaval/custom_selections.hpp:79-86 | succeeds iff each modality's group is valid for its own feature count |
| CustomSelections.ModalityFailureNamesModality | inst/include/kanaval/custom_selections.hpp:79-86 | the error is that of the first failing modality, under that modality's frame |
| CustomSelections.SelectionPerModality | inst/include/kanaval/custom_selections.hpp:77-86 | a selection's group exists and holds a valid group per modality |
| CustomSelections.CheckPerSelection | inst/include/kanaval/custom_selections.hpp:76-90 | succeeds iff every selection's per-modality groups are valid |
| CustomSelections.PerSelectionFailureNamesSelection | inst/include/kanaval/custom_selections.hpp:76-90 | the error is that of the first failing selection, under that selection's frame |
| CustomSelections.ValidatePerSelectionResults | inst/include/kanaval/custom_selections.hpp:69-92 | succeeds iff `results/per_selection` has as many children as there are selections and every selection names a group holding a valid statistics group per modality, for that modality's feature count |
| CustomSelections.MarkersAreTheSelections | inst/include/kanaval/custom_selections.hpp:54-64 | with distinct selection names, a passing `markers` group has exactly the selections as child names, each once |
| CustomSelections.PerSelectionAreTheSelections | inst/include/kanaval/custom_selections.hpp:72-90 | with distinct selection names, a passing `per_selection` group has exactly the selections as child names, each once |
| CustomSelections.Validate | inst/include/kanaval/custom_selections.hpp:149-170 | succeeds iff the parameters are valid and the results cover the returned selection names: from 2.0 in the per-selection, per-modality layout with each modality's own feature count, before 2.0 in the `markers` layout with the first feature count, whatever the modalities; a parameters failure carries the parameters frame, a later failure the results frame |
| CustomSelections.SelectionBounds | inst/include/kanaval/custom_selections.hpp:31-36 | index `num_cells - 1` passes; `num_cells` and -1 fail |
| CombineEmbeddings.CheckWeights | inst/include/kanaval/combine_embeddings.hpp:27-31 | succeeds iff every modality has a float scalar weight |
| CombineEmbeddings.ValidateParameters | inst/include/kanaval/combine_embeddings.hpp:22-34 | succeeds iff `approximate` is an integer scalar and `weights` is a group that is either empty or weighs every modality |
| CombineEmbeddings.ValidateResults | inst/include/kanaval/combine_embeddings.hpp:36-45 | succeeds iff `results` exists and, with more than one modality, `combined` is a float dataset of shape `[num_cells, total_dims]` |
| CombineEmbeddings.Validate | inst/include/kanaval/combine_embeddings.hpp:86-106 | before 2.0 it succeeds without looking at the file; from 2.0 it succeeds iff parameters and results are valid; each failing phase carries its frame |
| CombineEmbeddings.SingleModalityNeedsNoCombined | inst/include/kanaval/combine_embeddings.hpp:39-42 | with one modality the results need only the `results` group |

## Left out

- The HDF5 access layer and `utils.hpp` are not part of this model. Opening
  groups and datasets and loading scalars and vectors are total functions
  over `Node` in `Containers`. The checks they make (existence, kind, type
  tag, rank, shape) come from how the validators use them.
- Error text: `combine_errors` formatting is not modelled. An error is its
  innermost message plus the list of frames prepended by the enclosing
  layers. The accessor messages in `Containers` are placeholders.
- Float payloads are never read. Only the type tag and shape of float
  datasets are checked.
- Byte-level reading of embedded files. Only the `offset`/`size` metadata is
  validated.
- Hash containers: `unordered_set` is a `set`, `unordered_map` a `map`, and
  the `unsigned char` bitmap an `array<bool>`.
- Integer widths: the model does not capture 32-bit overflow. This covers
  `std::accumulate` over `sample_groups`, the `int` record cursor, the
  unsigned running byte sum, and `size_t` casts of negative counts.
  Integers are unbounded. A negative expected length matches no dataset,
  just as its wrapped `size_t` value would match none in practice.
- Orchestration across steps: each validator takes its context (`num_cells`,
  `modalities`, `num_features`, `total_dims`) as parameters.
- Inputs.ReadRecordFields: the source loads the embedded `offset` and
  `size` as unsigned 64-bit values through the HDF5 access layer, which is
  not part of this model. How that conversion treats a negative stored
  value is not modelled; the model reads such a value as unreadable.
- Unique child names: HDF5 never gives two children of one group the same
  name, but `Node` does not enforce this. So
  `CustomSelections.MarkersAreTheSelections` and
  `CustomSelections.PerSelectionAreTheSelections` take distinct selection
  names as a hypothesis.
- Pca.Validate: the default argument `version = 1001000` is not modelled,
  so callers pass the version explicitly.
- CustomSelections.Validate: requires a feature count for every modality
  from 2.0 and at least one count before it. The source indexes
  `num_features` without checking, so shorter vectors are undefined
  behaviour there.
