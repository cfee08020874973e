# mf6adj forward-side bookkeeping, modelled in Dafny

`mf6adj` computes adjoint sensitivities for MODFLOW 6 groundwater-flow (GWF)
models. Before any adjoint arithmetic runs, the `Mf6Adj` class does the
following:

- reads the simulation name file `mfsim.nam` to find the flow model;
- reads the model's GWF name file to register its boundary packages, and
  gives every package without an explicit name an automatic one;
- reads the adjoint input file, which holds an optional `options` block and
  one or more `performance_measure` blocks. Each entry line is checked and
  turned into a record: zero-based stress period and time step, a cell
  resolved to a (possibly reduced) node number, a type, a form, a weight and
  an observed value;
- runs the forward solution time step by time step. It counts solver calls
  and non-converged steps, refuses a stress period / time step pair seen
  twice, and records the times and step counters. It writes one uniquely
  named solution group per step to an HDF5 store, then an `aux` group and a
  `gwf_info` group.

This project models those parts and proves what they promise.

| file | module | what it holds |
|---|---|---|
| `wrappers.dfy` | `Wrappers` | `Option`, `Result` |
| `pytext.dfy` | `PyText` | Python's `strip`, `lower`, `split`, `startswith`, `in`, `replace`, and `split(c)[0]` on strings |
| `decimal.dfy` | `Decimal` | `str(n)`, `"{0:05d}"`, and `int()` on a token of an optional sign and ASCII digits |
| `nodes.dfy` | `NodeIndex` | the unstructured node formula and the reduced-node lookup |
| `adjspec.dfy` | `AdjSpec` | records, measures, error kinds, and the reading of the adjoint file as functions |
| `adjreader.dfy` | `AdjReader` | class `Mf6Adj`, which reads the adjoint file with the source's nested loops |
| `adjlemmas.dfy` | `AdjLemmas` | what the adjoint-file reader guarantees |
| `namfiles.dfy` | `NameFiles` | the `mfsim.nam` models block and the GWF `packages` block |
| `snapshot.dfy` | `Snapshot` | the HDF5 store's group names and the duplicate-group refusal |
| `driver.dfy` | `ForwardDriver` | the `solve_gwf` loop over an abstract solver |

Reading a file is modelled on a `seq<string>` of lines without their line
terminators, and end of file is reached when the cursor passes the last line.
The line counter `count` is the number of `readline` calls made, including
the one that meets end of file. Errors carry a kind and, for the adjoint
file, the value of `count` where they were raised.

The MODFLOW 6 library is modelled as inputs:
- the grid facts `NODEUSER` and `NCPL`, the grid shape, and `get_node` are
  fields of an `AdjConfig`;
- the solver is a `Session`: a start time, an end time, `MXITER`, and a
  trace of steps. Each step has its `KPER`/`KSTP` counters, a per-iteration
  convergence oracle, and the time and step length that follow it.

Behaviour follows the code where the code and its documentation differ:
- Inside a `performance_measure` block, the blank-or-comment skip tests the
  block's `begin` line, not the line just read (`mf6adj/adj.py:187`). So a
  blank or comment line inside a block reaches the item-count check and is
  rejected. `AdjLemmas.BlockRejectsBlankOrComment` proves this.
- The reduced-node lookup is applied only when the user-node table holds
  more than one entry (`mf6adj/adj.py:225`, `249`).
- The error raised when a node is missing from the reduced-node table names
  an undefined variable (`mf6adj/adj.py:228`, `231`, `252`), so in Python it
  fails with a different exception. It is modelled as the error
  `NodeNotReduced`.
- `max_iter <= 0` leaves `convg` unbound on the first step (an
  `UnboundLocalError`). This is modelled as the error `ConvergenceUnset`.
- `solve_gwf` calls `PerfMeas.write_group_to_hdf`. That file is not part of
  this model. The group check used is the one of
  `Mf6Adj.write_group_to_hdf` in `mf6adj/adj.py`.

## Model

| member | source | states |
|---|---|---|
| AdjReader.Mf6Adj.constructor | mf6adj/adj.py:74 | a new reader holds no performance measure and no HDF5 name |
| AdjReader.Mf6Adj.ReadAdjFile | mf6adj/adj.py:118-284 | the measures list is cleared, the file is read line by line with a running count, and the measures, HDF5 name and error left are those of `AdjSpec.ReadAdj` |
| AdjReader.Mf6Adj.ReadOptions | mf6adj/adj.py:150-166 | the options loop ends where `AdjSpec.ParseOptions` ends, with its error and its `hdf5_name` |
| AdjReader.Mf6Adj.ReadBlock | mf6adj/adj.py:179-259 | the performance-measure loop collects the entries and stops as `AdjSpec.ParseBlock` does |
| AdjReader.Mf6Adj.ReadMeasure | mf6adj/adj.py:170-279 | a measure block (header check, entries, per-block checks) gives what `AdjSpec.MeasureBlock` gives |
| AdjReader.Mf6Adj.EntryFromTokens | mf6adj/adj.py:201-259 | one entry line gives the record or error of `AdjSpec.EntryOfTokens` |
| AdjReader.Mf6Adj.LocateStructured | mf6adj/adj.py:213-233 | the `k, i, j` loop with its casts and the node lookup agrees with `AdjSpec.StructuredLocation` |
| AdjReader.Mf6Adj.LocateUnstructured | mf6adj/adj.py:235-253 | the layer/node casts, the node formula and the node lookup agree with `AdjSpec.UnstructuredLocation` |
| AdjReader.Mf6Adj.ReadLine | mf6adj/adj.py:139-146 | the line just read is looked at through its stripped, lower-cased tokens |
| AdjSpec.NUser | mf6adj/adj.py:121-123 | the user-node table is `NODEUSER` less one, entry by entry |
| AdjSpec.ParseBlock | mf6adj/adj.py:181-259 | a block read without error ends after its start, within the file |
| AdjSpec.ParseOptions | mf6adj/adj.py:150-166 | an options block read without error ends after its start, within the file |
| AdjSpec.MeasureBlock | mf6adj/adj.py:170-279 | an accepted measure block ends after its header, within the file |
| AdjLemmas.EntryItemCountChecked | mf6adj/adj.py:201-209 | an entry line is rejected for its item count exactly when it has not 9 tokens (structured) or 8 (unstructured) |
| AdjLemmas.EntryTimeIndexChecked | mf6adj/adj.py:210-211 | with the right count, the entry fails for its time index exactly when the stress period or time step token is not an integer |
| AdjLemmas.EntryCoordinateChecked | mf6adj/adj.py:214-244 | with integer times, it fails for a coordinate exactly when one of the `k, i, j` (or layer, node) tokens is not an integer |
| AdjLemmas.EntryFields | mf6adj/adj.py:210-259 | an accepted record has the file's stress period and time step less one, the last two tokens as obsval and weight, and the two before as form and type |
| AdjLemmas.StructuredEntryCell | mf6adj/adj.py:214-233 | a structured record has `k, i, j` equal to the file's values less one, and its node is `get_node(k, i, j)`, reduced when the table has more than one entry |
| AdjLemmas.UnstructuredEntryCell | mf6adj/adj.py:235-253 | an unstructured record has `k` equal to the layer less one, and its node is `ncpl*(lay-1)+node-1`, reduced when the table has more than one entry |
| AdjLemmas.LocationNotReduced | mf6adj/adj.py:225-253 | the cell's location fails exactly when the table has more than one entry and the user node is not in it exactly once |
| AdjLemmas.BlockSkipNeverFires | mf6adj/adj.py:187 | the skip inside a block tests the `begin performance_measure` line, which is never blank or a comment |
| AdjLemmas.SkippedLineView | mf6adj/adj.py:146 | a blank or comment line has no token or a first token starting with `#`, and starts no keyword |
| AdjLemmas.CommentTokensRejected | mf6adj/adj.py:201-209 | a line with no token, or whose first token starts with `#`, is never an entry |
| AdjLemmas.BlockRejectsBlankOrComment | mf6adj/adj.py:187-209 | a blank or comment line inside a block makes the block fail |
| AdjLemmas.BlockReadsEntries | mf6adj/adj.py:181-259 | a block read without error ends on its `end performance_measure` line, and its entries are the records of exactly the lines in between, in order |
| AdjLemmas.BlockAcceptsEntries | mf6adj/adj.py:181-259 | conversely, lines that are all accepted entries up to an `end performance_measure` line are read as a block ending there, with their records appended in order |
| AdjLemmas.EntryLineNoKeyword | mf6adj/adj.py:189-209 | an accepted entry line starts with a sign or a digit, so it starts with none of `begin`, `end performance_measure` and `open` |
| AdjLemmas.BlockStopsAtBeginOrOpen | mf6adj/adj.py:189-199 | a `begin` line or an `open` line inside a block stops it with an error |
| AdjLemmas.BlockStopsAtEof | mf6adj/adj.py:185-186 | a block that reaches the end of the file fails |
| AdjLemmas.TypesOfMembers | mf6adj/adj.py:262 | the set of types is exactly the types of the entries |
| AdjLemmas.FormsOfMembers | mf6adj/adj.py:267 | the set of forms is exactly the forms of the entries |
| AdjLemmas.TypesOfUniform | mf6adj/adj.py:262-266 | at most one type in the set means all entries share the first entry's type |
| AdjLemmas.FormsOfUniform | mf6adj/adj.py:267-271 | at most one form in the set means all entries share the first entry's form |
| AdjLemmas.CheckMeasureAccepts | mf6adj/adj.py:260-279 | a block becomes a measure exactly when it has entries of one type and one form, a non-head type is in direct form, and its name is new; the measure is the name and the entries |
| AdjLemmas.SplitLower | mf6adj/adj.py:163-164 | lower-casing and then splitting gives the tokens as written, each lower-cased |
| AdjLemmas.WordsOfView | mf6adj/adj.py:163-164 | the lower-cased tokens of a line are its tokens as written, lower-cased |
| AdjLemmas.Hdf5NameKeepsCase | mf6adj/adj.py:163-164 | `hdf5_name` takes the second token as written, not lower-cased, and the block goes on |
| AdjLemmas.OptionsStops | mf6adj/adj.py:159-166 | a nested `begin`, an `hdf5_name` line with no value, or an unknown option stops the options block with an error |
| AdjLemmas.OptionsStopsAtEof | mf6adj/adj.py:155-156 | an options block that reaches the end of the file fails |
| AdjLemmas.OptionsEndLine | mf6adj/adj.py:161-162 | an options block read without error ends on an `end options` line |
| AdjLemmas.OptionsNameSource | mf6adj/adj.py:163-164 | the HDF5 name after an options block is the one held before, or the value as written of one of its `hdf5_name` lines |
| AdjLemmas.LowerIsLowerCase | mf6adj/adj.py:177 | a lower-cased name holds no upper-case letter |
| AdjLemmas.TopStops | mf6adj/adj.py:170-175 | an unrecognised top-level line, or a measure header without exactly three tokens, stops the reader and keeps the measures |
| AdjLemmas.MeasureBlockAccepts | mf6adj/adj.py:170-279 | an accepted measure has a three-token header, the lower-cased third token as its name, is well formed, and has a name no earlier measure has |
| AdjLemmas.ParseTopValid | mf6adj/adj.py:136-284 | reading keeps every measure well formed and all names distinct, keeps the earlier measures, and ends without error only with at least one measure |
| AdjLemmas.ReadAdjValid | mf6adj/adj.py:118-284 | the whole read leaves well-formed measures with distinct names whatever the file, and reports no error only with at least one measure |
| AdjLemmas.HeadersAll | mf6adj/adj.py:170 | the header positions of a range are exactly its `begin performance_measure` lines, in increasing order |
| AdjLemmas.HeaderLine | mf6adj/adj.py:170 | a line is a measure header exactly when its lower-cased, stripped text starts with `begin performance_measure` |
| AdjLemmas.ParseTopMeasures | mf6adj/adj.py:136-281 | a read without error appends to the measures so far exactly the measures of the header lines from the current line on, one per header, in file order |
| AdjLemmas.MeasuresOfShape | mf6adj/adj.py:170-279 | the measures read from a list of headers are one per header; the k-th has a three-token header, the lower-cased third token as its name, is well formed, and its entries are the records of the lines between its header and its `end performance_measure` line |
| AdjLemmas.ReadAdjMeasures | mf6adj/adj.py:118-284 | a read without error holds one measure per `begin performance_measure` line of the file, in order; the k-th is named by the k-th header's third token, lower-cased, and holds the records of that block's lines |
| AdjLemmas.ReadAdjAccepts | mf6adj/adj.py:118-284 | a file made of one or more blocks, each with a three-item header, accepted entry lines up to its `end` line and passing the per-measure checks, with only blank or comment lines around them, is read without error and gives exactly those measures in order |
| NodeIndex.Positions | mf6adj/adj.py:226 | `np.where(nuser == v)` lists, in increasing order, exactly the positions holding `v` |
| NodeIndex.ReduceNodeReduced | mf6adj/adj.py:225-233 | with more than one user node, the reduced node is `p` exactly when `p` is the only position holding the user node |
| NodeIndex.ReduceNodeFails | mf6adj/adj.py:249-252 | with more than one user node, the lookup fails exactly when the node is held nowhere or at two or more positions |
| NodeIndex.ReduceNodeIdentity | mf6adj/adj.py:225 | with at most one user node the node is kept unchanged |
| NodeIndex.UnstructuredNodeInverse | mf6adj/adj.py:246 | for a node within a layer, `ncpl*(lay-1)+node-1` gives back the layer and the node by division and remainder |
| Decimal.ParseIntOfDigits | mf6adj/adj.py:210 | `int()` reads back the decimal digits of any non-negative number |
| Decimal.ValueOfPad5 | mf6adj/adj.py:790 | the zero-padded number in a group name reads back as the number |
| NameFiles.GetModelNamesFromMfsim | mf6adj/adj.py:300-323 | the models block is found and read as `ScanModels` reads the views of the lines: EOF before or in the block, a duplicate last item and a short line are errors; `ModelsReadExactly`, `ModelsContents` and `ModelsDuplicate` say what that reading gives |
| NameFiles.ReadModelsLine | mf6adj/adj.py:307-312 | a line read is seen through whether it opens or closes a models block and its `strip().lower().split()` items |
| NameFiles.ModelLineKeys | mf6adj/adj.py:317-321 | a models line adds its third item as a model, under the same key in both tables; a three-item line never replaces a model |
| NameFiles.ModelsBlockKeys | mf6adj/adj.py:311-321 | the rest of a models block keeps both tables keyed alike and only adds models |
| NameFiles.ModelTablesAgree | mf6adj/adj.py:303-323 | every model read has both a type and a name file |
| NameFiles.ModelsReadExactly | mf6adj/adj.py:305-322 | `mfsim.nam` is read without error exactly when its first `begin ... models` line is followed by an `end ... models` line and every line between has at least three items and a last item naming no model read before it |
| NameFiles.ModelsContents | mf6adj/adj.py:289-323 | a models block read without error gives tables that hold exactly the models of its lines |
| NameFiles.EnteredHoldsModels | mf6adj/adj.py:317-321 | the models are exactly the third items of the block's lines, both tables have the same keys, and the last line naming a model gives its type (first item) and its name file (second item) |
| NameFiles.EnteredValues | mf6adj/adj.py:320-321 | a line that no later line renames sets its model's type to its first item and its name file to its second |
| NameFiles.ModelNamesHas | mf6adj/adj.py:320 | a name is a model name of some lines exactly when one of them has it as its third item |
| NameFiles.ModelsDuplicate | mf6adj/adj.py:316-319 | the read fails with a duplicate `name` exactly when a line of the first models block, after lines read without error, ends with `name` and `name` is already a model |
| NameFiles.GetPackageNamesFromGwfname | mf6adj/adj.py:340-377 | the first packages block is found and read, and the result is the registry `RegisterAll` builds from its package lines |
| NameFiles.ReadPackagesBlock | mf6adj/adj.py:348-376 | the block loop collects the package lines as `ScanPackagesBlock` does and registers them in order |
| NameFiles.ReadPackageLine | mf6adj/adj.py:354-370 | a line whose first token starts with `#` is passed over, an inline comment is cut off, and fewer than two items is an error |
| NameFiles.PackageLineBlank | mf6adj/adj.py:353-354 | a line fails for want of a first item exactly when it is blank |
| NameFiles.PackageLineComment | mf6adj/adj.py:353-355 | a line is passed over exactly when its stripped text starts with `#` |
| NameFiles.PackageLineItems | mf6adj/adj.py:356-369 | for any other line, the items are the lower-cased words before the first `#`; fewer than two is an error, and otherwise the type, file name and optional tag are the first three items |
| NameFiles.RecordPackage | mf6adj/adj.py:361-374 | the count and package maps are updated by one `Register` step |
| NameFiles.RegistryByType | mf6adj/adj.py:361-374 | a type is registered exactly when some line declares it; its names are its lines' names in file order, the m-th unnamed one being auto-named with ordinal m+1, tagged or not; its counter is one past its line count |
| NameFiles.AutoNameInjective | mf6adj/adj.py:372 | two auto-names of one package type are equal only for the same ordinal |
| NameFiles.AutoNamesDistinct | mf6adj/adj.py:371-374 | two unnamed packages of the same type get different names |
| NameFiles.OfTypeOfType | mf6adj/adj.py:364-369 | the lines picked out for a type all have that type |
| Snapshot.SnapshotStore.constructor | mf6adj/adj.py:434-436 | the store is opened for writing and holds no group |
| Snapshot.SnapshotStore.WriteGroup | mf6adj/adj.py:395-397 | a name already in the store is refused and the store is unchanged; any other is added as a new group |
| Snapshot.GroupNameInjective | mf6adj/adj.py:790 | two time steps share a group name exactly when they have the same stress period and time step |
| Snapshot.SameGroupSamePair | mf6adj/adj.py:790 | a group name gives back its stress period and time step |
| Snapshot.GroupNamesAt | mf6adj/adj.py:790 | the m-th solution group is named after the m-th pair |
| Snapshot.GroupNamesHas | mf6adj/adj.py:709-711 | a pair's group is among the written groups exactly when the pair was visited |
| Snapshot.GroupNamesNotReserved | mf6adj/adj.py:802-803 | no solution group is named `aux` or `gwf_info` |
| Snapshot.GroupNameNotReserved | mf6adj/adj.py:790 | a solution group name is neither `aux` nor `gwf_info` |
| ForwardDriver.SolveStep | mf6adj/adj.py:676-685 | the solve loop makes the calls and leaves the flag that `Iterate` gives |
| ForwardDriver.IterateMeaning | mf6adj/adj.py:676-685 | at most MXITER calls; the loop stops at the first call that converges; the flag is set to converged exactly when some call within the budget converges; with no budget nothing changes |
| ForwardDriver.IterateConverges | mf6adj/adj.py:676-693 | with a positive budget the flag is set, to converged exactly when a call within the budget converges |
| ForwardDriver.TimeStep | mf6adj/adj.py:637-791 | one time step: solve, count a failure, append the four sequences, check `visited`, write the solution group; the store's groups are those `TakeStep` gives |
| ForwardDriver.SolveGwf | mf6adj/adj.py:604-803 | the run opens an empty store, steps while the time is before the end, then writes `aux` and `gwf_info`; its state, groups and error are those `Drive` gives |
| ForwardDriver.WriteFinalGroups | mf6adj/adj.py:802-803 | after the last step the store gains `aux` and then `gwf_info`, and the run ends with the error of the first of the two writes refused, as `Finish` gives |
| ForwardDriver.TakeStepAfter | mf6adj/adj.py:686-791 | a step stops exactly when its pair was visited before, then with one more entry in each sequence than there are groups; otherwise the bookkeeping extends by the step |
| ForwardDriver.AfterExtend | mf6adj/adj.py:686-791 | a step that converges or not, on a new pair, adds one failure only when no call converged, one entry to each sequence, the pair and its group |
| ForwardDriver.FinishAfter | mf6adj/adj.py:802-803 | after the last step `aux` and then `gwf_info` are written, and neither is refused |
| ForwardDriver.DriveFrom | mf6adj/adj.py:634-803 | from any point of the run: it completes exactly when the remaining pairs are new; a revisit is the only error; a completed run holds one group per step, then `aux` and `gwf_info` |
| ForwardDriver.RunBookkeeping | mf6adj/adj.py:615-803 | the run completes exactly when no pair repeats; the four sequences have one entry per solution group, in step order; `kpers`/`kstps` are the counters less one; `num_fails` counts the steps that never converged |
| ForwardDriver.RunWithoutBudget | mf6adj/adj.py:676-687 | with MXITER at most zero the first step fails with the flag unset, before anything is written |

## Left out

- ForwardDriver.SolveGwf: the `gwf is None` check at the start of
  `solve_gwf` (mf6adj/adj.py:599-600), which raises when no flow model
  session is open, is not modelled. The driver is always given a session
  (a trace of solver steps), so that error path does not arise.
- The MODFLOW 6 shared library (`modflowapi`) is not called. The solver is
  a trace of steps with a per-iteration convergence oracle.
  `ForwardDriver.Consistent` states how the times in the trace agree with
  the end time.
- What the HDF5 groups hold: matrices, heads, conductances, saturation,
  package arrays and attributes. Only the group names, their order and the
  duplicate refusal are modelled. The store file's name, including the
  timestamped default, is not modelled, and neither is the removal of an
  existing file.
- `_add_gwf_info_to_hdf` is modelled only as the write of its `gwf_info`
  group.
- `dresdss_h`, `drhsdh` and the storage flag are floating-point array
  numerics.
- `_perturbation_test` and the perturbation options of `solve_gwf`
  (`_force_k_update`, `_sp_pert_dict`, `pert_save`) re-run the solver and
  difference floating-point results.
- The `sfr6` stage substitution is left out.
- `solve_adjoint`, `PerfMeas`, `PerfMeasRecord` and `PerfMeas.get_node` live
  in `mf6adj/pm.py`, which is not part of this model. `get_node` is a given
  function of the grid shape and `k, i, j`.
- `float()` on the weight and observed value is a given partial function
  (`AdjConfig.toFloat`). Floating-point parsing is not modelled.
- `os.path.exists` checks, the `open` line's external-file check (the line
  fails either way), timing and printing are left out. Error messages are
  reduced to their kinds.
- The constructor's choice of the single `gwf6` model, the structured-grid
  test (`dis6` registered) and the reading of grid sizes are not modelled.
  The grid kind and sizes are fields of `AdjConfig`.
- The `hdf5_name` argument of `solve_gwf` is not modelled. The store is
  named by the caller.
- Python's `lower()` and `isspace()` are modelled on ASCII letters and
  Python's whitespace set. Unicode case mapping is not modelled.
- Decimal.ParseInt: accepts only an optional sign followed by ASCII
  digits. Python's `int()` also accepts underscores between digits and
  non-ASCII decimal digits; the model rejects such tokens as a bad time
  index or a bad coordinate.
- ForwardDriver.SolverStep: the KPER and KSTP the solver reports are taken
  to be at least 1 (the `Counter` type), as the solver numbers stress
  periods and time steps from one. Zero or negative values are not
  modelled.
- Integers are unbounded. NumPy's integer width plays no part in the
  modelled indices.
