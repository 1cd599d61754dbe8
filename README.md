# Parcel map update pipeline — a Dafny model

This project models `updateMap(updates)` of `map/update.js`, the batch job that keeps
the parcel map's three stored sources current:
- the master index of parcels keyed by parcel number;
- the base feature collection;
- the master feature collection.

For one batch of owner/property updates the job:

1. loads each source and rotates it into a backup slot (`loadAndBackupJson`);
2. classifies every update as verified or rejected;
3. records layer and feature-property schema drift in a history entry;
4. merges the updates into the index (`mergeParcelProperties`);
5. rebuilds the index, both collections and every layer's bin statistics;
6. writes the five output files and appends the history entry to `history.jsonl`.

When a write fails, the job takes a failure path instead. It records which required files exist in none of their directories, and appends the history with a failure item.

The modules follow the file's structure:

| module | file | what it holds |
|---|---|---|
| `JsValues` | `js_values.dfy` | the JavaScript scalar values the job reads (`undefined`, `null`, numbers, `NaN`, strings), truthiness, `String()`, `trim()` and the bin-validity test |
| `Seqs` | `seqs.dfy` | sub-sequences, first-occurrence de-duplication (`[...new Set(xs)]`), counting maps and enumerations |
| `Records` | `records.dfy` | layer declarations, index features, loaded collections, missing-file records |
| `Merge` | `merge.dfy` | `mergeParcelProperties` |
| `Diff` | `diff.dfy` | `diffLayers` and `diffFeatureProperties` |
| `HistoryLog` | `history.dfy` | the `History` object and the entries the job pushes onto it |
| `Index` | `master_index.dfy` | the `MasterIndex` object: the merge loop and the rebuilt index |
| `LayerStats` | `layer_stats.dfy` | the `Layer` object: per-parcel binning, range expansion and finishing |
| `Backup` | `backup.dfy` | the file store, `loadAndBackupJson`, `writeJsonFile`, `appendJsonLine` and the missing-file check |
| `Pipeline` | `pipeline.dfy` | `updateMap` end to end |

How the model stands in for what the job cannot see:
- The file system is a `Store` object whose field is a map from `Path(dir, name)` to text.
- The directories of lines 25-33 are constants relative to the repository root. `master_index` serves as both its backup and its production directory.
- Everything `updateMap` calls but `map/update.js` does not define is a field of `Pipeline.Env`:
  - `JSON.parse` and `JSON.stringify`;
  - `History.validator` and its error text;
  - `FeatureCollection.getBaseLayers` and `getMasterLayers`;
  - the three feature constructors;
  - `Layer.generateBins` and `Layer.buildLayerFormulas`;
  - whether the file system accepts a write, and the message it fails with.
- Where the code departs from the job's stated design:
  - a rejected update is meant to leave the index alone, yet the merge loop applies it. The model keeps the loop as written (`Index.MergedAsWritten`, `Index.MasterIndex.MergeUpdatesAsWritten`) beside the corrected loop (`Index.MergedVerified`, `Index.MasterIndex.MergeUpdates`). `Pipeline` runs the corrected one (see Findings);
  - the master collection is written without its finished layers. The model keeps that form as `Pipeline.MasterCollectionAsWritten`, and `Pipeline` writes the collection with its layers (see Findings);
  - a batch whose updates are all rejected is meant to be a no-op, yet every rejection is a history item, so the early return at lines 97-101 is never taken for a non-empty batch and all five files are written (`HistoryLog.NonEmptyBatchIsLogged`, `Pipeline.BuildHistory`).

## Model

| member | source | states |
|---|---|---|
| `JsValues.Truthy` | map/update.js:362 | defines JavaScript truthiness: `undefined`, `null`, `false`, `0`, `NaN` and `""` are falsy, everything else is truthy |
| `JsValues.ToString` | map/update.js:170 | defines `String(v)`, the form a value takes as an object key or in a template literal |
| `JsValues.NatToString` | map/update.js:170 | the decimal form of a parcel number is non-empty and made of digits only |
| `JsValues.NatToStringRoundTrip` | map/update.js:170 | reading the decimal form back digit by digit gives the number, and only 0 is written with a leading zero |
| `JsValues.NatToStringInjective` | map/update.js:170 | two natural numbers with the same decimal form are equal |
| `JsValues.NumToStringInjective` | map/update.js:170 | two integers with the same `String()` form are equal, so different numeric parcel numbers are filed under different index keys |
| `JsValues.NumberOf` | map/update.js:188 | defines `Number(s)` for the strings it reads as an integer: surrounding white space ignored, a blank string read as 0, an optionally signed run of digits read as its value |
| `JsValues.NumberOfToString` | map/update.js:188 | `Number(String(n))` is `n` for every integer |
| `JsValues.TrimStart` | map/update.js:126 | the result does not begin with JavaScript white space |
| `JsValues.TrimEnd` | map/update.js:126 | the result does not end with JavaScript white space |
| `JsValues.TrimStartEmptyIff` | map/update.js:126 | trimming the front leaves nothing exactly when the string is all white space |
| `JsValues.TrimEndEmptyIff` | map/update.js:126 | trimming the end leaves nothing exactly when the string is all white space |
| `JsValues.TrimStartKeepsLast` | map/update.js:126 | a front trim that leaves something keeps the string's last character |
| `JsValues.TrimStartIsSuffix` | map/update.js:126 | a front trim keeps a suffix of the string and drops only white space; with `JsValues.TrimStart` this is exactly the removal of the leading white space |
| `JsValues.TrimEndIsPrefix` | map/update.js:126 | an end trim keeps a prefix of the string and drops only white space; with `JsValues.TrimEnd` this is exactly the removal of the trailing white space |
| `JsValues.TrimEmptyIffBlank` | map/update.js:126 | `value.trim() !== ''` holds exactly when the string has a non-space character |
| `JsValues.IsValid` | map/update.js:126 | defines the bin-validity test: a string that is not blank after trimming, or a number other than `NaN` |
| `JsValues.ValidMeans` | map/update.js:126 | a value is binned exactly when it is a number or a string with a non-space character; a valid string is truthy |
| `Seqs.Dedup` | map/update.js:292-296 | the set-of-keys spread keeps every element, adds none, repeats none and keeps the input's order |
| `Seqs.DedupKeepsFirstOccurrenceOrder` | map/update.js:292-296 | of two elements of the result, the earlier one first occurs in the input before the later one does; with `Seqs.Dedup` this fixes the result completely |
| `Merge.Pick` | map/update.js:362 | defines the per-key choice `newVal ? newVal : (oldVal ? oldVal : null)` |
| `Merge.MergedProps` | map/update.js:352-366 | the merged record has exactly the keys of both records; a truthy new value wins, otherwise a truthy old value stays, otherwise the key holds `null` |
| `Merge.MergeParcelProperties` | map/update.js:352-366 | the loop over the key union builds exactly the merged record |
| `Merge.MergedPropsUnique` | map/update.js:356-363 | any record over the union of keys that picks per key as line 362 does is the merged record |
| `Merge.MergedValuesTruthyOrNull` | map/update.js:362 | every merged value is truthy or `null`: the merge never stores `undefined`, `0`, `false` or an empty string |
| `Merge.UpdateCannotClear` | map/update.js:362 | an update cannot clear a truthy stored value by sending a falsy one |
| `Merge.MergeIdempotent` | map/update.js:352-366 | merging the same update twice gives what merging it once gives |
| `Merge.OwnerScenario` | map/update.js:352-366 | merging `{parcelNum "123", owner "Smith"}` into `{parcelNum "123", owner "Doe"}` gives owner "Smith" |
| `Diff.LayersWithoutKeys` | map/update.js:280-281 | the filter keeps, in order and with multiplicity, exactly the layers whose key is not excluded |
| `Diff.DiffLayers` | map/update.js:276-284 | a layer is removed exactly when it is old and its key is not new, and added exactly when it is new and its key is not old; both lists keep order and multiplicity |
| `Diff.NoLayerDriftIff` | map/update.js:276-284 | no layer is reported exactly when the old and new declarations have the same key set |
| `Diff.LayersWithoutNoKeys` | map/update.js:280-281 | filtering by an empty key set keeps every layer |
| `Diff.EmptyLayersReportAllAdded` | map/update.js:76-82 | against a collection with no layers, every declared layer is reported as added and none as removed |
| `Diff.NoDriftAgainstItself` | map/update.js:276-284 | a declaration list diffed against itself reports nothing |
| `Diff.KeysWithout` | map/update.js:295-296 | the filter keeps exactly the keys not excluded, in order, without adding duplicates |
| `Diff.KeysWithoutEmptyIff` | map/update.js:295-296 | nothing survives the filter exactly when every key is excluded |
| `Diff.DiffFeatureProperties` | map/update.js:286-299 | with a feature missing nothing is reported; otherwise a name is removed exactly when only the old feature has it and added exactly when only the new one has it; each list is in first-occurrence order and repeats no name |
| `Diff.NoPropertyDriftIff` | map/update.js:286-299 | two present features report no drift exactly when they have the same property names |
| `HistoryLog.ParcelKey` | map/update.js:61 | defines the index key an update names: `String(update.parcelNum)` |
| `HistoryLog.Accepted` | map/update.js:61 | defines the line 61 test: the validator passes the update and its parcel number is a key of the index |
| `HistoryLog.VerifiedEntry` | map/update.js:62-63 | defines the verified item: name `Parcel: <parcelNum>`, type `Property`, action `verified`, the update as its item |
| `HistoryLog.RejectedEntry` | map/update.js:66-69 | defines the rejected item: name `Parcel: <parcelNum>` or `Parcel: unknown` for a falsy number, action `rejected`, and the validator's errors or the not-in-index note as details |
| `HistoryLog.AcceptedOf` | map/update.js:60-64 | the verified updates: each passed the validator and names an indexed parcel; batch order is kept |
| `HistoryLog.RejectedOf` | map/update.js:65-71 | the rejected updates: each failed the validator or names no indexed parcel; batch order is kept |
| `HistoryLog.LogsSnoc` | map/update.js:60-72 | one more update adds exactly one item, to the end of the verified log if accepted and of the rejected log otherwise |
| `HistoryLog.ClassificationPartition` | map/update.js:60-72 | verified and rejected updates together are the batch as a multiset, and each update lands on the side its test chooses |
| `HistoryLog.NonEmptyBatchIsLogged` | map/update.js:60-101 | a non-empty batch yields one history item per update, so the no-change return is never reached |
| `HistoryLog.UnknownParcelScenario` | map/update.js:65-69 | an update that passes the validator but names a parcel outside the index is rejected with "Parcel: 999" and the detail "Likely: Parcel Num not in Master Idx" |
| `HistoryLog.Names` | map/update.js:79-82 | layer change items list the layers' display names, one per layer, in order |
| `HistoryLog.LayerChangeLog` | map/update.js:78-83 | at most four layer change items, none exactly when neither collection has layer drift |
| `HistoryLog.PropertyChangeLog` | map/update.js:89-94 | at most four property change items, none exactly when neither collection has property drift |
| `HistoryLog.History.constructor` | map/update.js:55 | a new history holds the three source ids and five empty lists |
| `HistoryLog.History.Record` | map/update.js:61-70 | one update is appended to exactly one of the two lists, by the line 61 test; the other lists are unchanged |
| `HistoryLog.History.Classify` | map/update.js:60-72 | the two lists grow by the whole batch's verified and rejected logs; the other lists are unchanged |
| `HistoryLog.History.LogSchemaChanges` | map/update.js:78-94 | the layer and property change lists grow by the drift items; the other lists are unchanged |
| `HistoryLog.History.LogFailure` | map/update.js:262-265 | exactly one failure item, carrying the error message and the missing-file records, is appended |
| `Index.ApplyUpdate` | map/update.js:107-114 | defines one pass of the merge loop: an update naming an indexed parcel replaces its properties with the merged record; any other update changes nothing |
| `Index.MergedAsWritten` | map/update.js:106-115 | the merge loop as written keeps the index's keys and every feature's own fields, and leaves a parcel no update names unchanged |
| `Index.MergedVerified` | map/update.js:106-115 | the corrected merge keeps keys and fields, and leaves a parcel unchanged unless a passing update names it |
| `Index.MergedVerifiedAppliesAccepted` | map/update.js:106-115 | the corrected merge is the as-written merge applied to the verified updates only |
| `Index.AsWrittenUntouchedSuffix` | map/update.js:106-115 | later updates naming other parcels leave a parcel as the earlier updates left it |
| `Index.AsWrittenLastUpdateWins` | map/update.js:106-115 | as written, the last update naming an indexed parcel is merged onto what the earlier updates left, and each of its truthy values is what the parcel ends up holding |
| `Index.AsWrittenSingleUpdate` | map/update.js:106-115 | as written, a parcel named by exactly one update ends up with its stored properties merged with that update |
| `Index.VerifiedUntouchedSuffix` | map/update.js:106-115 | later updates that name other parcels or are rejected leave a parcel as the earlier updates left it |
| `Index.VerifiedLastUpdateWins` | map/update.js:106-115 | in the corrected merge, the last passing update naming an indexed parcel is merged onto what the earlier passing updates left, and each of its truthy values is what the parcel ends up holding |
| `Index.VerifiedSingleUpdate` | map/update.js:106-115 | in the corrected merge, a parcel named by exactly one passing update ends up with its stored properties merged with that update, whatever rejected updates for it hold |
| `Index.AsWrittenMergesRejectedUpdate` | map/update.js:106-115 | as written, an update the validator rejected still changes the owner of parcel 123, while the corrected merge leaves the index as it was |
| `Index.VerifiedOwnerScenario` | map/update.js:106-115 | a verified update sets the owner of parcel 123 from "Doe" to "Smith" |
| `Index.MasterIndex.constructor` | map/update.js:42 | a new index has its id, no features and length 0 |
| `Index.MasterIndex.Loaded` | map/update.js:41 | a loaded index holds the parsed id, features and length |
| `Index.MasterIndex.MergeUpdatesAsWritten` | map/update.js:106-115 | the loop as written leaves the features equal to the as-written merge and the length unchanged |
| `Index.MasterIndex.MergeUpdates` | map/update.js:106-115 | the corrected loop leaves the features equal to the corrected merge and the length unchanged |
| `Index.MasterIndex.Add` | map/update.js:169-171 | the new feature is stored under the parcel's `parcelNum` and the length grows by one |
| `LayerStats.Step` | map/update.js:124-166 | defines one parcel's effect on one layer: a structural base layer counts the parcel; otherwise an invalid value changes nothing, a category layer records a new value and counts its string form, a range layer tallies the value |
| `LayerStats.Accumulate` | map/update.js:118-166 | defines a layer's statistics after the values of all parcels, one step per parcel in visiting order |
| `LayerStats.AccumulateSnoc` | map/update.js:118-166 | the statistics after one more parcel are one step on the statistics before it |
| `LayerStats.ColumnSnoc` | map/update.js:125-152 | one more parcel adds its field value to the end of the column |
| `LayerStats.RebuildStep` | map/update.js:118-166 | the statistics after parcel `i` are one step on the statistics after the parcels before it |
| `LayerStats.ValidValues` | map/update.js:126-153 | the binnable values, which are only valid values, each as often as it occurs |
| `LayerStats.ValidValuesSnoc` | map/update.js:126-153 | one more value extends the binnable values exactly when it is valid |
| `LayerStats.CategoryCounts` | map/update.js:134-159 | a category layer counts each string exactly as often as a valid value has that string form, and keeps no range tally |
| `LayerStats.CategorySeen` | map/update.js:136-157 | a category layer's bin values are the valid values in first-occurrence order, each once |
| `LayerStats.StepSeen` | map/update.js:136-157 | one value is added to a category layer's bin values exactly when it is valid and new |
| `LayerStats.CategoryTotal` | map/update.js:137-158 | a category layer's counts sum to the number of valid values |
| `LayerStats.StepTotal` | map/update.js:137-163 | one value adds one to a category layer's counts, or to a range layer's tally, exactly when it is valid |
| `LayerStats.RangeTally` | map/update.js:140-164 | a range layer tallies each valid value as often as it occurs, holds only valid values with positive counts, and gathers nothing else |
| `LayerStats.RangeTotal` | map/update.js:141-163 | a range layer's tally sums to the number of valid values |
| `LayerStats.StructuralStats` | map/update.js:129-131 | in the base collection, the `parcels` and `outline` layers count every parcel, valid value or not, under their own key and gather nothing else |
| `LayerStats.MasterHasNoStructuralExemption` | map/update.js:129-166 | a `parcels` layer bins values normally in the master collection but only counts parcels in the base collection |
| `LayerStats.NumberAndNumericStringShareCount` | map/update.js:136-137 | the number 5 and the string "5" are two bin values but share one count |
| `LayerStats.NumericValue` | map/update.js:188 | defines the integer the comparator `a - b` reads from a value: a number itself, a string by `Number`, `null` as 0, a boolean as 0 or 1 |
| `LayerStats.ValueLe` | map/update.js:188 | defines the ascending order: values read as integers by value, all others after them |
| `LayerStats.ValueLeTotalPreorder` | map/update.js:188 | the order compares every two values and is transitive |
| `LayerStats.NumericStringsSortByValue` | map/update.js:188 | a numeric string sorts among the numbers by its value: `"10"` after 5 and `" 3 "` before it |
| `LayerStats.Insert` | map/update.js:188 | an insertion adds exactly the one value |
| `LayerStats.InsertKeepsLowerBound` | map/update.js:188 | an insertion keeps a lower bound shared by the value and the list |
| `LayerStats.InsertSorted` | map/update.js:188 | an insertion keeps a list in ascending order |
| `LayerStats.SortValues` | map/update.js:188-213 | the sorted list is ascending and a permutation of its input |
| `LayerStats.ExpandRange` | map/update.js:181-213 | the expansion lists every tallied value as often as it is counted, in ascending order, and has the tally's total length |
| `LayerStats.NumericExpansionUnique` | map/update.js:181-188 | two ascending lists of numbers with the same elements are equal, so the bins do not depend on the tally's iteration order |
| `LayerStats.Layer.constructor` | map/update.js:47-52 | a declared layer starts with no statistics, bins or formulas |
| `LayerStats.Layer.Observe` | map/update.js:124-166 | observing one parcel's value changes the layer's statistics by exactly one step and nothing else |
| `LayerStats.Layer.Finalize` | map/update.js:176-219 | a range layer's bins and counts come from its ascending expansion; other layers' bins are unchanged; every layer gets formulas built from the finished layer; the statistics are unchanged |
| `LayerStats.ObserveAll` | map/update.js:124-166 | each of a collection's layers takes exactly one step on the parcel's value under its own key |
| `LayerStats.FinalizeAll` | map/update.js:176-220 | every layer of a collection is finished as `Finalize` states |
| `Backup.BackupName` | map/update.js:315 | a ".json" name gets ".backup.json" in place of ".json" and differs from the name; any other name is kept unchanged |
| `Backup.BackupNamesOfTheSources` | map/update.js:315 | the three sources' backups are `master-index.backup.json`, `base-source.backup.json` and `master-source.backup.json` |
| `Backup.LoadBackup` | map/update.js:339-344 | the backup load succeeds exactly when the backup exists and parses, returns its text, and changes no file |
| `Backup.Load` | map/update.js:313-350 | a successful load returns text that parses |
| `Backup.LoadRotatesPrimary` | map/update.js:317-333 | a readable primary is returned, the backup then holds its text, the primary is gone, and no other file changes |
| `Backup.LoadTouchesOnly` | map/update.js:313-350 | a load changes no file besides the primary and its backup |
| `Backup.LoadFallsBackToBackup` | map/update.js:336-344 | with no primary the backup is returned and nothing changes; with neither, the load fails with "not found" |
| `Backup.CorruptPrimaryIsNotReplaced` | map/update.js:319-347 | a primary that does not parse fails the load, with no backup fallback and no file changed |
| `Backup.LoadIsRepeatable` | map/update.js:313-350 | a second load after a rotation returns the same data and changes nothing more |
| `Backup.NonJsonNameDestroysFile` | map/update.js:315-343 | for a name not ending in ".json", the unlink deletes the primary itself, and the load then fails with the file gone |
| `Backup.MissingOf` | map/update.js:247-260 | a required file is recorded, with its directories, exactly when it is in none of them; the records keep the order of the required list, at most one per required file |
| `Backup.NothingMissingIff` | map/update.js:247-260 | nothing is recorded exactly when every required file exists in one of its directories |
| `Backup.MissingOfFrame` | map/update.js:247-260 | a file under another name does not change the records |
| `Backup.NothingMissingWhenPresent` | map/update.js:239-260 | once the production master index and both production sources exist, nothing is recorded |
| `Backup.MasterIndexHasOneLocation` | map/update.js:240 | the master index is recorded missing exactly when `map/master_index/master-index.json` is absent: its two checked directories are one |
| `Backup.WriteEach` | map/update.js:223-227 | writes stop at the first refused one; with none refused every path is written; no file is deleted; a path nobody writes is unchanged, as `writeJsonFile` (lines 301-304) does |
| `Backup.WriteEachStores` | map/update.js:223-227 | with every write accepted and no path written twice, each path holds what was written to it, as `writeJsonFile` (lines 301-304) does |
| `Backup.Store.Unlink` | map/update.js:323-327 | the file is removed if present; a missing file is the tolerated `ENOENT` |
| `Backup.Store.Rename` | map/update.js:330 | an existing file moves to the target name, replacing it; a missing source changes nothing |
| `Backup.Store.WriteFile` | map/update.js:301-304 | an accepted write sets the file's text; a refused one changes nothing |
| `Backup.Store.AppendLine` | map/update.js:306-311 | an accepted append adds the line and a newline, creating the file if needed; a refused one changes nothing |
| `Backup.Store.WriteAll` | map/update.js:223-227 | the store and the refused path are as `WriteEach` states |
| `Backup.Store.LoadAndBackup` | map/update.js:313-350 | the result and the new store are exactly those of `Load` |
| `Backup.Store.LoadBackupFile` | map/update.js:339-344 | the result is that of `LoadBackup`, and the store is unchanged |
| `Backup.Store.MissingFiles` | map/update.js:247-260 | the loop over required files and their directories builds exactly the records `MissingOf` states |
| `Pipeline.LoadAll` | map/update.js:41-50 | defines the three loads in order, the master index first, each on the files the previous one left; the first failure ends the run |
| `Pipeline.LoadAllKeepsOtherFiles` | map/update.js:41-50 | the loads change no file outside the three source directories, so the history file is untouched |
| `Pipeline.LoadAllRotatesPrimaries` | map/update.js:41-50 | with all three primaries present and parsing, the job works on their contents, each backup then holds its primary's text, and no primary remains, by the rotation of lines 317-333 |
| `Pipeline.ChangeHistory` | map/update.js:55-94 | the history of a run has no failure item and one classification item per update |
| `Pipeline.IndexOf` | map/update.js:169-170 | defines the rebuilt index: each parcel's new feature stored under its `parcelNum`, a later parcel replacing an earlier one with the same number |
| `Pipeline.IndexOfKeys` | map/update.js:169-170 | every visited parcel's number is a key of the new index, and every key holds the feature built from a parcel with that number |
| `Pipeline.MergeKeepsKeying` | map/update.js:106-115 | the merge keeps every feature filed under its own `parcelNum` |
| `Pipeline.OrderedParcelKeys` | map/update.js:170 | in an index keyed by parcel number, the i-th visited parcel carries the i-th key |
| `Pipeline.RebuiltIndexKeepsKeys` | map/update.js:118-171 | from an index keyed by parcel number, the new index has the same keys with every feature rebuilt, and `length` equals the number of features |
| `Pipeline.LengthCountsCollapsedParcels` | map/update.js:170-171 | two visited features with one `parcelNum` yield a single index entry, although `length` counts both |
| `Pipeline.OutputWrites` | map/update.js:223-227 | the job performs five writes |
| `Pipeline.OutputPathsDistinct` | map/update.js:223-231 | the five writes go to five different files, none of them the history file |
| `Pipeline.Entries` | map/update.js:118 | the keys are visited each exactly once |
| `Pipeline.NewLayers` | map/update.js:47-52 | fresh, distinct layers, one per declaration, in order, with nothing gathered |
| `Pipeline.LoadSources` | map/update.js:41-50 | the outcome and the new store are exactly those of the three loads in order |
| `Pipeline.FeedLayers` | map/update.js:124-166 | one more parcel is fed to every layer of a collection, and no layer is binned yet |
| `Pipeline.FeedBoth` | map/update.js:124-166 | one more parcel is fed to both collections' layers |
| `Pipeline.PrefixStep` | map/update.js:121-170 | one more parcel adds its index entry and one feature to each collection |
| `Pipeline.FeedStep` | map/update.js:124-166 | the layers' progress over the parcels advances by one parcel |
| `Pipeline.IndexStep` | map/update.js:121-171 | the index and feature progress advances by one parcel |
| `Pipeline.RegenerateStep` | map/update.js:121-171 | one visit of the loop advances the index, the features and the layers by one parcel |
| `Pipeline.Regenerate` | map/update.js:118-173 | after the loop, the new index holds the rebuilt entries and counts every parcel, each collection has one feature per parcel, and every layer has taken every parcel's value |
| `Pipeline.FinishLayers` | map/update.js:176-220 | a collection's layers come out rebuilt: declarations in order, statistics of every parcel, range bins over the ascending expansion, formulas |
| `Pipeline.WriteOutputs` | map/update.js:223-272 | with every write accepted each output holds its text and the history is unchanged; after a refusal the missing check runs on the store as it is and exactly one failure item is added; in both cases the history is appended |
| `Pipeline.AppendHistory` | map/update.js:230-272 | the history file gains the encoded entry and a newline if the append is accepted, and no other file changes |
| `Pipeline.MasterCollectionAsWritten` | map/update.js:200-227 | as written, the master collection is written with its id and features and an empty layer list |
| `Pipeline.MasterLayersDriftAsWritten` | map/update.js:200-227 | after a run as written, the next run reports every declared master layer as added, with unchanged declarations |
| `Pipeline.RebuiltLayersShowNoDrift` | map/update.js:197 | with both collections given their layers, a rerun with the same declarations reports no layer drift |
| `Pipeline.BuildHistory` | map/update.js:55-101 | the filled history is exactly the run's change history, and the no-change return is not taken |
| `Pipeline.MergeSources` | map/update.js:106-115 | the merged index features are the corrected merge of the batch |
| `Pipeline.FinishBoth` | map/update.js:176-220 | both collections' layers come out rebuilt, the base ones with the structural exemption |
| `Pipeline.RebuildParcels` | map/update.js:118-220 | the new index, both collections' features and their rebuilt layers, from the visited parcels |
| `Pipeline.RebuildFrom` | map/update.js:118-220 | the rebuild visits each merged key once and produces the index and collections `RebuiltFrom` describes, with the master collection's layers present |
| `Pipeline.OutputsLeaveNothingMissing` | map/update.js:223-260 | once all five outputs are stored, the missing check finds nothing |
| `Pipeline.AppendedAcrossLoads` | map/update.js:41-50 | since the loads leave the history file alone, the append extends the history file as it was before the run at line 231 |
| `Pipeline.Prepare` | map/update.js:55-220 | before any write, the history is the change history and the outputs are rebuilt from the merged sources |
| `Pipeline.Publish` | map/update.js:55-273 | either every output is stored and nothing is missing, or a write was refused and the history carries one failure item with the store's missing files; in both cases the history is the change history and it is appended |
| `Pipeline.UpdateMap` | map/update.js:35-273 | an empty batch changes nothing; a failed load ends the run with the loads' error; otherwise the run works on the loaded sources and publishes, or fails as `Publish` states |

These members are plain definitions, used by the members above: `JsValues.Get` (a missing key reads as `undefined`, lines 359-360), `Records.FirstFeature` (`features[0]`, lines 86-87), `Diff.KeysOf` (the key set of lines 277-278), `LayerStats.Column` (`parcel[layer.key]`, lines 125 and 152), `Pipeline.Ordered` (the visited parcels, line 118), `Pipeline.Projected` (the built features, lines 121-122 and 148-149), `Pipeline.Outs` (the finished layers, line 197), `Pipeline.DeclsOf` (a written collection's declarations, lines 75-76), and the file-system primitives `Backup.Store.ReadFile` (`fs.readFile`, lines 319 and 339) and `Backup.Store.Accessible` (`fs.access`, lines 248-255).

## Left out

- I/O is a map from paths to text. The following are not modelled: `path.resolve` against the module's directory, `fs.mkdir`, file permissions, and concurrent writers.
- `Promise.all` in the missing-file check (lines 248-255) is modelled as a sequential loop, since every probe is a read.
- Console output (`console.log`, `warn` and `error`) is not modelled. Neither are the error `stack` at line 262 and the logging of the inner append's failure (lines 232-233, 270-271).
- `JSON.parse` and `JSON.stringify` are functions of `Pipeline.Env`, as are:
  - the validator and its `errors`;
  - the layer declarations and the sample features;
  - the feature constructors;
  - `Layer.generateBins` and `Layer.buildLayerFormulas`;
  - whether a write is accepted.

  The model states what the job does with their results, not their internals.
- `map.js` is not part of this model. The `History`, `MasterIndex`, `Layer` and `FeatureCollection` classes are modelled only through the fields this job reads and writes.
- Numbers are integers. Floating point is not modelled; `NaN` is a value of its own, never valid for binning.
- Errors other than a refused write are not modelled: `unlink` or `rename` failing with something other than `ENOENT`, and exceptions thrown by the validator, by a constructor, or by `generateBins`. The failure path is reached only through a refused write.
- The loads (lines 41-50) sit outside the `try`. A failed load ends the run with that error and writes no history (`Pipeline.UpdateMap`'s `LoadFailed` result).
- `Pipeline.Entries`: `Object.entries` order is left open. The job is proved for every order that lists each key once.
- `LayerStats.ExpandRange`: a JavaScript `Map` visits values in insertion order. The model picks the values in any order and proves that the expansion is ascending and lists each value as often as it is counted. Only for a tally of numbers does this fix the list (`LayerStats.NumericExpansionUnique`). Values that compare equal, such as `5` and `"5"` or two strings that are not numbers, may come out in either order, and `Array.prototype.sort` being stable is not modelled.
- `LayerStats.SortValues`: the comparator `a - b` is modelled only for values it reads as integers, numeric strings included. Strings it reads as other numbers (`"1.5"`, `"1e3"`, `"0x10"`, `"Infinity"`) sort by value in the source but come after all integers here. Strings it reads as `NaN` make the comparator inconsistent, so the engine's order is not determined; the model puts them after all numbers, in no particular order. Which bins such values end up in is therefore not modelled.
- `LayerStats.Layer.Finalize`: the source replaces a category layer's `binValues` set with an array. The model keeps the first-occurrence list `seen`, which is that array.
- `LayerStats.Layer.Finalize`: a range layer's `binValues`/`binCount` are overwritten with bins/counts. The model keeps the tally beside separate `bins` and `binCounts` fields.
- `LayerStats.Layer` does not model prototype keys of the plain `binCount` object (`"__proto__"`, `"constructor"`), which are ordinary keys here.
- `Index.MasterIndex.MergeUpdates`: the intended merge, applying verified updates only, is what `Pipeline` uses. The merge as written is kept beside it as `Index.MasterIndex.MergeUpdatesAsWritten`.
- `HistoryLog.Accepted`: the source looks a parcel up with `CURR_MASTER_INDEX.features[parcel.parcelNum]` on a plain object (lines 61 and 107-109). A `parcelNum` such as `"constructor"` or `"toString"` then finds an inherited member, which is truthy. The source logs such an update as verified, and the merge writes a `properties` field onto that inherited member. The model looks keys up in the index's own entries only, so it rejects the update and the merge skips it.
- `Pipeline.RebuildFrom`: the master collection is written with its finished layers, as the base collection is at line 197. The as-written form is `Pipeline.MasterCollectionAsWritten`.
- `History.validator.errors` is reset after each rejection (line 70). The model reads it as a property of the verdict, so a stale error text never leaks into the next item.

## Findings

| source | as written | input that shows it | evidently intended | confidence | as-written member | corrected member |
|---|---|---|---|---|---|---|
| map/update.js:106-115 | the merge loop applies every update of the batch whose parcel is in the index, including updates the validator rejected at lines 60-71 | index `{"123": owner "Doe"}`, batch `[{parcelNum "123", owner "Smith"}]`, validator rejecting it: the update is logged as rejected, yet parcel 123's owner becomes "Smith" | only verified updates are merged | not executed | `Index.AsWrittenMergesRejectedUpdate` (on `Index.MergedAsWritten`) | `Index.MergedVerifiedAppliesAccepted` (on `Index.MergedVerified`, used by `Pipeline.MergeSources`) |
| map/update.js:197, 200-220 | the base collection is handed its finished layers at line 197, but the master collection never is, so it is written with the layer list of a fresh `FeatureCollection` (taken to be empty) | any non-empty master layer declarations: after a run the stored master collection has no layers, so every later run reports every master layer as "added" | the master collection is handed its finished layers as the base one is | not executed | `Pipeline.MasterLayersDriftAsWritten` (on `Pipeline.MasterCollectionAsWritten`) | `Pipeline.RebuiltLayersShowNoDrift` (on `Pipeline.RebuildFrom`) |

