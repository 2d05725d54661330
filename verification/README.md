# uslci-transport: record shaping of the transport process builder

A Dafny model of `build_transportation_olca_objects.py`. The script turns a
dataset of weighted commodity transport distances into openLCA processes,
one per process id (the commodity name up to letter case). The model covers the part of the script that shapes
records:

- **Commodity classification.** The fixed table of the 42 codes of the
  Standard Classification of Transported Goods (SCTG) and their labels is
  reversed, so each commodity label finds its code. The codes that no row
  uses are reported (`Sctg`, built on the ordered-dict model in `Dicts`).
- **Input exchanges.** Every dataset row becomes an input exchange:
  - the constant columns are set;
  - the process name is `Transport; average mix; ` plus the lowercased
    commodity, and the process id is `make_uuid` of that name;
  - `amount` is the weighted distance;
  - flow name, flow id and provider name are looked up by transport mode,
    and the provider id by flow name (`Exchange`).
- **Reference flow and partitions.** One reference-flow template is appended
  with process id "nan". Then, for every distinct process id other than
  "nan", the loop builds a partition (`Partitions`, with the generic
  stop-at-first-failure loop in `Loop`). A partition is:
  - the rows of that id;
  - then a copy of the template bound to the id;
  - with the process name and data-quality entry of the first row whose
    flow is not the reference flow.
- **Metadata.** Each partition gets a fresh copy of the process-metadata
  template. In every string value, `[COMMODITY]` is replaced, then `[SCTG]`
  (`Metadata`, on the `str.replace` model in `Text`).
- **Flow reconciliation.** The flows fetched for the transport mapping
  overwrite the built flows only when every fetched id is already a built id
  (`Flows`).
- **The whole script.** `Pipeline.Run` chains these steps.

Modelling choices:

- `make_uuid` is a parameter `uuid: seq<string> -> string`. It is
  deterministic, and nothing is assumed about its injectivity.
- pandas NaN is `Option.None`. The template's literal `'nan'` strings are the
  string "nan".
- Python dicts built from ordered items are folded left to right into a
  `map`, so later items win.
- `.iloc[0]` on an empty selection is the error `NoDonor(pid)`, and
  `Pipeline.Run` returns it.
- Values are immutable, so the shared metadata template cannot be changed by
  rendering one partition's copy.

## Model

| member | source | states |
|---|---|---|
| Dicts.FromItems | build_transportation_olca_objects.py:112 | a dict built from items has exactly the keys of the items |
| Dicts.FromItemsLastWins | build_transportation_olca_objects.py:112 | under a repeated key, the value of the last item is the one kept |
| Dicts.ReverseOfInjectiveIsExactInverse | build_transportation_olca_objects.py:111-112 | with distinct keys and values, the reversed dict is an exact inverse both ways and has the same size |
| Dicts.ReverseOfNonInjectiveLosesAKey | build_transportation_olca_objects.py:111-112 | when two keys share a value, the reversal maps that value back to only one of them, so the inverse fails |
| Dicts.ReverseIsExactInverseIffDistinct | build_transportation_olca_objects.py:111-112 | for distinct keys, the reversal is an exact inverse if and only if the values are distinct |
| Sctg.TableIsInjective | build_transportation_olca_objects.py:66-109 | the code table has 42 entries with distinct codes and distinct labels |
| Sctg.ReversedIsExactInverse | build_transportation_olca_objects.py:66-112 | `reversed_SCTG_codes[SCTG_codes[k]] == k` for every code, the converse for every label, and both maps hold 42 entries |
| Sctg.Classify | build_transportation_olca_objects.py:115 | a commodity is looked up in the reversed table, with NaN for a label outside it; `ClassifyIsLabelLookup` states that the code found is the one whose label is the commodity |
| Sctg.ClassifyIsLabelLookup | build_transportation_olca_objects.py:115 | a commodity gets code k exactly when k's label is that commodity |
| Sctg.MissingIffNoCommodityHasLabel | build_transportation_olca_objects.py:115-121 | a code is missing exactly when it is in the table and no commodity equals its label |
| Sctg.MissingCodes | build_transportation_olca_objects.py:121 | the missing codes are codes of the table; `MissingIffNoCommodityHasLabel` states which ones |
| Sctg.MissingMessage | build_transportation_olca_objects.py:124 | the warning is `Missing SCTG code: `, then the code's label from the table, then the code in parentheses, and nothing else; `ReportMissing` prints one per missing code |
| Sctg.ReportMissing | build_transportation_olca_objects.py:121-124 | one message `Missing SCTG code: <label> (<code>)` per missing code, each code once, and none when no code is missing |
| Text.Lower | build_transportation_olca_objects.py:133 | lowercasing keeps the length and maps each character to its lower-case form |
| Text.Split | build_transportation_olca_objects.py:297 | splitting at a pattern gives at least one piece, the first a prefix of the text, and no piece contains the pattern |
| Text.ReplaceAll | build_transportation_olca_objects.py:297 | replacing with a text as long as the pattern keeps the length; `ReplaceAllIsJoinOfSplit` states the result as split and join |
| Text.SplitJoinRoundTrip | build_transportation_olca_objects.py:297 | joining the pieces with the pattern gives back the text |
| Text.ReplaceAllIsJoinOfSplit | build_transportation_olca_objects.py:297 | `str.replace` equals cutting at every occurrence and joining with the replacement |
| Text.ReplaceAllOfFreeIsIdentity | build_transportation_olca_objects.py:297 | replacing a pattern that does not occur changes nothing |
| Exchange.Lookup | build_transportation_olca_objects.py:141-154 | `Series.map(dict)` gives a value exactly when the key is present and not NaN, and the value is the dict's |
| Exchange.Enrich | build_transportation_olca_objects.py:130-154 | an input exchange with the constant columns, also those of lines 196-208; process name is prefix plus lowercased commodity and id is `make_uuid` of the name; amount is the weighted distance (line 62); the code is the reversed-table lookup (line 115); commodity and mode are kept; flow name, id and provider name are present exactly when the mode is mapped; provider id is present exactly when the flow name is a provider key |
| Exchange.EnrichAll | build_transportation_olca_objects.py:130-154 | one enriched exchange per dataset row, in order |
| Exchange.EqualNamesShareProcess | build_transportation_olca_objects.py:133-134 | rows with equal process names, or with commodities equal after lowercasing, get equal process ids |
| Partitions.Template | build_transportation_olca_objects.py:160-188 | the reference row is an output with reference set, amount 1.0, unit kg, process id "nan", the fixed flow name and the flow id `make_uuid([name, 'uslci-transport'])` |
| Partitions.Filter | build_transportation_olca_objects.py:274 | every selected row has the id and nothing is added; `FilterCounts` states that exactly the id's rows are kept |
| Partitions.Unique | build_transportation_olca_objects.py:266 | `.unique()` keeps each value once, loses none, and lists them in the order in which they first occur |
| Partitions.Visited | build_transportation_olca_objects.py:266-267 | the loop acts on exactly the distinct ids other than "nan", each once, in the order of their first rows in the table |
| Partitions.SkipNanOfDedup | build_transportation_olca_objects.py:266-267 | skipping "nan" inside the loop over the unique ids is the same as deduplicating with "nan" already seen |
| Partitions.FilterCounts | build_transportation_olca_objects.py:274 | selecting the rows of an id keeps each such row as often as the table has it, and no other row |
| Partitions.FilterConcat | build_transportation_olca_objects.py:273-276 | the selection distributes over concatenation |
| Partitions.GatherCounts | build_transportation_olca_objects.py:266-276 | selections for distinct ids together hold each row of a listed id as often as the table does |
| Partitions.FirstDonor | build_transportation_olca_objects.py:279 | the donor is the first row not carrying the reference flow name, and is absent exactly when every row carries it |
| Partitions.FirstDonorSkipsRefNamed | build_transportation_olca_objects.py:273-279 | the appended template never becomes the donor |
| Partitions.Stamp | build_transportation_olca_objects.py:282-285 | a row carrying the reference flow name takes the donor's process name and quality entry, any other row is unchanged, and restoring the two fields gives back the row |
| Partitions.OnlyLastIsReference | build_transportation_olca_objects.py:282-285 | stamping never makes a row a reference row, so only the appended reference row is one |
| Partitions.GroupDonor | build_transportation_olca_objects.py:269-279 | the group is the id's rows followed by the template bound to the id, and its donor is the donor among the id's rows |
| Partitions.Group | build_transportation_olca_objects.py:273-276 | the group has one row more than the id's rows, every row carries the id, and the last is the reference-flow row |
| Partitions.BuildPartition | build_transportation_olca_objects.py:268-297 | one iteration fails with `NoDonor(pid)` exactly when every row of the id carries the reference flow name; otherwise it has one row more than the id's rows |
| Partitions.PartitionInputRows | build_transportation_olca_objects.py:273-285 | the first rows of a partition are the id's rows in order, stamped by the first donor |
| Partitions.PartitionReferenceRow | build_transportation_olca_objects.py:269-285 | the last row is the template bound to the id, with the donor's process name and quality entry |
| Partitions.PartitionMeta | build_transportation_olca_objects.py:288-297 | the metadata is the shared template rendered with the commodity and code of the id's first row |
| Partitions.BuildAll | build_transportation_olca_objects.py:266-297 | one partition per id, in order, each the result of one iteration for its id |
| Partitions.BuildAllFailsIffSomeIdHasNoDonor | build_transportation_olca_objects.py:266-279 | the loop fails exactly when some id has no donor, and then with the first such id's error |
| Loop.Collect | build_transportation_olca_objects.py:266-309 | the loop succeeds exactly when every step does; it then yields every step's value in order, and otherwise the error of the first failing step |
| Metadata.Render | build_transportation_olca_objects.py:291-297 | keys are kept, non-string values are kept, strings stay strings, and a string without placeholders is unchanged |
| Metadata.Substitute | build_transportation_olca_objects.py:297 | a value holding neither placeholder is unchanged, and replacements as long as the placeholders keep the length; `RenderReplacesEveryTag` states the result |
| Metadata.RenderReplacesEveryTag | build_transportation_olca_objects.py:297 | every `[COMMODITY]` is replaced and then every `[SCTG]` of the result |
| Flows.ApiFlows | build_transportation_olca_objects.py:259 | the fetched flows are keyed by exactly their ids, and a later flow with the same id wins |
| Flows.ApiFlowsKeyedById | build_transportation_olca_objects.py:259 | each fetched flow is stored under its own id |
| Flows.Consistent | build_transportation_olca_objects.py:260 | the union test holds exactly when every fetched id is a built id |
| Flows.Reconcile | build_transportation_olca_objects.py:259-263 | the key set never changes; a warning exactly when some fetched id is not built, and then nothing changes; otherwise every fetched flow overwrites its built flow and the rest are kept |
| Pipeline.FilterTable | build_transportation_olca_objects.py:273-276 | for an id other than "nan", the appended template is not among the id's rows |
| Pipeline.FilterStartsAtFirstRow | build_transportation_olca_objects.py:288-289 | an id's group starts with the id's first row in the dataset |
| Pipeline.Table | build_transportation_olca_objects.py:253 | the table is the dataset followed by one row, whose process id is "nan" |
| Pipeline.Run | build_transportation_olca_objects.py:253-297 | a run fails exactly when some id other than "nan" has only rows carrying the reference flow name; on success the partition ids are the ids the loop visits (distinct, without "nan", in order of first occurrence), the table is the enriched dataset plus the template, and the missing codes and flows come from the dataset and the fetched flows |
| Pipeline.MissingCodesOfDataset | build_transportation_olca_objects.py:115-121 | a code misses from the SCTG column exactly when no dataset row has its label as commodity |
| Pipeline.RunReportsMissingCodes | build_transportation_olca_objects.py:115-124 | a code is reported missing exactly when no dataset row has its label as commodity |
| Pipeline.RunVisitsEachIdOnce | build_transportation_olca_objects.py:253-267 | partition ids are distinct, are exactly the dataset's ids other than "nan", and follow the order in which the ids first occur in the dataset, so the template never forms a partition |
| Pipeline.VisitedOrderOfTable | build_transportation_olca_objects.py:253-266 | appending the template does not move the first occurrence of any dataset id, so the loop takes the ids in the dataset's order |
| Pipeline.PartitionOfRun | build_transportation_olca_objects.py:269-297 | each partition is the id's rows, stamped by the first donor, plus a reference row with amount 1.0, unit kg, the id, the fixed flow and the donor's name and quality entry; the metadata comes from the id's first row |
| Pipeline.OneReferenceRowPerPartition | build_transportation_olca_objects.py:269-276 | exactly one row of each partition, its last, is a reference row |
| Pipeline.PartitionInputsUnchanged | build_transportation_olca_objects.py:273-285 | when no mapping names a flow like the reference flow, the input rows are the id's rows unchanged, and the first of them is the donor |
| Pipeline.BuiltHandOnRows | build_transportation_olca_objects.py:273-285 | under that condition each built partition hands on the rows of its id, unchanged and in order, before its reference row |
| Pipeline.InputRowsOfHandedOn | build_transportation_olca_objects.py:266-276 | partitions that each hand on the rows of their id together hand on the rows of all their ids, id by id |
| Pipeline.PartitionFailsIffOnlyRefNamed | build_transportation_olca_objects.py:274-279 | an iteration fails exactly when every dataset row of the id carries the reference flow name |
| Pipeline.RunSucceedsWithoutRefNamedMapping | build_transportation_olca_objects.py:279 | when no mapping names a flow like the reference flow, the run succeeds |
| Pipeline.RunKeepsEveryRow | build_transportation_olca_objects.py:266-276 | under that condition, the partitions' input rows hold each dataset row whose id is not "nan" exactly as often as the dataset does, and nothing else |

## Left out

- Reading the CSV, YAML and BibTeX files, dropping columns, and the output
  directory are left out. They are file I/O.
- The ISO-3166 merge at lines 215-219 is left out. Its outcome, the
  alpha-3 code matched to "US", is the setting `countryCode`.
- `prepare_tech_flow_mappings`, `format_dqi_score`, the `extract_*` helpers,
  `assign_year_to_meta`, `generate_locations_from_exchange_df` and
  `build_location_dict` are not part of this model. Their outputs are
  parameters: `flowDict`, `providerIds`, the mapping's flow objects,
  `flowDqi` and the metadata template.
- `build_flow_dict`, `build_process_dict` and `write_objects` are not part
  of this model. The built flows are the parameter `built`. The partitions
  and the reconciled flows are the output handed to them.
- Exchange validation is delegated to `validate_exchange_data`, which line
  255 calls on the table with the template appended, before the loop. That
  helper is not part of this model: its checks and any exception it raises
  are not modelled, and `Pipeline.Run` assumes that it passes.
- `make_uuid` is an opaque function parameter, and no injectivity is
  claimed.
- `amount` is a `real` that is only copied. Floating-point behaviour is not
  modelled.
- Metadata values other than strings are opaque handles, and the deep copy
  is a value copy.
- The order in which Python iterates the missing-code set is free in
  `Sctg.ReportMissing`: any order in which each code appears once is
  allowed.
- Text.Lower: only ASCII letters are lowercased. `str.lower` on other
  Unicode letters is not modelled.
- Pipeline.Run: it requires the first row of every process id to have an
  SCTG code, because line 297 would fail on NaN. This holds even when the
  metadata has no string values; the crash is not modelled.
- Pipeline.RunKeepsEveryRow: stated only when no mapping names a flow like
  the reference flow. Otherwise rows carrying that name are changed by the
  stamping, so they are kept only up to their process name and quality
  entry.
- Transport-mode normalisation, distance and mass-fraction parameters and
  formula binding are not done by this script. The mass-fraction column is
  dropped at line 35.
- Pipeline.Run: a failed run returns only the error. By then the script has
  already printed the missing-code messages (lines 121-124) and possibly the
  reconciliation warning (lines 260-261); the failure result does not carry
  them.
