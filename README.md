# Merge Conflict Detector front end, modelled in Dafny

The front end takes three versions of a text file: base, local and remote.
It hands their lines to a three-way merge library. It then flattens the merge
regions into one list of lines, with conflict markers, and shows them with
the marker lines highlighted. On request it sends the three texts to a
resolution service and shows the returned code. Each returned line is tinted
by the side the service says it came from.

This project models the logic around the merge library:

- `Text` — the string primitives the component relies on: `startsWith`,
  `some` over `startsWith`, and `split('\n')`. `Split` is proved against its
  inverse `Join`, in both directions.
- `Regions` — the merge regions (`Ok(lines)` or `Conflict(a, o, b)`) and
  the flattening loop of `detectConflict`. The loop is the method
  `FlattenRegions`, proved against the function `Flatten`. The module also
  holds the "has conflict" flag and its characterisation.
- `Resolution` — the pure part of `resolveConflict`: label to provenance,
  `resolved_code` to lines (or the placeholder), and tagging every line.
- `ConflictViewer` — `getLineClass`, the one-row-per-line rendering and the
  resolve button.
- `App` — the component's state as the class `AppState`, with one field per
  `useState`. Its methods are the event handlers. The class invariant
  `Valid()` says two things: the flag always matches the merged lines, and
  every resolved line carries the provenance of the stored label. The module
  also holds the visibility conditions of the two panes and the backgrounds
  of the resolved pane.

The merge library is a parameter `diff3` of `DetectConflict`. It receives
local, base and remote lines, in that order, as in `src/App.tsx:32`. The
network request is a parameter `outcome` of `FinishResolving`.

- The resolver receives the three whole texts in one request
  (`src/App.tsx:56-60`). The returned code is stored without re-indenting.
- An empty text never reaches `split` in `detectConflict`, because of the
  guard at `src/App.tsx:26`. It does reach `split` for an empty
  `resolved_code`, and yields one empty line there.

## Model

| member | source | states |
|---|---|---|
| Text.AnyStartsWith | src/App.tsx:48 | `some(line => line.startsWith(p))` holds exactly when some index holds a line starting with `p` |
| Text.Split | src/App.tsx:28-30 | splitting on newline yields at least one piece, and no piece contains a newline |
| Text.SplitCount | src/App.tsx:28-30 | there is exactly one piece more than the text has newline characters |
| Text.JoinSplit | src/App.tsx:28-30 | joining the pieces with newlines gives back the original text |
| Text.SplitJoin | src/App.tsx:28-30 | splitting the newline-join of newline-free pieces gives back the pieces |
| Text.SplitEmpty | src/App.tsx:71 | the empty text splits into the single empty line |
| Regions.FlattenRegions | src/App.tsx:33-45 | the `forEach`/`push` loop builds exactly `Flatten(regions)`, each region's lines in region order |
| Regions.FlattenPush | src/App.tsx:35-44 | one more region appends its own lines and nothing else; an `ok` region appends exactly its lines |
| Regions.ConflictLayout | src/App.tsx:38-44 | a conflict adds `|a| + |b| + 3` lines: `<<<<<<< LOCAL`, `a`, `=======`, `b`, `>>>>>>> REMOTE` |
| Regions.BaseSliceNotEmitted | src/App.tsx:38-44 | the base slice `o` never reaches the output: changing it leaves the merged lines unchanged |
| Regions.FlattenAt | src/App.tsx:33-45 | region `k` lands between the lines of the regions before it and those of the regions after it |
| Regions.FlattenLength | src/App.tsx:33-45 | the merged length is the sum of the per-region counts (`|lines|`, or `|a| + |b| + 3`) |
| Regions.SingleConflictExample | src/App.tsx:33-45 | `a`, conflict `X`/`b`/`Y`, `c` flattens to `a`, `<<<<<<< LOCAL`, `X`, `=======`, `Y`, `>>>>>>> REMOTE`, `c` |
| Regions.ContributionRaisesFlag | src/App.tsx:38-48 | a region's own lines contain a `<<<<<<<` line exactly when it is a conflict or an `ok` region holding such a line |
| Regions.HasConflictIff | src/App.tsx:48 | the flag is set exactly when some region is a conflict or an `ok` region holding a `<<<<<<<` line |
| Regions.ConflictRaisesFlag | src/App.tsx:48 | any conflict region sets the flag |
| Regions.FlagWithoutConflictRegion | src/App.tsx:48 | the flag can be set with no conflict region at all |
| Regions.NoFlagWithoutMarkers | src/App.tsx:48 | `ok` regions without `<<<<<<<` lines leave the flag clear |
| ConflictViewer.PrefixesExclusive | src/components/ConflictViewer.tsx:15-17 | no line starts with two of `<<<<<<<`, `=======`, `>>>>>>>` |
| ConflictViewer.LineClass | src/components/ConflictViewer.tsx:14-19 | `<<<<<<<` and `>>>>>>>` lines get the strong red class, `=======` lines the red class, and a line gets `''` exactly when it has none of the prefixes |
| ConflictViewer.CheckOrderIrrelevant | src/components/ConflictViewer.tsx:15-17 | testing the prefixes in reverse order gives the same class |
| ConflictViewer.MarkerLinesHighlighted | src/components/ConflictViewer.tsx:14-19 | the three marker lines of the flattening get their non-empty classes |
| ConflictViewer.Rows | src/components/ConflictViewer.tsx:24-28 | one row per merged line, same order, keyed by index, classed by `LineClass` of its own text |
| ConflictViewer.ConflictRowsHighlighted | src/components/ConflictViewer.tsx:24-28 | for each conflict region, the rows at its three marker positions carry the marker text and the marker classes |
| ConflictViewer.ResolveButton | src/components/ConflictViewer.tsx:30-36 | the button exists exactly when `hasConflict`, and is disabled and greyed exactly while resolving |
| Resolution.SourceOf | src/App.tsx:73-74 | `A` gives local, `B` gives remote, and every other or missing label gives complex, in both directions |
| Resolution.ResolvedCodeLines | src/App.tsx:71 | missing code gives the placeholder line; present code gives its newline-free pieces, which join back to it |
| Resolution.TagLines | src/App.tsx:77 | tagging keeps the lines in order and gives every line the same source |
| Resolution.ResolvedContent | src/App.tsx:70-77 | the stored resolution is non-empty, its lines are those of the code, and all carry the label's source |
| Resolution.ResolvedTextRoundTrip | src/App.tsx:71-77 | the stored lines joined with newlines are exactly the returned code |
| Resolution.MissingCodeGivesPlaceholder | src/App.tsx:71 | missing code yields exactly `['[No resolved code returned]']` |
| Resolution.EmptyCodeGivesEmptyLine | src/App.tsx:71 | an empty code string yields exactly `['']` |
| App.BackgroundClass | src/App.tsx:144-151 | a resolved line has no background exactly when it has no source |
| App.BackgroundClassDistinct | src/App.tsx:144-151 | the three sources get three different backgrounds |
| App.ResolvedRows | src/App.tsx:143-157 | one row per resolved line, same order and text, keyed by index, background by its source |
| App.ResolvedRowsUniform | src/App.tsx:143-157 | after an answer, the rows show the code's lines, all on the same non-empty background of the label's source |
| App.AppState.constructor | src/App.tsx:12-19 | the initial state: empty texts and lists, flags false, no label; the invariant holds |
| App.AppState.SetBase | src/App.tsx:104 | the base input stores its text and nothing else changes |
| App.AppState.SetLocal | src/App.tsx:105 | the local input stores its text and nothing else changes |
| App.AppState.SetRemote | src/App.tsx:106 | the remote input stores its text and nothing else changes |
| App.AppState.DetectConflict | src/App.tsx:25-51 | with an empty text nothing changes; otherwise the merged lines are the flattened merge of the split texts, the flag matches them, and the resolution is cleared |
| App.AppState.StartResolving | src/App.tsx:54 | the component starts resolving; nothing else changes |
| App.AppState.FinishResolving | src/App.tsx:62-83 | a failure changes nothing but the busy flag; an answer stores the label and the tagged lines and switches to the resolved pane, with no resolve button on screen; resolving stops either way |
| App.AppState.ClearInputs | src/App.tsx:86-93 | the three texts, both lists, `hasConflict` and the label are reset to empty, false or null, and neither pane is shown; `isResolving` is kept as it was |
| App.PanesExclusive | src/App.tsx:124-133 | the merged view and the resolved view are never shown together |
| App.ButtonFollowsMarkers | src/App.tsx:124-130 | in a valid state the resolve button is on screen (merged view mounted and button rendered) exactly when no resolution is shown and some merged line starts with `<<<<<<<`; it is disabled exactly while resolving |

## Left out

- The three-way merge itself (`diff3Merge` from `node-diff3`) is not part of this model. It is the parameter `diff3`, so every property holds for any region list the library returns.
- The `fetch` request, the JSON parsing, `alert` and `console.error` are I/O. `FinishResolving` takes the result as an `Outcome`. The request body (the three texts) is not modelled.
- `resolved_code` and `conflict_type` are modelled as optional strings. A non-string `resolved_code` would throw inside `try`; that counts as `Failed`.
- The asynchronous `resolveConflict` is two atomic steps, `StartResolving` and `FinishResolving`, which may interleave with the other handlers. React's batching of state updates is taken as applying all of a handler's updates at its end.
- `src/components/FileInput.tsx` (reading the chosen file) and the `resetFile` calls on its refs in `clearInputs` are not part of this model. The file inputs reach the model only as `SetBase`, `SetLocal` and `SetRemote`.
- The JSX layout, the hover classes, the headings and the "Predicted Resolution" text are presentation. Only the class choices, the rows and the pane conditions are modelled; `ShowsPredictedLabel` carries the label's condition.
- JavaScript strings are UTF-16 code units; Dafny's `char` stands in for them. This makes no difference for splitting on `'\n'` or for prefix tests.
