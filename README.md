# FIBO sweep orchestrator: a verified model of its core

FIBO renders a base JSON prompt document many times, each time with one or
more dotted paths (`camera.fov`, `lighting.intensity`) set to a value taken
from a sweep axis. This project models the logic that decides what the
system does:

- **Sweep-plan expansion**, in its three implementations:
  - the N-dimensional generator of the web app (`advanced_sweep.dfy`);
  - the two-axis `plan-sweep` route (`plan_sweep.dfy`);
  - the ComfyUI node `FIBOParameterSweep` with its extractor (`comfy_sweep.dfy`).

  All three share the dotted-path writer (`nested_path.dfy`) over a JSON value
  type (`json.dfy`).
- **The job routes**: `queue-renders`, `retry-job` and `job-status`, over an
  abstract render queue (`render_jobs.dfy`).
- **The render worker**: status polling, Bria/Fal request and response
  handling, provider routing, and the `<hash>.png` cache short-circuit of the
  job handler (`worker.dfy`).
- **Supporting logic**:
  - the in-memory TTL cache, the cache headers and the tier order of `cachedFetch` (`memory_cache.dfy`);
  - CDN URL rewriting (`cdn.dfy`);
  - the sweep history in browser storage (`history.dfy`);
  - the compare page's recursive JSON diff (`json_diff.dfy`);
  - the export archive's CSV and image selection (`export_csv.dfy`);
  - keyboard shortcuts (`shortcuts.dfy`);
  - the parameter editor (`sweep_builder.dfy`);
  - the grid axis picker (`grid_axis.dfy`);
  - the grid CSS classes (`grid_layout.dfy`);
  - the discrete parts of the image metrics (`image_metrics.dfy`).
- **Shared helpers**: `text.dfy` (split, join, trim, case mapping, decimal
  text), `sequences.dfy` (filter, subsequence), `wrappers.dfy` (Option,
  Result, a list of outcomes) and `arith.dfy`.

## How the source is modelled

- **JSON.** A JSON document is a datatype. Objects are association lists in
  insertion order, because key order shows in diffs, in `Object.keys` and in
  `JSON.stringify`. Assigning to a key keeps its position, and a new key is
  appended. This is the order of Python's dicts. JavaScript lists
  integer-like keys first (see "Left out").
- **Own keys.** An object holds only its own fields. JavaScript's `in` and
  `??=` also see names inherited from `Object.prototype`. The model states
  what that does to the path writers as a finding (see "Findings").
- **Mutation as values.** In-place writes into a document
  (`setNestedValue`, `setAtPath`, `_set_nested_value`) are functions that
  return the new document. A deep copy (`JSON.parse(JSON.stringify(x))`,
  `json.loads(json.dumps(x))`) is therefore the document itself.
- **The two path writers.** The TypeScript generator and the Python node step
  into an existing intermediate whatever it is (the `in` test). `plan-sweep`
  replaces a missing or `null` intermediate with `{}` (`??=`). Both are
  instances of one writer with a rule parameter.
- **Loops.** Code that loops and pushes is a method with a loop, proved equal
  to a specification function. The specification function's properties are
  proved as lemmas. This covers `generateCombinations`, the plan loops, the
  enqueue loop, the parameter loop of each variant, `getParameterValues`,
  `pollStatusUntilComplete`, `findDiffs`, the export image loop, the shortcut
  loop, `formatShortcut` and the image-metric counters.
- **State.** Objects whose state the source changes are classes:
  - the memory cache;
  - the render queue: a job map, a log of the `add`/`remove` calls that took
    effect, and the outcomes of its coming calls in call order, so that a
    route can fail part way through;
  - the worker's file store;
  - browser storage;
  - the parameter editor.
- **The outside world as parameters.** These become parameters:
  - the job-id hash;
  - `JSON.parse`/`JSON.stringify`;
  - `Number`, `float` and `parseInt`;
  - the clock;
  - provider replies;
  - `navigator.platform`.

Where the design description and the code disagree, the model follows the code:

- **Retry.** `retry-job` removes any job with the id whatever its state,
  then adds the job again (packages/web/app/api/retry-job/route.ts:9-28). It
  is not restricted to failed jobs.
- **Status records.** `job-status` records carry
  `jobId, status, progress, result, error`. They carry no attempt counts
  (packages/web/app/api/job-status/route.ts:19-25).
- **Plan values.** `plan-sweep` accepts values of any JSON type. It does not
  reject non-numeric ones (packages/web/app/api/plan-sweep/route.ts:17-18).
- **Perceptual hash length.** The perceptual hash has 63 characters: the 8x8
  block minus its DC term. The doc comment at packages/web/lib/imageMetrics.ts:94
  speaks of a 64-bit hash.

## Model

| member | source | states |
|---|---|---|
| AdvancedSweep.Combos | packages/web/lib/advancedSweep.ts:34-46 | the records pushed from level `i` number the product of the remaining value-list lengths |
| AdvancedSweep.CombosOver | packages/web/lib/advancedSweep.ts:41-44 | the first `|vs|` turns of a level's loop push `|vs|` times the product of the deeper levels |
| AdvancedSweep.ComboAt | packages/web/lib/advancedSweep.ts:34-46 | the independent mixed-radix reading of combination `k` assigns exactly the current keys plus the ids still to assign |
| AdvancedSweep.CombosAgree | packages/web/lib/advancedSweep.ts:42-45 | what is pushed depends on the shared `current` record only outside the ids still to be assigned |
| AdvancedSweep.ProductZero | packages/web/lib/advancedSweep.ts:41-44 | the number of combinations is zero exactly when some value list is empty |
| AdvancedSweep.CombosIndex | packages/web/lib/advancedSweep.ts:40-44 | combination `k` of the recursion is the mixed-radix combination `k`: first parameter outermost, last fastest |
| AdvancedSweep.CombosOverIndex | packages/web/lib/advancedSweep.ts:41-44 | turn `d` of a level's loop fills positions `d*p` to `d*p+p-1` with the deeper records for value `d` |
| AdvancedSweep.GenerateCombinations | packages/web/lib/advancedSweep.ts:34-46 | the recursive procedure appends exactly `Combos` to the shared list and leaves `current` changed only on the ids it assigns |
| AdvancedSweep.CoordinatesOfSpec | packages/web/lib/advancedSweep.ts:56-61 | `coordinates` maps each applied parameter id to the combination's value and holds nothing else |
| AdvancedSweep.DeltasOfSpec | packages/web/lib/advancedSweep.ts:56-61 | `deltas` maps each path not rewritten later to its parameter's value, and holds only swept paths |
| AdvancedSweep.WriteAllReads | packages/web/lib/advancedSweep.ts:56-61 | the variant document holds each parameter's value at its path unless a later path runs into it |
| AdvancedSweep.WriteAllFrame | packages/web/lib/advancedSweep.ts:56-61 | a path that parts from every swept path reads in the variant exactly as in the base |
| AdvancedSweep.WriteAllErrStays | packages/web/lib/advancedSweep.ts:58 | once a path write throws, building the variant throws that error |
| AdvancedSweep.ApplyNonObject | packages/web/lib/advancedSweep.ts:58 | a base that is not an object makes every variant with at least one parameter throw |
| AdvancedSweep.BuildVariant | packages/web/lib/advancedSweep.ts:52-63 | the loop over the parameters builds exactly the specified variant, or its error |
| AdvancedSweep.WriteAllStep | packages/web/lib/advancedSweep.ts:57-60 | one turn writes the value at the path and records it under the path in `deltas` and under the id in `coordinates` |
| AdvancedSweep.ComboAtAssigns | packages/web/lib/advancedSweep.ts:34-48 | every enumerated combination assigns a value to every parameter id |
| AdvancedSweep.CombosComplete | packages/web/lib/advancedSweep.ts:48 | every record `generateCombinations(0, {})` pushes assigns every parameter id |
| AdvancedSweep.ApplyAll | packages/web/lib/advancedSweep.ts:51-64 | mapping the combinations yields one variant per combination, or the first error |
| AdvancedSweep.ApplyAllIndex | packages/web/lib/advancedSweep.ts:51-64 | variant `k` is the variant built from combination `k` |
| AdvancedSweep.ApplyAllErrStays | packages/web/lib/advancedSweep.ts:51-64 | a combination whose write throws makes the whole map throw that error |
| AdvancedSweep.SweepShape | packages/web/lib/advancedSweep.ts:25-65 | no parameters give exactly the base with empty records; otherwise there are as many variants as the product, variant `k` built from combination `k` |
| AdvancedSweep.SweepEmptyAxis | packages/web/lib/advancedSweep.ts:41-48 | a parameter with no values makes the sweep empty |
| AdvancedSweep.MapCombinations | packages/web/lib/advancedSweep.ts:51-64 | the loop over the combinations builds exactly `ApplyAll` |
| AdvancedSweep.GenerateNDimensionalSweep | packages/web/lib/advancedSweep.ts:25-65 | the generator computes exactly the specified sweep |
| AdvancedSweep.FilterVariantsByCoordinates | packages/web/lib/advancedSweep.ts:88-97 | a variant is kept iff it is listed and every fixed coordinate is present in it with that exact value |
| AdvancedSweep.FilterVariantsCounts | packages/web/lib/advancedSweep.ts:92-96 | each matching variant is kept as often as it occurs in the list, and a variant that does not match not at all |
| AdvancedSweep.FilterIsSubsequence | packages/web/lib/advancedSweep.ts:92 | the filtered list keeps the variants' order |
| AdvancedSweep.FilterNothingFixed | packages/web/lib/advancedSweep.ts:93 | an empty filter keeps every variant |
| AdvancedSweep.Insert | packages/web/lib/advancedSweep.ts:109 | inserting into a strictly increasing list keeps it strictly increasing and adds exactly the value |
| AdvancedSweep.GetParameterValues | packages/web/lib/advancedSweep.ts:102-113 | the result is strictly ascending and holds exactly the defined coordinate values of the id |
| NestedPath.PathKeys | packages/web/lib/advancedSweep.ts:71 | a dotted path always splits into at least one key |
| NestedPath.SetPath | packages/web/lib/advancedSweep.ts:70-83 | the write succeeds exactly when the walk never meets a non-object, and then yields an object |
| NestedPath.SetPathReads | packages/web/lib/advancedSweep.ts:82 | after a successful write the value reads back at its path |
| NestedPath.SetPathCreatesIntermediates | packages/web/lib/advancedSweep.ts:74-80 | after a successful write every proper prefix of the path leads to an object |
| NestedPath.SetPathFrame | packages/web/lib/advancedSweep.ts:70-83 | a path that parts from the written one reads exactly as before |
| NestedPath.NullIntermediate | packages/web/app/api/plan-sweep/route.ts:9 | at a `null` intermediate the `in` test throws, while `??=` replaces it with `{}` and goes on |
| NestedPath.AsWrittenAgrees | packages/web/app/api/plan-sweep/route.ts:5-11 | the JavaScript walk leaves the document exactly when some intermediate key is only inherited by an object or, under `??=`, is a property of a boolean, number or string; on every other path it throws exactly when the own-key writer fails, and otherwise writes the same document |
| NestedPath.PrototypePathEscapes | packages/web/app/api/plan-sweep/route.ts:9 | the path `__proto__.p` on `{}` leaves the document at `__proto__` in the JavaScript walk, while the own-key writer writes `{"__proto__": {"p": v}}` |
| NestedPath.PrimitiveMethodEscapes | packages/web/app/api/plan-sweep/route.ts:9 | the path `a.toString.x` on `{"a": 5}` leaves the document at `toString` under `??=`, while the `in` walk and both own-key writers throw at the number |
| JsonValues.GetPresent | packages/web/lib/advancedSweep.ts:76 | a key reads as present exactly when some field carries it |
| JsonValues.Keys | packages/web/app/compare/page.tsx:36 | the keys are the fields' keys, in insertion order |
| JsonValues.Put | packages/web/lib/advancedSweep.ts:82 | after assignment the key reads the new value |
| JsonValues.PutOther | packages/web/lib/advancedSweep.ts:82 | assignment to one key leaves every other key reading as before |
| JsonValues.PutKeys | packages/web/lib/advancedSweep.ts:59 | an existing key keeps its position and a new key is appended last |
| JsonValues.ArrayIndex | packages/web/app/compare/page.tsx:39 | a key denotes an array index only in its canonical decimal form |
| JsonValues.ArrayIndexOf | packages/web/app/compare/page.tsx:39 | the decimal text of an index denotes that index |
| JsonValues.Member | packages/web/app/compare/page.tsx:39-41 | `obj?.[key]` yields a strictly smaller part of the value, or `undefined` |
| Text.Split | packages/web/lib/advancedSweep.ts:71 | `split` always yields at least one piece |
| Text.SplitPieces | packages/web/lib/advancedSweep.ts:71 | no piece of a split contains the separator |
| Text.SplitWithoutSeparator | packages/web/app/components/AdvancedSweepBuilder.tsx:44 | a text without the separator splits into itself |
| Text.JoinSplit | packages/web/lib/cdn.ts:56 | joining the pieces of a split gives back the text |
| Text.SplitJoin | packages/web/hooks/useKeyboardShortcuts.ts:59 | splitting a join of separator-free pieces gives back the pieces |
| Text.LastIndexOf | packages/web/lib/cdn.ts:56 | the result is the last position holding the character, or -1 when there is none |
| Text.NatToString | packages/web/app/components/AdvancedSweepBuilder.tsx:21 | the decimal text of a number is non-empty and all digits |
| Text.ParseNatToString | packages/web/app/components/AdvancedSweepBuilder.tsx:21 | reading the decimal text back gives the number |
| Text.NatToStringInjective | packages/web/app/components/AdvancedSweepBuilder.tsx:21 | distinct numbers have distinct decimal texts |
| Text.Trim | packages/comfyui-fibo-sweep/fibo_sweep_node.py:125 | the result is the text with its leading and trailing whitespace cut off: an infix with only whitespace outside it and none at its ends, empty exactly for an all-whitespace text |
| Text.ToLower | packages/web/hooks/useKeyboardShortcuts.ts:30 | lower-casing maps every character and keeps the length |
| Text.ToUpper | packages/web/hooks/useKeyboardShortcuts.ts:57 | upper-casing maps every character and keeps the length |
| Sequences.FilterSpec | packages/web/app/components/GridAxisSelector.tsx:21-22 | a filter keeps the order, keeps each accepted value as often as it occurs, and keeps no rejected value |
| Sequences.FilterKeepsOrder | packages/web/app/components/GridAxisSelector.tsx:21-22 | a filter keeps the order and drops nothing it accepts |
| Sequences.FilterCounts | packages/web/lib/history.ts:71 | each accepted value occurs in the result as often as in the input, a rejected one not at all |
| Wrappers.AllOkSpec | packages/web/app/api/export/route.ts:26-29 | a list of outcomes succeeds exactly when each does, holding their values in order |
| Wrappers.AllOkErrStays | packages/web/app/api/plan-sweep/route.ts:20-28 | once a prefix of the outcomes fails, the whole list fails with that error |
| PlanSweep.Entries | packages/web/app/api/plan-sweep/route.ts:21-27 | the inner loop has one turn per y value |
| PlanSweep.Cells | packages/web/app/api/plan-sweep/route.ts:21-27 | a successful row has one entry per y value |
| PlanSweep.Rows | packages/web/app/api/plan-sweep/route.ts:20-28 | `n` successful rows hold `n` times the number of y values entries |
| PlanSweep.PlanSweepRoute | packages/web/app/api/plan-sweep/route.ts:15-30 | the nested loops compute exactly the specified plan, or the error the first failing write threw |
| PlanSweep.RowOf | packages/web/app/api/plan-sweep/route.ts:21-27 | the inner loop for one x value computes exactly that row |
| PlanSweep.RowTurn | packages/web/app/api/plan-sweep/route.ts:22-26 | one inner turn appends entry `k` after the `k` before it |
| PlanSweep.EntryOf | packages/web/app/api/plan-sweep/route.ts:22-25 | the loop body clones, writes x, then writes y unless it is `null` |
| PlanSweep.RowsErrStays | packages/web/app/api/plan-sweep/route.ts:20-28 | once a row throws, the route throws that error |
| PlanSweep.PlanLength | packages/web/app/api/plan-sweep/route.ts:17-29 | `variants` is the plan length: `|xs|` without a y axis, `|xs|*|ys|` with one |
| PlanSweep.RowsIndex | packages/web/app/api/plan-sweep/route.ts:20-26 | after `n` rows, entry `d*|ys|+e` is built from x value `d` and y value `e` |
| PlanSweep.PlanIndex | packages/web/app/api/plan-sweep/route.ts:20-26 | plan entry `d*|ys|+e` is built from x value `d` and y value `e`: x outer, y inner |
| PlanSweep.CellsOk | packages/web/app/api/plan-sweep/route.ts:21-27 | a row succeeds exactly when each of its entries does |
| PlanSweep.RowsOk | packages/web/app/api/plan-sweep/route.ts:20-28 | the first `n` rows succeed exactly when every entry in them does |
| PlanSweep.PlanOk | packages/web/app/api/plan-sweep/route.ts:15-30 | the route answers with a plan exactly when every single entry can be written |
| PlanSweep.EntryDeltas | packages/web/app/api/plan-sweep/route.ts:24-25 | deltas hold the x path and value, and the y path and value only when y is not `null`; no other path |
| PlanSweep.EntryReads | packages/web/app/api/plan-sweep/route.ts:22-25 | the entry's document holds the applied y value at its path, and the x value unless the y write overwrote it |
| PlanSweep.EntryFrame | packages/web/app/api/plan-sweep/route.ts:13 | a path that parts from both swept paths reads exactly as in the base |
| ComfySweep.Stripped | packages/comfyui-fibo-sweep/fibo_sweep_node.py:125 | one stripped piece per comma-separated piece |
| ComfySweep.ParseAll | packages/comfyui-fibo-sweep/fibo_sweep_node.py:124-127 | the values convert each piece in order, and conversion fails with the values error exactly when some piece does not parse |
| ComfySweep.ParsedPieces | packages/comfyui-fibo-sweep/fibo_sweep_node.py:125 | the converted pieces are exactly the non-blank stripped pieces, in order, with no outer whitespace |
| ComfySweep.KeptPieces | packages/comfyui-fibo-sweep/fibo_sweep_node.py:125 | dropping blank pieces keeps the others in order |
| ComfySweep.ParseSlots | packages/comfyui-fibo-sweep/fibo_sweep_node.py:65-82 | each slot yields its path with its parsed values, or the values error |
| ComfySweep.Cons | packages/comfyui-fibo-sweep/fibo_sweep_node.py:89 | each tuple gets the value put in front |
| ComfySweep.Extend | packages/comfyui-fibo-sweep/fibo_sweep_node.py:89 | extending by each value in turn multiplies the tuple count |
| ComfySweep.Tuples | packages/comfyui-fibo-sweep/fibo_sweep_node.py:89 | `itertools.product` yields the product of the list lengths |
| ComfySweep.ExtendIndex | packages/comfyui-fibo-sweep/fibo_sweep_node.py:89 | extension position `d*|ts|+e` is value `d` in front of tuple `e` |
| ComfySweep.TuplesIndex | packages/comfyui-fibo-sweep/fibo_sweep_node.py:89-92 | tuple `d*p+e` is value `d` of the first list before tuple `e` of the rest: the last list varies fastest |
| ComfySweep.TuplesAt | packages/comfyui-fibo-sweep/fibo_sweep_node.py:89 | every tuple is some first-list value in front of some tuple of the rest |
| ComfySweep.TuplesShape | packages/comfyui-fibo-sweep/fibo_sweep_node.py:88-89 | every tuple has one value per list, taken from that list |
| ComfySweep.NodeWriteErrStays | packages/comfyui-fibo-sweep/fibo_sweep_node.py:98 | once a path write raises, building the variant raises that error |
| ComfySweep.BuildNodeVariant | packages/comfyui-fibo-sweep/fibo_sweep_node.py:93-104 | the loop over `enumerate(parameters)` builds exactly the specified variant, or its error |
| ComfySweep.NodeDeltasSpec | packages/comfyui-fibo-sweep/fibo_sweep_node.py:96-99 | each path not given again later maps to its combination value, and only parameter paths appear |
| ComfySweep.NodeWriteReads | packages/comfyui-fibo-sweep/fibo_sweep_node.py:129-139 | the variant holds each parameter's value at its path unless a later path runs into it |
| ComfySweep.NodeWriteFrame | packages/comfyui-fibo-sweep/fibo_sweep_node.py:129-139 | a path that parts from every parameter path reads as in the base |
| ComfySweep.ValueLists | packages/comfyui-fibo-sweep/fibo_sweep_node.py:88 | `value_lists` holds each parameter's values in order |
| ComfySweep.Paths | packages/comfyui-fibo-sweep/fibo_sweep_node.py:109 | the metadata `parameters` holds each parameter's path in order |
| ComfySweep.VariantsOf | packages/comfyui-fibo-sweep/fibo_sweep_node.py:91-104 | `n` combinations give `n` variants, or the first error |
| ComfySweep.VariantsErrStays | packages/comfyui-fibo-sweep/fibo_sweep_node.py:91-104 | a combination whose write raises makes the node raise |
| ComfySweep.VariantsIndex | packages/comfyui-fibo-sweep/fibo_sweep_node.py:91-104 | variant `k` is built from combination `k` |
| ComfySweep.FloorDiv | packages/comfyui-fibo-sweep/fibo_sweep_node.py:112 | `//` rounds toward minus infinity for either sign of the divisor |
| ComfySweep.GridRowsCeiling | packages/comfyui-fibo-sweep/fibo_sweep_node.py:111-112 | with at least one column the rows are the ceiling of variants over columns |
| ComfySweep.TuplesWidth | packages/comfyui-fibo-sweep/fibo_sweep_node.py:97 | every combination has one value per parameter |
| ComfySweep.GenerateSweep | packages/comfyui-fibo-sweep/fibo_sweep_node.py:45-120 | the node computes exactly the specified outputs, or the error it raises |
| ComfySweep.SweepNodeShape | packages/comfyui-fibo-sweep/fibo_sweep_node.py:88-120 | the variant count is the product of the list lengths and equals `total_count` and `total_variants`; the paths come in slot order; variant `k` is product tuple `k` written into the base |
| ComfySweep.SweepNodeErrors | packages/comfyui-fibo-sweep/fibo_sweep_node.py:59-85 | invalid base JSON raises first, then invalid values; no used slot raises exactly when no slot has both path and values |
| ComfySweep.ExtractRoundTrip | packages/comfyui-fibo-sweep/fibo_sweep_node.py:161-175 | on the node's own output: an index at or past the count raises, an index in range returns that variant's json and deltas, a negative one counts from the end |
| RenderJobs.RenderOptions | packages/web/app/api/queue-renders/route.ts:15-24 | the job id is the one given, with 3 attempts, exponential backoff 2000, remove on complete, keep on fail |
| RenderJobs.RenderQueue.constructor | packages/web/app/api/queue-renders/route.ts:2 | a queue starts with the given jobs, no calls and the given outcomes |
| RenderJobs.RenderQueue.GetJob | packages/web/app/api/retry-job/route.ts:9 | `getJob` uses up one outcome and returns the job under the id or nothing, or throws that outcome's message; it changes no job |
| RenderJobs.RenderQueue.Add | packages/web/app/api/queue-renders/route.ts:12-25 | `add` uses up one outcome; when it succeeds it logs the call and adds a new id as a waiting job, a present id keeping its job; when it throws nothing changes |
| RenderJobs.RenderQueue.Remove | packages/web/app/api/retry-job/route.ts:11 | `remove` uses up one outcome; when it succeeds it deletes exactly that job and logs the call; when it throws nothing changes |
| RenderJobs.PlanJsons | packages/web/app/api/queue-renders/route.ts:8 | destructuring yields one document per plan entry |
| RenderJobs.PlanJsonsSpec | packages/web/app/api/queue-renders/route.ts:8 | the plan destructures exactly when every entry does, entry by entry |
| RenderJobs.PlanJsonsErrStays | packages/web/app/api/queue-renders/route.ts:8 | an entry that cannot be destructured makes the route fail |
| RenderJobs.SubmitCalls | packages/web/app/api/queue-renders/route.ts:12-25 | one `add` call per document |
| RenderJobs.EnqueuedOf | packages/web/app/api/queue-renders/route.ts:26 | one `enqueued` record per document |
| RenderJobs.SubmissionsInOrder | packages/web/app/api/queue-renders/route.ts:8-26 | call `i` and record `i` belong to document `i`, the job id is the hash of `{json, modelVersion, seed}` and no record is cached |
| RenderJobs.JobsAfterAdds | packages/web/app/api/queue-renders/route.ts:12-25 | after the adds every added id is present and every earlier job is kept |
| RenderJobs.Submit | packages/web/app/api/queue-renders/route.ts:9-26 | one turn: the seed defaults to 1337, the id is the hash, and the `add` either succeeds, logging the call and returning the record, or throws and changes nothing |
| RenderJobs.QueueRenders | packages/web/app/api/queue-renders/route.ts:5-29 | the route answers exactly when no turn throws, with one uncached record per entry in plan order after exactly the matching `add` calls; otherwise it rejects with the error of the first turn that throws, a bad entry or a failing `add`, and the jobs of the entries before that turn stay queued |
| RenderJobs.QueueTurn | packages/web/app/api/queue-renders/route.ts:8-26 | turn `i` throws exactly when entry `i` cannot be destructured or call `i` fails, and then changes nothing; otherwise it submits its document after the earlier ones |
| RenderJobs.SubmitNext | packages/web/app/api/queue-renders/route.ts:9-26 | submitting one more document either extends the calls and jobs by its own or throws and changes nothing |
| RenderJobs.SubmissionsSnoc | packages/web/app/api/queue-renders/route.ts:8-26 | the calls and records of one more document are those before it plus its own |
| RenderJobs.JobsAfterStep | packages/web/app/api/queue-renders/route.ts:12-25 | adding one more call acts on the jobs after the earlier calls |
| RenderJobs.RetryJob | packages/web/app/api/retry-job/route.ts:4-34 | succeeds exactly when `getJob`, the `remove` of a present job and the `add` all succeed: the job is then a new waiting job under the same id with the same options; the first call that throws answers `success: false` with status 500; a throwing `getJob` or `remove` changes nothing, while a throwing `add` after a successful `remove` leaves the job deleted |
| RenderJobs.Status | packages/web/app/api/job-status/route.ts:8-26 | an absent id is `unknown`; a present job reports its state, progress, return value and failed reason |
| RenderJobs.Statuses | packages/web/app/api/job-status/route.ts:7-27 | one record per requested id, in request order |
| RenderJobs.FirstFailure | packages/web/app/api/job-status/route.ts:7-8 | no failure among the first `n` calls exactly when each succeeds; otherwise the failure of the first call that fails |
| RenderJobs.DropNext | packages/web/app/api/queue-renders/route.ts:8-12 | after `n` calls the next call is call `n`, and one more call leaves the calls after `n + 1` |
| RenderJobs.JobStatus | packages/web/app/api/job-status/route.ts:4-30 | makes one `getJob` per id and adds or removes nothing; rejects with the first failing call's message when any throws, and otherwise answers one record per id in request order |
| Worker.Configure | packages/worker/src/index.ts:10-22 | the provider is Bria unless set otherwise, the model version is never empty, and the Bria token falls back to `FIBO_API_KEY` |
| Worker.Attempt | packages/worker/src/index.ts:38-51 | a poll fails on a non-OK reply, returns on completed or success, fails on failed or error, and keeps polling otherwise |
| Worker.PollFromSpec | packages/worker/src/index.ts:34-55 | polling stops at the first poll with a verdict, every earlier one saying keep polling, or times out after all remaining attempts |
| Worker.PollStatusUntilComplete | packages/worker/src/index.ts:34-55 | the loop computes exactly the specified result and attempt count |
| Worker.PollBounded | packages/worker/src/index.ts:35 | at most `maxAttempts` status requests, and a timeout exactly when all of them say keep polling |
| Worker.PollMakesRequest | packages/worker/src/index.ts:35-38 | with at least one attempt allowed, polling makes a status request |
| Worker.DefinedAppend | packages/worker/src/index.ts:77-91 | `JSON.stringify` drops undefined members piecewise |
| Worker.BriaBodyShape | packages/worker/src/index.ts:77-91 | Bria's body names the configured model version whatever the job says, and carries an object prompt as a stringified `structured_prompt`, anything else as `prompt` |
| Worker.DefinedMissing | packages/worker/src/index.ts:77-91 | a member the literal does not list is absent from the body |
| Worker.StatusGets | packages/worker/src/index.ts:38 | each poll is one status request with the token header |
| Worker.Download | packages/worker/src/index.ts:60-67 | a download adds one image request and succeeds exactly on an OK reply |
| Worker.Or | packages/worker/src/index.ts:117 | `a \|\| b` is truthy iff either is, and is `a` when `a` is truthy |
| Worker.RenderRequests | packages/worker/src/index.ts:186-194 | a missing credential fails before any request; otherwise the first request posts to the routed provider, and Bria polls at most 60 times |
| Worker.BriaStatusUrlFirst | packages/worker/src/index.ts:110-123 | a `status_url` is polled even when an `image_url` is present, and the image downloaded is the completed poll's `image_url`, else its `result.image_url` |
| Worker.FalImageChoice | packages/worker/src/index.ts:175-178 | Fal downloads `image.url`, else `images[0].url`, and fails with neither |
| Worker.RenderWithBria | packages/worker/src/index.ts:72-131 | the straight-line code around the polling loop computes exactly the specified outcome and requests |
| Worker.FileStore.constructor | packages/worker/src/index.ts:9 | the store starts with the given files |
| Worker.HandleJob | packages/worker/src/index.ts:196-211 | a stored `<hash>.png` is returned as cached with no request; otherwise the render is written there and returned uncached; both point at `/api/images/<hash>.png` |
| MemoryCaches.AfterGet | packages/web/lib/cache.ts:36-47 | `get` changes no key other than the one read |
| MemoryCaches.MemoryCache.constructor | packages/web/lib/cache.ts:26 | a cache starts empty |
| MemoryCaches.MemoryCache.Set | packages/web/lib/cache.ts:28-34 | `set` stores the entry stamped now and leaves other keys alone |
| MemoryCaches.MemoryCache.Get | packages/web/lib/cache.ts:36-47 | `get` returns the lookup and evicts an expired entry |
| MemoryCaches.MemoryCache.Has | packages/web/lib/cache.ts:49-51 | `has` is `get(key) !== null`, eviction included |
| MemoryCaches.MemoryCache.Delete | packages/web/lib/cache.ts:53-55 | `delete` removes exactly that key |
| MemoryCaches.MemoryCache.Clear | packages/web/lib/cache.ts:57-59 | `clear` empties the cache |
| MemoryCaches.LookupFresh | packages/web/lib/cache.ts:40-46 | an entry whose age is at most its ttl is returned and kept |
| MemoryCaches.LookupExpired | packages/web/lib/cache.ts:40-44 | an expired entry reads `null` and is removed, so the size drops by one |
| MemoryCaches.LookupMissing | packages/web/lib/cache.ts:37-38 | a missing key reads `null` and changes nothing |
| MemoryCaches.SetThenLookup | packages/web/lib/cache.ts:28-47 | after `set`, the value is returned until its ttl has passed, and other keys read as before |
| MemoryCaches.StoredNullIsAbsent | packages/web/lib/cache.ts:49-51 | a stored `null` makes `has` false although the entry stays |
| MemoryCaches.CacheHeaders | packages/web/lib/cache.ts:181-189 | exactly the three cache headers, in order |
| MemoryCaches.DefaultCacheHeaders | packages/web/lib/cache.ts:16-20 | without overrides the headers say max-age 86400 and stale-while-revalidate 604800 |
| MemoryCaches.HeadersAgree | packages/web/lib/cache.ts:183-188 | all three headers carry the same max-age, and only `Cache-Control` adds stale-while-revalidate |
| MemoryCaches.CachedFetch | packages/web/lib/cache.ts:194-230 | a memory hit consults nothing else; an IndexedDB hit is copied into memory for 3600000 ms; otherwise the network answer is stored in both tiers |
| Cdn.LastIndexOfTail | packages/web/lib/cdn.ts:56 | the last '/' of a text is its tail's shifted by one, else the head's |
| Cdn.SplitSingle | packages/web/lib/cdn.ts:56 | a split yields one piece exactly when the separator is absent |
| Cdn.FileNameAfterLastSlash | packages/web/lib/cdn.ts:56 | the file name is the text after the last '/', or the whole path without one |
| Cdn.FileNameSlashInTail | packages/web/lib/cdn.ts:56 | with a '/' in the tail, the file name follows the tail's last '/' |
| Cdn.FileNameSlashAtHead | packages/web/lib/cdn.ts:56 | with only a leading '/', the file name is the rest |
| Cdn.FileNameNoSlash | packages/web/lib/cdn.ts:56 | a path without '/' is its own file name |
| Cdn.FileNameSkipsHead | packages/web/lib/cdn.ts:56 | a first character before a later '/' is not part of the file name |
| Cdn.StemSpec | packages/web/lib/cdn.ts:57 | the stem drops exactly a final `.ext` free of '/' and '.', and keeps a name without one |
| Cdn.QueryEmpty | packages/web/lib/cdn.ts:92-93 | the query string is empty exactly when there are no parameters |
| Cdn.TransformCloudFrontUrl | packages/web/lib/cdn.ts:81-94 | appending parameters computes exactly the specified CloudFront URL |
| Cdn.CloudFrontShape | packages/web/lib/cdn.ts:81-94 | the URL is `base/stem.format`; quality is sent first and only below 100, then width and height; no '?' without parameters |
| Cdn.CloudFrontDefaults | packages/web/lib/cdn.ts:82-83 | without transformations CloudFront serves `stem.webp?quality=85` |
| Cdn.TransformCloudinaryUrl | packages/web/lib/cdn.ts:100-129 | pushing transformations computes exactly the specified Cloudinary URL, or its error |
| Cdn.CloudinaryShape | packages/web/lib/cdn.ts:100-129 | fails exactly without a cloud name; the quality comes first (`q_auto` when unset), then the format; the URL ends `/stem.png` |
| Cdn.CloudflareUrl | packages/web/lib/cdn.ts:135-145 | fails exactly without an account hash |
| Cdn.CdnUrlCases | packages/web/lib/cdn.ts:47-75 | provider `none`, a missing base URL or an unknown provider return the path unchanged; only Cloudinary and Cloudflare fail, each for its own setting; `custom` keeps the file name's extension |
| SweepHistory.BrowserStorage.constructor | packages/web/lib/history.ts:31 | storage starts with the given items |
| SweepHistory.BrowserStorage.SetItem | packages/web/lib/history.ts:55 | `setItem` stores the text unless the store is full |
| SweepHistory.BrowserStorage.RemoveItem | packages/web/lib/history.ts:85 | `removeItem` removes exactly that key |
| SweepHistory.GetHistory | packages/web/lib/history.ts:27-38 | nothing stored or unparsable data gives `[]` |
| SweepHistory.Take | packages/web/lib/history.ts:54 | `slice(0, n)` is the longest prefix of at most `n` elements |
| SweepHistory.NewSession | packages/web/lib/history.ts:46-50 | the new session carries the given id and timestamp |
| SweepHistory.PrependedShape | packages/web/lib/history.ts:21-54 | the new history starts with the new session, keeps the old order after it, holds at most 20 entries, and drops only the oldest |
| SweepHistory.SaveToHistory | packages/web/lib/history.ts:43-61 | the new session is returned whether or not the write succeeds; the stored history becomes the prepended list only when the write can happen |
| SweepHistory.RemainingSpec | packages/web/lib/history.ts:71 | deleting keeps every other session in order, each as often as before, and drops every session with the id |
| SweepHistory.DeleteFromHistory | packages/web/lib/history.ts:66-76 | the stored history becomes the remaining sessions when the write can happen |
| SweepHistory.ClearHistory | packages/web/lib/history.ts:81-89 | only the history key is removed |
| SweepHistory.ClearedHistoryEmpty | packages/web/lib/history.ts:85 | after clearing, `getHistory` is `[]` |
| SweepHistory.ReadBack | packages/web/lib/history.ts:31-33 | a value written under a key reads back when its text parses to it |
| SweepHistory.SavedHistoryBounded | packages/web/lib/history.ts:53-55 | a saved history reads back with at most 20 entries, the new session first |
| SweepHistory.LoadCurrentSession | packages/web/lib/history.ts:107-118 | nothing stored or unparsable data gives `null` |
| SweepHistory.SaveCurrentSession | packages/web/lib/history.ts:94-102 | the session text is stored unless the store is full |
| SweepHistory.ClearCurrentSession | packages/web/lib/history.ts:123-131 | only the current-session key is removed |
| SweepHistory.CurrentSessionRoundTrip | packages/web/lib/history.ts:98-126 | save then load gives the data back and leaves the history alone; after a clear, load gives `null` |
| JsonDiff.Dedup | packages/web/app/compare/page.tsx:36 | the set keeps exactly the keys, each once |
| JsonDiff.DedupPrefix | packages/web/app/compare/page.tsx:36 | the keys of the first object come first |
| JsonDiff.UnionKeysSpec | packages/web/app/compare/page.tsx:36 | the visited keys are each key of either object once, `obj1`'s first |
| JsonDiff.ChildPath | packages/web/app/compare/page.tsx:38 | a child path is `parent.key`, and a top-level key has no leading dot |
| JsonDiff.CompareDocuments | packages/web/app/compare/page.tsx:16-50 | a `null` document throws before any diff; otherwise every line reports two values that differ, and identical documents give none |
| JsonDiff.FindDiffs | packages/web/app/compare/page.tsx:28-47 | the recursive procedure appends exactly the specified lines to the shared list |
| JsonDiff.VisitKeys | packages/web/app/compare/page.tsx:37-46 | the `forEach` appends the lines of each key in turn |
| JsonDiff.VisitKey | packages/web/app/compare/page.tsx:38-45 | one key recurses when both children are objects, and otherwise adds one line when they differ |
| JsonDiff.KeysDiffsSnoc | packages/web/app/compare/page.tsx:37-46 | one more key appends its own lines |
| JsonDiff.TopLevelPrimitives | packages/web/app/compare/page.tsx:29-33 | two non-object values give one line when they differ and none when equal |
| JsonDiff.DiffsDiffer | packages/web/app/compare/page.tsx:28-47 | every line reports two values that are not `===` |
| JsonDiff.KeysDiffsDiffer | packages/web/app/compare/page.tsx:37-46 | every line from the key loop reports two values that are not `===` |
| JsonDiff.DiffsOfCopy | packages/web/app/compare/page.tsx:39-44 | a document compared with a copy of itself gives no line, although nested objects are never `===` |
| JsonDiff.KeysDiffsOfCopy | packages/web/app/compare/page.tsx:37-46 | the key loop over a copy gives no line |
| ExportArchive.TrimTrailingSlashes | packages/web/app/api/export/route.ts:27 | the result is the path minus a run of trailing slashes |
| ExportArchive.BaseName | packages/web/app/api/export/route.ts:27 | a base name holds no '/' |
| ExportArchive.BaseNameSpec | packages/web/app/api/export/route.ts:27 | a path without '/' is its own base name; otherwise the base name is what follows a '/' |
| ExportArchive.ImageFiles | packages/web/app/api/export/route.ts:27 | one image-file outcome per job |
| ExportArchive.Rows | packages/web/app/api/export/route.ts:26-29 | one row per job |
| ExportArchive.RowsOk | packages/web/app/api/export/route.ts:26-29 | the rows exist exactly when every job's image file can be computed |
| ExportArchive.RowsValues | packages/web/app/api/export/route.ts:26-28 | row `i` is job `i`'s, numbered `i + 1`, with its image file or `N/A` and its cached flag |
| ExportArchive.Csv | packages/web/app/api/export/route.ts:25-30 | the CSV starts with the header line |
| ExportArchive.CsvLines | packages/web/app/api/export/route.ts:25-30 | the lines are the header then the rows, with no trailing newline after the last row |
| ExportArchive.HeaderHasOneLine | packages/web/app/api/export/route.ts:25 | the header holds no newline of its own |
| ExportArchive.ImageEntriesStep | packages/web/app/api/export/route.ts:33-44 | one more job adds its own entry if it has one |
| ExportArchive.ImageEntriesLength | packages/web/app/api/export/route.ts:33-44 | at most one image entry per job |
| ExportArchive.ImageEntriesSound | packages/web/app/api/export/route.ts:34-39 | every entry is `images/<basename>` of a readable file of a completed job with a url |
| ExportArchive.ImageEntriesComplete | packages/web/app/api/export/route.ts:34-42 | every completed job with a readable image gets its entry; an unreadable one is skipped |
| ExportArchive.AddImages | packages/web/app/api/export/route.ts:33-44 | the loop computes exactly the specified image entries |
| ExportArchive.Export | packages/web/app/api/export/route.ts:7-47 | succeeds exactly when the jobs are an array whose rows can be built; then base.json, sweep.json and variants.csv come first, followed by at most one image per job |
| KeyboardShortcuts.FirstMatch | packages/web/hooks/useKeyboardShortcuts.ts:25-37 | the result is the first matching shortcut, or none when no shortcut matches |
| KeyboardShortcuts.HandleKeyDown | packages/web/hooks/useKeyboardShortcuts.ts:24-38 | the loop fires exactly the first match, and `preventDefault` is called iff some shortcut matches |
| KeyboardShortcuts.FirstMatchUnique | packages/web/hooks/useKeyboardShortcuts.ts:32-35 | the first match is the only matching index with no match before it |
| KeyboardShortcuts.MatchIgnoresCase | packages/web/hooks/useKeyboardShortcuts.ts:30 | matching does not depend on the case of the event's key |
| KeyboardShortcuts.UndefinedModifierAcceptsBoth | packages/web/hooks/useKeyboardShortcuts.ts:26-29 | undefined modifiers accept either state, so only the key decides |
| KeyboardShortcuts.FormatShortcut | packages/web/hooks/useKeyboardShortcuts.ts:48-60 | pushing the tokens and joining computes the label of the specified tokens |
| KeyboardShortcuts.FormatShape | packages/web/hooks/useKeyboardShortcuts.ts:49-59 | the label splits back into its tokens: one command token when ctrl or meta is set (`⌘` on Mac), then Shift, then Alt, then the key |
| SweepBuilder.Reduced | packages/web/app/components/AdvancedSweepBuilder.tsx:55-57 | the reduction is at least 1 |
| SweepBuilder.TotalCombinations | packages/web/app/components/AdvancedSweepBuilder.tsx:53-58 | the count is 0 exactly when there are no parameters |
| SweepBuilder.ProductSnoc | packages/web/app/components/AdvancedSweepBuilder.tsx:55-57 | the product over a list is that over all but the last, times the last |
| SweepBuilder.ReducedIsProduct | packages/web/app/components/AdvancedSweepBuilder.tsx:55-57 | with every values list non-empty, the reduction is the generator's combination count |
| SweepBuilder.TotalVersusGenerated | packages/web/app/components/AdvancedSweepBuilder.tsx:53-58 | the shown count and the generated count differ exactly with no parameters (0 against 1) or an empty values list (at least 1 against 0) |
| SweepBuilder.WithField | packages/web/app/components/AdvancedSweepBuilder.tsx:36 | `{ ...p, [field]: value }` changes only the named field |
| SweepBuilder.UpdatedAll | packages/web/app/components/AdvancedSweepBuilder.tsx:34-37 | only entries with the id are updated, the others are kept, in order |
| SweepBuilder.WithoutIdSpec | packages/web/app/components/AdvancedSweepBuilder.tsx:28-29 | removing keeps every other parameter in order, each as often as before, and none with the id |
| SweepBuilder.Numbers | packages/web/app/components/AdvancedSweepBuilder.tsx:46-48 | a value is kept iff some non-blank piece reads as it |
| SweepBuilder.Qualifying | packages/web/app/components/AdvancedSweepBuilder.tsx:46-48 | the positions of the pieces that are non-blank and read as a number: strictly increasing, and every such position |
| SweepBuilder.NumbersInOrder | packages/web/app/components/AdvancedSweepBuilder.tsx:46-48 | one value per qualifying piece, value `k` being the number of the `k`-th one |
| SweepBuilder.TrimmedPieces | packages/web/app/components/AdvancedSweepBuilder.tsx:43-45 | one trimmed piece per comma-separated piece |
| SweepBuilder.ParseValuesSpec | packages/web/app/components/AdvancedSweepBuilder.tsx:42-48 | value `k` is the number of the `k`-th trimmed piece that is non-blank and not `NaN`, so order and repeats are kept; a value is kept iff such a piece reads as it; never more values than pieces, none for a blank field |
| SweepBuilder.NumbersOfBlanks | packages/web/app/components/AdvancedSweepBuilder.tsx:46 | blank pieces give no values |
| SweepBuilder.Editor.constructor | packages/web/app/components/AdvancedSweepBuilder.tsx:14 | the editor starts with the initial parameters and nothing reported |
| SweepBuilder.Editor.AddParameter | packages/web/app/components/AdvancedSweepBuilder.tsx:16-26 | appends one parameter with no path or values, labelled `Parameter n+1`, and reports the new list |
| SweepBuilder.Editor.RemoveParameter | packages/web/app/components/AdvancedSweepBuilder.tsx:28-32 | the list becomes the parameters without the id, and is reported |
| SweepBuilder.Editor.UpdateParameter | packages/web/app/components/AdvancedSweepBuilder.tsx:34-40 | the list becomes the updated list, and is reported |
| SweepBuilder.Editor.UpdateParameterValues | packages/web/app/components/AdvancedSweepBuilder.tsx:42-51 | the parsed values are stored on the entries with the id |
| SweepBuilder.AddKeepsTotal | packages/web/app/components/AdvancedSweepBuilder.tsx:16-26 | adding a parameter with no values leaves a non-zero count unchanged |
| GridAxis.Options | packages/web/app/components/GridAxisSelector.tsx:42-46 | one option per candidate, captioned by label or path, disabled iff it is the other axis's choice |
| GridAxis.IndexOf | packages/web/app/components/GridAxisSelector.tsx:76 | the first position holding the value, or -1 when absent |
| GridAxis.Sliders | packages/web/app/components/GridAxisSelector.tsx:74-76 | one slider per fixed parameter, at its fixed value or else its first value |
| GridAxis.SubsequenceKeeps | packages/web/app/components/GridAxisSelector.tsx:22 | a filtered list keeps any property of the list it comes from |
| GridAxis.AvailableSpec | packages/web/app/components/GridAxisSelector.tsx:21 | the candidates are exactly the parameters with values, in order |
| GridAxis.SubsequenceMember | packages/web/app/components/GridAxisSelector.tsx:22 | every element of a filtered list is in the original |
| GridAxis.RenderSpec | packages/web/app/components/GridAxisSelector.tsx:21-76 | hidden with fewer than two candidates; otherwise each select lists every candidate with the other axis disabled, and the sliders are the other candidates at their fixed value or first value |
| GridLayout.ColumnClassSpec | packages/web/app/components/GridLayoutControls.tsx:88-96 | 2 columns give `grid-cols-2`, 3 to 8 give `md:grid-cols-N`, any other count `md:grid-cols-4` |
| GridLayout.SizeScale | packages/web/app/components/GridLayoutControls.tsx:98-112 | small, medium and large give gap-2/4/6 and max-h-32/48/64 |
| GridLayout.ClassesHaveNoSpace | packages/web/app/components/GridLayoutControls.tsx:88-102 | no column or gap class holds a space |
| GridLayout.GridClassesTokens | packages/web/app/components/GridLayoutControls.tsx:104 | the classes are exactly `grid`, `grid-cols-1`, the column class and the gap class |
| ImageMetrics.LowFreqUpTo | packages/web/lib/imageMetrics.ts:108-115 | the first `n` cells give `n - 1` coefficients without the DC term |
| ImageMetrics.Cell | packages/web/lib/imageMetrics.ts:112 | block cell `(y, x)` is DCT index `y*32 + x` |
| ImageMetrics.LowFrequencies | packages/web/lib/imageMetrics.ts:108-115 | the nested loop collects the 63 low frequencies in row order |
| ImageMetrics.HashBits | packages/web/lib/imageMetrics.ts:122-125 | one character per coefficient: `1` above the median, else `0` |
| ImageMetrics.PerceptualHash | packages/web/lib/imageMetrics.ts:107-127 | the hash has 63 characters, each `0` or `1`, and character `k` is `1` iff block cell `k + 1` is above the median |
| ImageMetrics.Hamming | packages/web/lib/imageMetrics.ts:139-144 | the difference count is at most the length |
| ImageMetrics.HammingSymmetric | packages/web/lib/imageMetrics.ts:139-144 | the difference count does not depend on the order of the hashes |
| ImageMetrics.HammingZero | packages/web/lib/imageMetrics.ts:139-144 | the difference count is 0 exactly for equal hashes |
| ImageMetrics.HashSimilarity | packages/web/lib/imageMetrics.ts:134-147 | throws on different lengths; otherwise `1 - differences / length` |
| ImageMetrics.SimilaritySpec | packages/web/lib/imageMetrics.ts:139-146 | for non-empty equal-length hashes the similarity lies in [0, 1], is symmetric, and is 1 exactly for identical hashes |
| ImageMetrics.RatioBounds | packages/web/lib/imageMetrics.ts:146 | a count over a larger positive length lies in [0, 1], and is 0 exactly for count 0 |
| ImageMetrics.PerceptualHashesComparable | packages/web/lib/imageMetrics.ts:134-147 | two perceptual hashes always compare to a number |
| ImageMetrics.DifferentPixels | packages/web/lib/imageMetrics.ts:164-179 | no more differing pixels than pixels looked at |
| ImageMetrics.PixelDifference | packages/web/lib/imageMetrics.ts:152-182 | throws on different sizes; otherwise the percentage of differing pixels |
| ImageMetrics.IdenticalNoDifferences | packages/web/lib/imageMetrics.ts:172-178 | identical pixels never differ under a non-negative threshold |
| ImageMetrics.IdenticalIsZero | packages/web/lib/imageMetrics.ts:152-182 | a buffer compared with itself gives 0 % |
| ImageMetrics.PartialPixelNotCounted | packages/web/lib/imageMetrics.ts:164-176 | a last pixel missing its blue byte is never counted |
| ImageMetrics.PercentageBounded | packages/web/lib/imageMetrics.ts:161-181 | for whole pixels, or a last pixel missing its blue byte, the percentage lies in [0, 100] |
| ImageMetrics.PercentBound | packages/web/lib/imageMetrics.ts:181 | a count of at most a quarter of the length gives at most 100 % |
| ImageMetrics.ThreeBytesExceedHundred | packages/web/lib/imageMetrics.ts:162-181 | a three-byte buffer counts as 400/3 % |

## Findings

| source | as written | input that shows it | evidently intended | confidence | as-written member | corrected member |
|---|---|---|---|---|---|---|
| packages/web/app/api/plan-sweep/route.ts:9 | `cur[s] ??= {}` treats a key inherited from `Object.prototype` as present, so the walk steps into the shared prototype | a request whose sweep path is `__proto__.p`: the value is written onto `Object.prototype` of the server process, and every object then shows a `p`; likewise `a.toString.x` over `{"a": 5}` writes onto `Number.prototype.toString` | the write stays inside the cloned document, as for any other key | not executed | NestedPath.PrototypePathEscapes | NestedPath.SetPathFrame |

## Left out

- I/O is left out. HTTP, the filesystem, IndexedDB, `localStorage` and the ZIP archive are not called.
  - Their effects are maps or parameters: provider replies, the file store, browser storage and archive entries.
  - Path joins under `STORAGE_DIR`, archive streaming and `Content-Disposition` are not modelled.
- Time is a parameter. `setTimeout`, the 2 s poll delay and `Date.now` are left out. The model keeps only attempt counts and an explicit `now`.
- Aliasing and in-place update of JSON documents are not captured. Documents are values, so "the base is not mutated" holds by construction rather than being proved about a copy.
- Arrays on a dotted path are left out in JavaScript. A write that steps into an array is a `TypeError` in the model, as in Python's `_set_nested_value`, whereas JavaScript would index or set a property on it.
- Floating point is left out. Numbers are reals, and the following are oracles:
  - `Number`, `parseFloat`, `float` and `parseInt`;
  - `Math.sqrt`, which is compared through squares.

  `NaN` appears only where a division by zero can produce it.
- `JSON.stringify`, `JSON.parse` and `json.dumps` are oracles. Pretty-printing, `undefined` members inside arrays and duplicate keys in parsed text are not modelled.
- `stableHash` is an uninterpreted function of the key object. Its SHA-256 and 16-character truncation are left out, and ids are not claimed to ignore field order.
- BullMQ itself is an abstract job map. Attempt counting, backoff scheduling, worker delivery, `getState` and duplicate-id suppression beyond "a present id keeps its job" are not modelled.
- Concurrency between workers is left out.
- Case mapping and whitespace are ASCII only. `toLowerCase`/`toUpperCase`, `trim()` and Python's `strip()` also act on other Unicode characters. Python's `strip()` also removes the ASCII separators `\x1c` to `\x1f`, which `trim()` and the model keep.
- CDN numbers are integers. `getCDNConfig` (environment reading), `isImageCached` and `preloadImages` are left out.
- MemoryCaches.CacheHeaders: the max-age is a natural number or absent. `getCacheHeaders` interpolates any number, and an explicit `maxAge: undefined` prints `max-age=undefined`.
- `typeof window === 'undefined'` branches are left out. In history.ts they return defaults on the server. The model describes the browser path.
- The `catch` branches of history.ts that handle a failed `JSON.parse` are covered by the parse oracle returning nothing. Only a full store makes a write fail.
- The perceptual hash's resize, grayscale, DCT and median are left out. The hash is built from a given DCT and median. SSIM and `loadImageData` are left out.
- React rendering, event listeners and the compare page's UI parts are left out. The grid axis picker and the grid classes are modelled as values.
- NestedPath.SetPath: keys are the object's own keys only. In the JavaScript writers, an intermediate key inherited from `Object.prototype` takes the walk out of the document (see "Findings"). Examples are `__proto__.p`, where `plan-sweep` writes onto `Object.prototype`, `toString.a`, which writes onto the shared function, and `constructor.name`, which throws on a read-only property. Under `??=` a boolean, number or string on the path does the same with a property it has, such as `toString` on a number or `length` on a string (`NestedPath.PrimitiveMethodEscapes`). `NestedPath.SetPathFrame`, `PlanSweep.EntryFrame` and `AdvancedSweep.WriteAllFrame` hold for the document, not for these shared objects. Assigning to a last key `__proto__` sets the prototype in JavaScript instead of adding a field; that is not modelled either. Python's writer is not affected.
- JsonDiff.VisitKey: a key that only one object owns reads as absent on the other side. On the compare page `obj2[key]` also finds inherited names: `__proto__` gives `Object.prototype`, so the page recurses into it, and `constructor` or `toString` give a function, which prints as a difference of another kind. Only own keys are modelled.
- JsonValues.GetPresent: states own fields only. JavaScript's `key in obj` is also true for inherited names; `NestedPath.SetPathAsWritten` models that for the path writers.
- JsonValues.PutKeys: states Python's order. JavaScript puts a new integer-like key (such as `"2"`) before the other keys, in ascending order, rather than last. This affects `deltas` in advancedSweep.ts and plan-sweep, and `Object.keys` on the compare page, and it is not modelled.
- RenderJobs.JobStatus: when several `getJob` calls started by `Promise.all` throw, the route rejects with whichever settles first. The model takes the first in request order. `getState` is read as the job's state and never throws.
- ImageMetrics.PercentageBounded: holds only when the buffer length is not 3 more than a multiple of 4. ImageMetrics.ThreeBytesExceedHundred shows a three-byte buffer yielding 400/3 %, because the last partial pixel is counted while the divisor `length / 4` is fractional.
- KeyboardShortcuts.FormatShape: states only that ctrl or meta implies the command token comes first, not the converse. It also requires the key to hold no `+`, since a `+` key makes the label ambiguous.
- ComfySweep.GridRowsCeiling: covers columns of at least one. Zero columns raise `ZeroDivisionError`, and negative counts give Python's floor division, which `ComfySweep.FloorDiv` states.
- `packages/web/lib/distributions.ts`, `packages/web/lib/validation.ts`, `packages/web/lib/queue.ts` and the UI-only components are not part of this model.
