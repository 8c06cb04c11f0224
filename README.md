# manycore_parser: the construction pipeline, in Dafny

This project models the part of `ManycoreSystem::parse_file` that runs after the XML decoder
has produced a system record (src/lib.rs:93-191). It also models the `Router` record
(src/router.rs). The pipeline takes a grid of `rows * columns` cores and does, in order:

1. It checks the core count.
2. It sorts the cores by id, in place.
3. It walks the sorted cores, failing fast at the first id that breaks the sequence
   0, 1, 2, ….
4. For each accepted core it:
   - derives the core's matrix-edge flags;
   - records the core's allocated task in the task → core map;
   - overwrites the router's id with the core's index;
   - feeds the core's, the router's and the channels' attribute bags to three attribute
     registries.
5. It stores the task map, pins the `@borderRouters` key when the system has borders, and then
   stores the configurable attributes.

Modules, one file each:

- **types.dfy** (`Types`): the Rust integer widths (`u8`, `u16`, `i16`, `usize`), `Option`,
  `Result`, attribute bags.
- **errors.dfy** (`Errors`): the three reasons the pipeline can fail.
  1. A count mismatch (expected, found, rows, columns).
  2. An id out of sequence (expected, got, previous; there is no detail when no core has been
     accepted yet).
  3. The "Something went wrong inspecting Core data." error.
- **router.dfy** (`Router`): class `Router`. Its `id` is mutable through `SetId`. Its other
  attributes are immutable.
- **cores.dfy** (`Cores`):
  - class `Core`: its decoded fields are constants; its edge flags are a mutable field;
  - the row-major edge rule and its position lemmas.
- **configurable_attributes.dfy** (`ConfigurableAttributes`):
  - attribute kinds;
  - `Extend`, which folds one bag into a registry (first seen wins);
  - its fold over a run of bags.
- **id_validation.dfy** (`IdValidation`): the id check as a function of the ids in visiting
  order, and what it means on sorted ids.
- **task_placement.dfy** (`TaskPlacement`): the task → core map as a fold over the cores'
  task fields.
- **manycore_parser.dfy** (`ManycoreParser`): the imperative pipeline.
  - Class `ManycoreSystem`.
  - The in-place insertion sort over `array<Core>`.
  - The validation-and-derivation loop, with its invariants.
  - `ParseFile`, specified against the functions above.

Integer widths are explicit:

- `usize::from(columns) * usize::from(rows)` is computed in `usize`, and is proved not to
  overflow.
- The tracker `prev_id` is an `i16`.
- `core.id()` is widened from `u8` to `i16`.
- `set_id(i as u8)` truncates modulo 256. Past the id check, `i` is the core's own `u8` id,
  so it never actually truncates.

`parse_file` wraps the file-read and decode failures (src/lib.rs:88, 91) in the same
`GenerationError`, carrying a message, as the validation failures. This model keeps only the
three validation reasons above, and drops the wording of the messages.

## Model

| member | source | states |
|---|---|---|
| ManycoreParser.ParseFile | src/lib.rs:93-191 | Every router stays owned by exactly one core. A wrong core count fails first, with `rows`, `columns` and the count reported, and leaves the cores untouched: their order, and every core's and router's state; the count error arises only then. Otherwise the cores end sorted by id and are a permutation of the input. An empty grid fails with the core-inspection error. On a non-empty grid the id check's verdict is the result. Success happens exactly when the input ids form the multiset {0, …, n-1}. On success every core's id is its index, every router carries its core's id, and every core's edge flags are derived from its id. The task map and the configurable attributes are then the fold functions over the sorted cores. On failure neither derived field is stored. |
| ManycoreParser.Construct | src/lib.rs:116-191 | On non-empty cores, in whatever order, the result is the id check's verdict. On success each core is derived, and the task map and the configurable attributes (with `@borderRouters` pinned exactly when borders exist) equal their specifications. On failure neither field changes. |
| ManycoreParser.ValidateAndDerive | src/lib.rs:116-169 | The loop's error is exactly `CheckIds` of the visited ids: it stops at the first core out of sequence. When the loop completes, all cores are derived and the accumulated task map and registries equal the step-by-step fold over all cores. |
| ManycoreParser.SortById | src/lib.rs:98-103 | After the in-place sort the array is ordered by id and is a permutation of its old contents. |
| ManycoreParser.InsertAt | src/lib.rs:100-103 | One insertion step extends the sorted prefix by one and keeps the array's multiset. |
| ManycoreParser.DeriveCore | src/lib.rs:152-161 | The core's edge flags become the row-major flags of its id, and its router's id becomes the core's id. |
| ManycoreParser.DeriveNext | src/lib.rs:152-161 | Deriving core `i` keeps every earlier core derived. Each core owns a router distinct from the others. |
| ManycoreParser.ScanChannels | src/lib.rs:166-168 | The per-channel loop leaves the channel registry equal to the fold of `Extend` over the core's channel bags, in order. |
| ManycoreParser.RecordCore | src/lib.rs:155-168 | One step of bookkeeping turns the fold over the first `i` cores into the fold over the first `i + 1`. |
| ManycoreParser.ScanStepKeeps | src/lib.rs:155-168 | `ScanStep`, one step of the loop's bookkeeping: the core's task, if any, is mapped to index `i`, replacing an earlier core, and every other entry stays. Each registry keeps every key it already held, with its kind. |
| ManycoreParser.ScanOfFolds | src/lib.rs:111-168 | `ScanOf`, the loop's step-by-step accumulation from the pinned registries, equals four folds over the whole core list. The task map is `TaskCoreMap` of the task fields. Each registry is `ExtendAll` of its bags, starting from the pinned keys. |
| ManycoreParser.ConfiguredAttributes | src/lib.rs:105-189 | What the front end receives. `@id` is `Text` and `@coordinates` is `Coordinates`, whatever the bags say. The core keys are exactly those two plus every key some core bag declares. The router keys are exactly the declared router keys. The channel keys are exactly `@routingAlgorithm`, every key some channel bag declares, and `@borderRouters` when the system has borders. `@routingAlgorithm` is `Routing`. `@borderRouters` is `Boolean` exactly when the system has borders, and present exactly then unless a channel declares it. The observed algorithm and the catalogue pass through unchanged. |
| ManycoreParser.CountMismatchAsWritten | src/lib.rs:95 | The count error as the program builds it: expected = rows * columns, but "found" carries the rows, "rows" the columns and "columns" the core count. |
| ManycoreParser.CountMismatch | src/lib.rs:93-96 | The corrected count error reports the count found, the rows and the columns, with expected = rows * columns. |
| ManycoreParser.CountMismatchAsWrittenMisreports | src/lib.rs:95 | For a 2 x 3 grid with 5 cores, the message as written reports a found count other than 5, and rows and columns whose product is not the expected count. |
| ManycoreParser.IdsPreservePermutation | src/lib.rs:98-103 | Reordering the cores reorders their ids: equal multisets of cores give equal multisets of ids. |
| ManycoreParser.SortKeepsObjects | src/lib.rs:98-103 | Sorting keeps the same core and router objects, each core still owning its own router. |
| ManycoreParser.GridBound | src/lib.rs:93 | `columns * rows` of two `u8` values is at most 255 * 255, so the `usize` product never overflows. |
| IdValidation.IdSequenceError | src/lib.rs:136-148 | The id error carries expected = previous + 1, the id found and the previous id exactly when `previous > -1`, and no detail when no core has been accepted yet. |
| IdValidation.CheckIds | src/lib.rs:116-150 | Every failure of the id check is an id-sequence error. |
| IdValidation.CheckIdsAccepts | src/lib.rs:133-150 | The check passes if and only if every core's id equals its index. |
| IdValidation.CheckIdsReportsFirst | src/lib.rs:135-148 | Fail fast: at the first index `k` whose id is wrong, the error carries expected `k`, the id found there, and previous `k - 1`. There is no detail when `k == 0`. |
| IdValidation.SortedViolationIsRepeatOrGap | src/lib.rs:133-150 | On sorted ids every reported failure is a repeat (got = previous) or a gap (got > expected). A failure without detail means the smallest id is not 0. |
| IdValidation.SortedUnique | src/lib.rs:98-150 | Two sorted id sequences with the same multiset are equal. |
| IdValidation.SortedAcceptedIffPermutation | src/lib.rs:98-150 | Once sorted, the ids pass the check if and only if they are a permutation of 0, …, n-1. |
| IdValidation.GapAfterOne | src/lib.rs:135-148 | The ids 0, 1, 3 fail with expected 2, got 3 and previous 1. |
| TaskPlacement.TaskCoreMap | src/lib.rs:155-158 | Every entry maps a task to a core that declares it, and no later core declares that task. |
| TaskPlacement.TaskCoreMapKeys | src/lib.rs:155-158 | The map's keys are exactly the tasks some core declares. |
| TaskPlacement.TaskCoreMapLatest | src/lib.rs:155-158 | When several cores declare the same task, the map points at the last of them (`insert` overwrites). |
| ConfigurableAttributes.Extend | src/lib.rs:164-167 | One bag adds its new keys, each with the kind of its value, and keeps every key already present. |
| ConfigurableAttributes.ExtendAll | src/lib.rs:163-168 | Folding over bags keeps every key present at the start, gains exactly the declared keys, and infers only `Number` or `Text`. |
| ConfigurableAttributes.ExtendAllAppend | src/lib.rs:164-168 | Folding over two runs of bags is folding over the first, then the second. Each core's channel loop therefore continues the fold from the previous core's. |
| ConfigurableAttributes.FirstSeenWins | src/lib.rs:163-168 | A key the registry did not hold takes the kind of its value in the first bag that declares it, whatever later bags say. |
| ConfigurableAttributes.AgeDecidedByFirstCore | src/lib.rs:164 | `@age` declared "30" by a first core and "thirty" by a later one is a `Number`. |
| Cores.MatrixEdgeOf | src/lib.rs:153 | ASSUMED row-major rule of `populate_matrix_edge`: top exactly when id < columns, left exactly when id ≡ 0 (mod columns), right exactly when id + 1 ≡ 0 (mod columns), bottom exactly when id / columns is the last row. |
| Cores.MatrixEdgeByPosition | src/lib.rs:153 | On a grid that holds the core, the flags read off the id. It is top exactly when id < columns, and bottom exactly when id >= (rows - 1) * columns. It is left exactly when id ≡ 0 (mod columns), and right exactly when id + 1 ≡ 0 (mod columns). |
| Cores.ThreeByThreeEdges | src/lib.rs:153 | On a 3 x 3 grid, core 0 is top-left, core 4 touches no edge, and core 8 is bottom-right. |
| Cores.Core.PopulateMatrixEdge | src/lib.rs:153 | The core's flags become the row-major flags of its id; nothing else changes. |
| Cores.Core.Decoded | src/lib.rs:90-91 | The decoded core holds the decoded fields and no edge flags yet. The flags are derived, not part of the XML. |
| ManycoreParser.ManycoreSystem.Decoded | src/lib.rs:69-76 | The decoded system holds the decoded fields. The skipped `task_core_map` and `configurable_attributes` hold their defaults: an empty map and empty attributes. When every router belongs to one core, the ownership invariant `Valid` holds. |
| Router.Router.constructor | src/router.rs:30-35 | `Router::new` yields a router with the given id and attributes. |
| Router.Router.Decoded | src/router.rs:14-24 | The decoder leaves the skipped `id` at 0 and keeps the attributes. |
| Router.Router.SetId | src/router.rs:14-17 | The generated setter replaces the id; the attributes are immutable. |

## Left out

- ManycoreParser.ParseFile: on a count mismatch it returns the corrected error `CountMismatch` (found = the core count, then the rows and the columns). The program as written fills those fields with the rows, the columns and the core count instead; `CountMismatchAsWritten` models that, as the finding below records.
- Reading the file and decoding the XML (src/lib.rs:87-91) are not modelled. `ParseFile` takes the decoded system as its input.
- Encoding back to XML (`TryFrom<&ManycoreSystem> for String`) is not modelled. Nor are the namespace attributes and the task graph, which the pipeline does not touch.
- `compute_core_border_map` (src/lib.rs:179) is not part of this model: its source is not available. The model records only that borders exist.
- The code below is not available, so its behaviour here is an assumption:
  - `populate_matrix_edge`: a row-major layout.
  - `extend_from_element`: first seen wins, with a value classed `Number` when it is a non-empty run of decimal digits and `Text` otherwise.
  - `insert_manual`: a plain map insert.
  - `ConfigurableAttributes::new`: stores its five arguments unchanged.
  - `ConfigurableAttributes::default()` (the decoder's value for the skipped field): all registries empty, no observed algorithm, an empty catalogue.
  - The registries' `ProcessedAttribute` values (src/lib.rs:106-108) are reduced to their `AttributeType`; anything else they carry is not modelled.
- `SUPPORTED_ALGORITHMS` is a parameter of `ParseFile`, because its contents are not available.
- Channel order:
  - Rust visits a core's channels in its channel map's order. The model takes them as a sequence already in that order.
  - The task map is a Rust `HashMap`. Its iteration order is unobservable here.
- Sort stability:
  - `SortById` is an insertion sort, stable like `sort_by`, but stability is not stated.
  - Cores with equal ids always fail the check, so their relative order is never observable in a success.
- On an empty grid, `len() - 1` underflows. A debug build panics. A release build wraps around, and `get_mut(0)` then yields the core-inspection error, which is what the model returns. The panic is not modelled.
- The wording of the error messages is not modelled. Only their fields are.
- Router.Router.Variant (the constant tag "r") and the accessors `Id` and `OtherAttributes` carry no contract of their own: each only returns a field or a constant.
- Cores.Core.PopulateMatrixEdge requires `columns > 0`: under the assumed row-major rule, `id / columns` needs `columns > 0`. The pipeline calls it only on a non-empty grid, where `columns > 0` holds.

## Findings

| source | as written | input that shows it | evidently intended | confidence | as-written member | corrected member |
|---|---|---|---|---|---|---|
| src/lib.rs:95 | The message's positional holes after "found", "rows" and "columns" are filled with `manycore.rows`, `manycore.columns` and the core count, in that order. | rows = 2, columns = 3, 5 cores: "Expected 6 cores, found 2 … rows (3) and columns (5)". | "found" shows the core count, "rows" the rows and "columns" the columns. | not executed | ManycoreParser.CountMismatchAsWrittenMisreports | ManycoreParser.CountMismatch |
