# California plate checker — a Dafny model of its sequential core

The plate checker takes candidate personalised licence plates, either from a
word list or from a chat-completion reply. It asks the California DMV whether
each plate is available, using a pool of workers that share one asyncio queue.
Each worker has its own HTTP session. The results are written to a CSV file.

This project models the logic around the network calls:

- the loader's filter and sort, and the generator's line filter, including
  its error rules;
- the check request's form body and the status read out of the reply;
- a worker's consume loop, which stops at its first stop sentinel;
- `main`: the early exit, seeding the queue, running the workers to
  completion, closing them and merging their maps;
- the `.csv` path rule and the rows that get written.

The code exists twice, as the package `plate_checker/` and as the older
single-file script `plate_checker.py`. The two are identical in everything
modelled here, so one model serves both. The table cites the package; the
script's corresponding lines are listed after it.

Modules, one per concern:

- `Wrappers`: `Option` and `Result`.
- `Text`: ASCII `isspace`, `lower`, `isalnum` and `strip`, and Python's string order.
- `Sorting`: the `(-len(word), word)` order and a sort proved to produce it.
- `Loader`: `load_plates_from_text`, over the file's lines.
- `Generator`: the filter in `generate_plates_from_topic` and its error rules.
- `Output`: `save_to_file`'s path rule (POSIX `splitext`) and its rows.
- `Payload`: `PAYLOAD_TEMPLATE` and the form body for a plate.
- `Tasks`: the part of `asyncio.Queue` that is used: `put`, `get`, `task_done` and the unfinished-task count.
- `Workers`: class `Worker` and the status lookup.
- `Coordinator`: `main`.

The DMV is an oracle. A `Server` maps a form body to a reply map, and worker
`i` gets the session `sessions(i)`.

The scheduler is modelled as follows. Each turn, an arbitrarily chosen worker
that is still running makes one pass of its loop. The model proves that with
one sentinel per worker, queued behind the plates, every choice of turns ends
the same way:

- every plate is taken by exactly one worker;
- the queue ends empty, with every item acknowledged;
- every worker stops;
- the merged map holds exactly the plates.

## Model

| member | source | states |
|---|---|---|
| Payload.Decimal | plate_checker/worker.py:98 | `str(i)` is a string of decimal digits, with no leading zero, whose value is `i`; it has exactly one digit when `i < 10` |
| Payload.SlotKeyNames | plate_checker/config.py:43 | the template's character slots are exactly `plateChar0` to `plateChar6` |
| Payload.DecimalInjective | plate_checker/worker.py:98 | different indices render as different decimal strings |
| Payload.PlateCharKeyInjective | plate_checker/worker.py:98 | `plateChar{i}` names a different field for every index |
| Payload.NewSlot | plate_checker/worker.py:97-98 | the field for position n is none of the fields for positions before n |
| Payload.FixedNotSlot | plate_checker/config.py:38-43 | the four fixed template fields are never `plateChar` fields |
| Payload.PayloadFor | plate_checker/worker.py:96-99 | the body's keys are the template's keys plus `plateChar0` .. `plateChar{n-1}` for a plate of length n |
| Payload.PayloadSlot | plate_checker/worker.py:97-98 | for every i below the plate's length, `plateChar{i}` holds the plate's i-th character |
| Payload.PayloadKeeps | plate_checker/worker.py:96-99 | every template key the plate does not overwrite keeps its template value |
| Payload.PayloadFixed | plate_checker/config.py:38-42 | `plateType`, `plateName`, `plateLength` and `vehicleType` keep their template values for every plate |
| Payload.PayloadFixedFields | plate_checker/config.py:38-42 | those values are "Z", "California 1960s Legacy", "7" and "AUTO" |
| Payload.PayloadBlankSlots | plate_checker/config.py:43 | slots from the plate's length up to slot 6 stay blank |
| Payload.PayloadKeysFixed | plate_checker/worker.py:97-98 | a plate of at most 7 characters adds no key to the template |
| Payload.PayloadKeysGrow | plate_checker/worker.py:97-98 | a longer plate adds `plateChar7`, which the template lacks |
| Workers.Status | plate_checker/worker.py:116 | the status is the reply's "code" when present, and "UNKNOWN" otherwise |
| Workers.StatusUnknown | plate_checker/worker.py:116 | "UNKNOWN" comes out exactly when the code is missing or is itself "UNKNOWN" |
| Workers.MapOfLogKeys | plate_checker/worker.py:74-81 | the map the assignments leave has exactly the assigned plates as keys |
| Workers.MapOfLogSnoc | plate_checker/worker.py:81 | one more assignment overwrites or adds just that plate |
| Workers.MapOfLogLastWins | plate_checker/worker.py:81 | a plate assigned several times keeps the status of its last assignment |
| Workers.PlatesBefore | plate_checker/worker.py:75-79 | the plates ahead of the first sentinel are the queue's leading items, all plates, followed by that sentinel |
| Workers.Worker.constructor | plate_checker/worker.py:22-31 | a worker holds the shared queue and its own session, and is not yet closed |
| Workers.Worker.UpdatePayload | plate_checker/worker.py:86-99 | the loop over the plate's characters builds exactly `PayloadFor(plate)` |
| Workers.Worker.GetPlateStatus | plate_checker/worker.py:101-123 | on a session not yet closed, the result is the status the session's reply to the plate's body carries |
| Workers.Worker.Step | plate_checker/worker.py:75-82 | on an open session, one pass removes the queue's head and acknowledges it; a plate is checked and recorded, a sentinel leaves the map unchanged |
| Workers.Worker.ProcessTask | plate_checker/worker.py:67-83 | on an open session, exactly the items up to and including the first sentinel leave the queue, each acknowledged once, and the map records every plate before it with its status |
| Workers.Worker.Close | plate_checker/worker.py:125-132 | the session is closed once more |
| Workers.ProcessedPlates | plate_checker/worker.py:74-83 | a plate is in the returned map exactly when it was taken, and its value is the status its session reports |
| Tasks.TaskQueue.constructor | plate_checker/__main__.py:46 | a new queue is empty, with no unfinished task |
| Tasks.TaskQueue.Put | plate_checker/__main__.py:63-68 | the item goes to the tail, and one more task is unfinished |
| Tasks.TaskQueue.Get | plate_checker/worker.py:76 | the head is removed and returned, and it stays unfinished |
| Tasks.TaskQueue.TaskDone | plate_checker/worker.py:78 | one fewer task is unfinished |
| Coordinator.Seeded | plate_checker/__main__.py:62-68 | the seeded queue is the plates in input order, followed by one sentinel for each of `range(workers)` |
| Coordinator.SeedQueue | plate_checker/__main__.py:62-68 | the two `put` loops append exactly the seeded items, one unfinished task each |
| Coordinator.SeededPlatesBefore | plate_checker/__main__.py:62-68 | with at least one worker, all plates come before the first sentinel |
| Coordinator.Merged | plate_checker/__main__.py:78-81 | the merged keys are the union of the workers' keys |
| Coordinator.UnionKeysMember | plate_checker/__main__.py:79-81 | a plate is in the union exactly when some worker's map has it |
| Coordinator.MergedLastWins | plate_checker/__main__.py:79-81 | a plate several maps hold gets the value from the last of them |
| Coordinator.MergedFrom | plate_checker/__main__.py:79-81 | every merged entry is an entry of some worker's map |
| Coordinator.MergeResults | plate_checker/__main__.py:78-81 | the `update` loop yields exactly the merge of the workers' maps in worker order |
| Coordinator.Turn | plate_checker/__main__.py:71-72 | with every session open, one scheduling step keeps the pool's bookkeeping; worker w takes the queue's head; a sentinel marks only w as stopped, a plate p sets only w's map to w's map plus p with its verdict from w's session and appends p to only w's share |
| Coordinator.PoolDrained | plate_checker/__main__.py:62-72 | once every worker has stopped, the queue is empty and every plate was taken, once |
| Coordinator.RunPool | plate_checker/__main__.py:70-72 | with every session open and for every choice of turns: one map per worker, in order, each recording that worker's plates; with at least one worker the queue ends empty with every item acknowledged, the plates taken are a permutation of the input and the keys cover every plate |
| Coordinator.DisjointResults | plate_checker/__main__.py:70-81 | with no plate given twice, no two workers record the same plate |
| Coordinator.MergedVerdict | plate_checker/__main__.py:70-81 | each merged status is the one some worker's session reported for that plate |
| Coordinator.MergedOutcome | plate_checker/__main__.py:70-81 | the merged map holds exactly the plates with at least one worker, and is empty with none |
| Coordinator.CreateWorkers | plate_checker/__main__.py:52-55 | one new, distinct worker per element of `range(workers)`, all on the same queue, none closed |
| Coordinator.CloseAll | plate_checker/__main__.py:74-76 | every worker is closed exactly once |
| Coordinator.CheckAll | plate_checker/__main__.py:45-81 | distinct workers are created, the queue is seeded and drained while every session is open, then each of them is closed once and the maps are merged, as MergedOutcome states |
| Coordinator.CheckPlates | plate_checker/__main__.py:41-89 | no plates: nothing is created and nothing saved; otherwise the merged map, the `.csv` path and the sorted rows are saved, and each of the distinct workers is closed once |
| Text.Lower | plate_checker/utils.py:30 | lower-casing keeps the length and alphanumeric-ness and leaves no upper-case letter |
| Text.Strip | plate_checker/plate_generator.py:58 | the stripped string neither starts nor ends with whitespace |
| Text.StripCut | plate_checker/plate_generator.py:58 | strip removes only whitespace, and only from the two ends |
| Text.StripFixed | plate_checker/plate_generator.py:58 | a string without whitespace at either end is its own strip |
| Text.AlnumStripped | plate_checker/plate_generator.py:59 | an alphanumeric string is its own strip |
| Text.LexLeRefl | plate_checker/utils.py:33 | Python's string order is reflexive |
| Text.LexLeTotal | plate_checker/utils.py:33 | Python's string order is total |
| Text.LexLeTrans | plate_checker/utils.py:33 | Python's string order is transitive |
| Text.LexLeAntisym | plate_checker/utils.py:33 | Python's string order is antisymmetric |
| Sorting.PlateLeTotal | plate_checker/utils.py:33 | the `(-len, word)` key order is total |
| Sorting.PlateLeTrans | plate_checker/utils.py:33 | the key order is transitive |
| Sorting.PlateLeAntisym | plate_checker/utils.py:33 | the key order is antisymmetric |
| Sorting.Insert | plate_checker/utils.py:33 | inserting into a sorted list keeps it sorted and adds exactly that word |
| Sorting.Sort | plate_checker/utils.py:33 | the result is longest first, then alphabetical, and a permutation of the input |
| Sorting.HeadFirst | plate_checker/utils.py:33 | the first element of a sorted list comes before every element |
| Sorting.SortedUnique | plate_checker/utils.py:33 | a sorted permutation is unique, so the order is fully determined |
| Sorting.DistinctPermutation | plate_checker/utils.py:69 | a permutation of a list without repeats has no repeats |
| Loader.FilterWords | plate_checker/utils.py:30 | every kept word has 2..7 characters and is lower case, and none is added |
| Loader.FilterWordsMember | plate_checker/utils.py:30 | a word is kept exactly when some source word of length 2..7 lower-cases to it |
| Loader.FilterWordsAppend | plate_checker/utils.py:30 | the filter works word by word, keeps order and drops no duplicate |
| Loader.LoadPlates | plate_checker/utils.py:29-33 | the loaded list is sorted by the key and is a permutation of the filtered words |
| Loader.LoadedPlatesFromSource | plate_checker/utils.py:27-33 | a plate is loaded exactly when some line of length 2..7 lower-cases to it |
| Generator.StripLines | plate_checker/plate_generator.py:58 | one stripped line per reply line, in order |
| Generator.FilterStripped | plate_checker/plate_generator.py:57-60 | every result is a kept line, lower-cased, and every kept line appears |
| Generator.FilterReply | plate_checker/plate_generator.py:57-60 | the filter returns no more plates than the reply has lines |
| Generator.GeneratedPlateOrigin | plate_checker/plate_generator.py:57-59 | each plate is some line stripped and lower-cased, with 2..7 characters, alphanumeric and lower case |
| Generator.AcceptedLineReturned | plate_checker/plate_generator.py:57-59 | every line that passes the test is returned |
| Generator.FilterStrippedAppend | plate_checker/plate_generator.py:57-60 | surviving lines keep their relative order |
| Generator.StripLinesAppend | plate_checker/plate_generator.py:58 | stripping works line by line |
| Generator.FilterReplyAppend | plate_checker/plate_generator.py:57-60 | the reply filter works line by line and keeps order |
| Generator.GeneratePlates | plate_checker/plate_generator.py:32-67 | a missing or empty key fails before any request; a failed request yields []; otherwise the result is the filtered reply |
| Output.RFind | plate_checker/utils.py:56 | the index of the last occurrence of the character, or -1 |
| Output.RFindAppend | plate_checker/utils.py:56 | a search from the right looks at the right part first |
| Output.SplitExt | plate_checker/utils.py:56 | root plus extension is the path; the extension is empty or a dot followed by no dot or slash |
| Output.CsvPath | plate_checker/utils.py:56 | the saved path ends in ".csv" and starts with the input path's root (which root: SplitExtFinds, CsvPathReplacesExt, CsvPathAppends) |
| Output.CsvPathKeepsCsv | plate_checker/utils.py:56 | a path whose extension is already ".csv" is unchanged |
| Output.CsvPathIdempotent | plate_checker/utils.py:56 | when the file name has a character other than a dot, applying the rule twice equals applying it once |
| Output.SplitExtFinds | plate_checker/utils.py:56 | `splitext` finds an extension if and only if the file name has a dot after a character other than a dot |
| Output.CsvPathReplacesExt | plate_checker/utils.py:56 | a path `stem.x` whose file name has a character other than a dot, with `x` free of dots and slashes, is saved as `stem.csv` |
| Output.CsvPathAppends | plate_checker/utils.py:56 | a path whose file name has no dot after a character other than a dot is saved as the path plus ".csv" |
| Output.CsvPathDotName | plate_checker/utils.py:56 | two instances of the rule above: `out/` is saved as `out/.csv`, and `out/.csv` as `out/.csv.csv` |
| Output.Items | plate_checker/utils.py:69 | the items list every key of the map once |
| Output.WriteRows | plate_checker/utils.py:71-75 | the `writerow` loop emits the header and one row per key, in order |
| Output.CsvRows | plate_checker/utils.py:67-75 | len(results)+1 rows: the header, then one `[plate, status]` row per entry, every plate exactly once, longest first then alphabetical |
| Output.TableRows | plate_checker/utils.py:69-75 | the table over the sorted keys has len(results)+1 rows: the header, then each plate once with its status, longest first then alphabetical |
| Output.StrictlySortedUnique | plate_checker/utils.py:69 | two sorted lists without repeats, over the same plates, are equal |
| Output.TableUnique | plate_checker/utils.py:69 | the rows do not depend on the dictionary's iteration order |

`plate_checker.py` repeats all of this:

- loader: lines 24-25 and 43-49;
- save path: line 73;
- rows: lines 86-92;
- generator: lines 110-112 and 133-143;
- `update_payload`: lines 227-230;
- status: line 247;
- `process_task`: lines 205-214;
- `main`: lines 289-329.

Its template is `config.py:27-33`.

Notes on the source, where the model follows the code:

- `plate_checker/utils.py:10` imports `MIN_PLATE_LENGTH` and `MAX_PLATE_LENGTH` from `plate_checker/config.py`, which does not define them. The model uses 2 and 7, as `plate_checker/plate_generator.py:14-15` and `plate_checker.py:24-25` do.
- Likewise, `plate_checker.py:21` imports `CHECK_URL_YARL` from the top-level `config.py`, which defines only `CHECK_URL` (`config.py:3`). The model of that script follows its code as if the name were defined, as `plate_checker/config.py:14` defines it.
- The comment at `plate_checker.py:45` says words of length 1 to 7 are kept. The code keeps 2 to 7.
- A key collision during the merge is not reported: `final_results.update` silently keeps the later worker's status (`MergedLastWins`). `DisjointResults` shows a collision can only come from a plate given twice. The loader does not de-duplicate, so a word listed twice is checked twice.
- With `workers <= 0`, no worker exists and nothing drains the queue. `main` then saves an empty table (`CheckPlates`).
- POSIX `splitext` treats leading dots of a file name as part of the name. So `out/` is saved as `out/.csv`, and `out/.csv` as `out/.csv.csv` (`CsvPathAppends`, `CsvPathDotName`).

## Left out

- HTTP: session bootstrap in `Worker.create`, the JSESSIONID cookie, the POST and JSON parsing. These are network I/O. A session is a `Server` function from form body to reply map.
- Workers.Worker.GetPlateStatus: a session's reply depends only on the form body. A DMV whose answer to the same body changes over time is not modelled.
- Workers.Worker.GetPlateStatus: a transport or parse error, which aborts the worker and then the run, is not modelled.
- Workers.Status: the reply is a flat map from string to string. A non-string "code" value is not modelled.
- Tasks.TaskQueue.Get: `get` on an empty queue waits for an item. The model requires a non-empty queue, and RunPool proves every `get` it makes finds one.
- Tasks.TaskQueue.TaskDone: the `ValueError` for a call with no unfinished task becomes a precondition.
- Coordinator.RunPool: a whole loop pass (get, check, record, acknowledge) is one atomic step. In asyncio other workers may `get` while a check is awaited. This changes neither which items each worker takes in turn nor any final state, because each pass touches only the queue's head and its own map.
- Coordinator.CreateWorkers: a failed session bootstrap, which aborts the run before any plate is queued, is not modelled.
- Generator.GeneratePlates: the reply is given as its lines. The strip and split of the whole content are not modelled, and every exception the request can raise is collapsed into `Failed`. The prompt, `load_dotenv` and the model name are left out.
- Loader.LoadPlates: the file is given as its lines. The existence check, the read and `quit()` on a missing file are file-system I/O.
- Output.CsvRows: `csv.writer` quoting is library behaviour the model does not cover. The directory creation, permission check and their `IOError`s are file-system I/O.
- Text.Lower: strings are ASCII. Unicode case mapping, whitespace and `isalnum` are not modelled.
- Coordinator.CheckPlates: the choice between `-i` and `-t`, argparse, `run.py`, the timing and all printing are glue, clock or UI.
