# Jia board saves and the Kronos time codec, in Dafny

This project models two pieces of the Kronos/Jia repository and proves
properties of them.

**Precompute reconciliation on a board save** (`jia/jia/views.py:115-176`).
When the Jia dashboard saves a board, `board()` builds two dicts keyed by panel
id: the stored panels and the incoming ones. If a stored panel has no id, the
stored dict is empty; this is the legacy fallback. Two loops then run:
- The first loop issues `disable_precompute` for each stored panel that has
  precompute on and was deleted or switched off.
- The second loop looks at each incoming panel that has precompute on. It
  issues `enable_precompute` when the stored panel is absent or off. When
  `code`, the whole `precompute` dict or `timeframe` changed, it issues
  `disable_precompute` of the stored panel followed by `enable_precompute`.
  In both cases it writes the returned task id into the panel's `task_id`.

The incoming dict shares its panel objects with `board_data['panels']`, the
list that is saved, so those writes reach the saved document. The stored dict's
panels come from `board.json()` instead.

How the model represents this (module `Panels`, `jia_panels.dfy`; module
`Reconcile`, `jia_reconcile.dfy`):
- **The saved list.** It is an `array<Panel>`. The incoming dict is a map from
  id to a position in that array, which captures the aliasing: a write through
  the dict is a write into the list. The last duplicate of an id wins, as in
  the comprehension.
- **The task client.** It is a class `TaskClient` whose `log` records every
  `Disable(panel)` and `Enable(panel)` call in order.
- **Task ids.** An enable returns `TaskId(n)`, where `n` is the number of calls
  the client has seen before it. The point is only that the scheduler's ids
  are opaque and distinct.
- **The loops.** They are `while` loops that pick an unvisited key with `:|`,
  because Python's dict iteration order is left unconstrained. Each returns
  the order it used as a ghost result. `ReconcileBoard` states the final log
  and list as the function `Outcome` of the inputs and those orders.
- **The properties.** Module `ReconcileProps` (`jia_reconcile_props.dfy`)
  proves them for every pair of iteration orders.

**Kronos time codec** (`pykronos/pykronos/utils/time.py`), module
`KronosTime` (`kronos_time.dfy`):
- It converts between epoch seconds, datetimes, timedeltas and Kronos
  timestamps, which count 100 ns ticks since the UTC epoch.
- It also holds the reserved-key predicate.
- Python floats are modelled as exact reals.
- Python's `int()` truncates toward zero, which the model writes out as
  `TruncReal`, with `TruncDiv` as the integer reference.
- A datetime is its wall-clock microseconds, plus an optional UTC offset
  (None for a naive datetime).
- Results outside years 1..9999, where the datetime type has no value, are an
  error `Result`.

Module `Wrappers` (`wrappers.dfy`) holds `Option` and `Result`.

Two consequences of the code are worth stating:
- **The restart test.** `views.py:163-167` compares the whole `precompute`
  dict, `task_id` and `bucket_width` included. So a stored panel and an
  incoming panel that differ only in `task_id` restart. The comment at
  `views.py:162` speaks only of a "precompute settings change".
- **The ticks round trip.** A round trip of ticks through a datetime is exact
  only when the ticks are a multiple of 10^7, because `kronos_time_to_datetime`
  keeps whole seconds (`time.py:21-24`, `time.py:31-32`).

## Model

| member | source | states |
|---|---|---|
| `Panels.IndexById` | jia/jia/views.py:136 | `{p['id']: p for p in panels}` as positions. It fails (KeyError) exactly when some panel has no id. Otherwise every id of the list maps to a position holding that id, nothing else is in the map, and no later position holds the id (the last duplicate wins). |
| `Panels.StoredById` | jia/jia/views.py:128-135 | The stored dict. It is empty when any stored panel lacks an id (the legacy fallback). Otherwise it holds every stored panel's id, and each entry is the last stored panel with that id. |
| `Panels.PanelsAt` | jia/jia/views.py:136 | The incoming dict read through its positions has exactly the ids of the index, and each entry sits under its own id. |
| `Reconcile.TaskClient.EnablePrecompute` | jia/jia/views.py:159 | An enable is appended to the client's log. The id returned is distinct from every other one (numbered by the calls before it). |
| `Reconcile.TaskClient.DisablePrecompute` | jia/jia/views.py:144 | A disable is appended to the client's log. |
| `Panels.Panel.WithTaskId` | jia/jia/views.py:160 | The write `panel['data_source']['precompute']['task_id'] = task_id` (also at line 170): the panel then carries that id and differs from before only in `task_id`, with the same id and the same `enabled` flag. |
| `Reconcile.FirstLoopCallsCases` | jia/jia/views.py:139-150 | One turn of the first loop makes no call or exactly the disable of the stored panel. It makes the disable iff the stored panel has precompute on and the incoming dict has no panel with its id, or has one with precompute off. |
| `Reconcile.NeedsRestartCases` | jia/jia/views.py:163-167 | The restart test. A panel whose `data_source` equals the stored one never restarts. A `task_id` that differs from the stored one, with nothing else changed, is enough to restart. |
| `Reconcile.SecondLoopCallsCases` | jia/jia/views.py:152-170 | One turn of the second loop makes no call, the enable of the incoming panel, or the disable of the stored panel followed by that enable. It calls iff the incoming panel has precompute on and the stored one is absent, off or `NeedsRestart`. Any call it makes ends with the enable. |
| `Reconcile.OtherPrecomputeKeyRestarts` | jia/jia/views.py:164-165 | Both panels enabled, `precompute` differing in a key the engine does not read: the second loop disables the stored panel and enables the incoming one. |
| `ReconcileProps.FirstPassShape` | jia/jia/views.py:139-150 | The first loop over any order of the stored ids makes no more calls than ids visited. Each call is the disable of a stored panel with precompute on whose incoming panel is absent or off. |
| `ReconcileProps.SecondPassShape` | jia/jia/views.py:152-170 | Over any order of the incoming ids, each call of the second loop is for an incoming panel with precompute on. It is either that panel's enable or the disable of its stored panel with precompute on. |
| `Reconcile.Turn` | jia/jia/views.py:153-170 | One turn of the second loop keeps the list's length and every panel's id. |
| `Reconcile.SecondPass` | jia/jia/views.py:152-170 | The second loop over any order keeps the list's length and every panel's id. |
| `Reconcile.Outcome` | jia/jia/views.py:138-175 | Both loops together keep the saved list's length. |
| `Reconcile.DisableStale` | jia/jia/views.py:139-150 | The first loop visits every stored id exactly once, in some order. The calls it adds to the log are the first-loop calls for that order. |
| `Reconcile.EnableOne` | jia/jia/views.py:153-170 | One turn of the second loop, in place. The calls it adds and the list it leaves are those of `Turn`, including the task id written at the position the dict shares with the list. |
| `Reconcile.EnableFresh` | jia/jia/views.py:152-170 | The second loop visits every incoming id exactly once. The log grows by, and the list becomes, `SecondPass` for that order. |
| `Reconcile.Reconcile` | jia/jia/views.py:138-170 | Both loops in sequence: the log grows by `Outcome`'s calls and the array becomes `Outcome`'s list, for the two orders returned. |
| `Reconcile.ReconcileBoard` | jia/jia/views.py:124-175 | Whole POST branch. `ok` holds iff every incoming panel has an id; otherwise nothing is called or changed. When `ok`, log and saved list are `Outcome` of the stored dict, the incoming list and its dict, for two orders that enumerate the two dicts. |
| `ReconcileProps.FirstPassFor` | jia/jia/views.py:139-150 | For any order, the first loop's calls with panels of one id are that stored panel's first-loop calls, or none when the id is not stored. |
| `ReconcileProps.SecondPassFor` | jia/jia/views.py:152-170 | For any order, the second loop's calls with panels of one id are that incoming panel's second-loop calls, or none when the id is not incoming. |
| `ReconcileProps.SecondPassStamps` | jia/jia/views.py:157-170 | Turn without calls: the kept panel stays unchanged. Otherwise the turn's calls are one unbroken run ending with that panel's enable, and the panel carries the id that enable returned. |
| `ReconcileProps.CallsPerId` | jia/jia/views.py:139-170 | Whatever the two iteration orders, the calls a save makes for one id are the case table `Expected` applied to (stored panel, incoming panel). |
| `ReconcileProps.SaveStamps` | jia/jia/views.py:157-175 | In the whole trace, each incoming panel that gets an enable is saved carrying the id returned by that enable, the client's `base + j`-th call. When the panel the dict keeps for an id gets no enable, it is saved as it came (earlier duplicates are covered by `SaveOnlyStamps`). |
| `ReconcileProps.SaveDeletes` | jia/jia/views.py:143-144 | Stored panel with precompute on and no incoming panel with its id: exactly one disable of the stored panel and no enable for that id. |
| `ReconcileProps.SaveSwitchesOff` | jia/jia/views.py:147-153 | Stored on, incoming off: exactly one disable of the stored panel, no enable, and the incoming panel is saved unchanged. |
| `ReconcileProps.SaveCreates` | jia/jia/views.py:157-160 | Incoming on, stored absent or off: exactly one enable of the incoming panel, and the panel is saved carrying the id it returned. |
| `ReconcileProps.SaveRestarts` | jia/jia/views.py:163-170 | Both on, with code, precompute or timeframe changed: exactly a disable of the stored panel immediately followed by an enable of the incoming one, and the new id is saved in the panel. |
| `ReconcileProps.SaveKeeps` | jia/jia/views.py:143-167 | Both on and nothing relevant changed, or both off whatever changed: no call for the id, and the panel is saved unchanged. |
| `ReconcileProps.SavePhases` | jia/jia/views.py:139-170 | The trace splits into a prefix of first-loop disables (stored panel on, incoming absent or off) and a suffix of second-loop calls (incoming panel on). So every first-loop call precedes every second-loop call. |
| `ReconcileProps.SaveLegacy` | jia/jia/views.py:128-135 | A stored panel without an id: the trace has no disable at all, and each incoming panel with precompute on gets exactly one enable. |
| `ReconcileProps.SaveOnlyStamps` | jia/jia/views.py:160-175 | The saved list keeps its length and order. Every saved panel differs from the incoming one at most in `task_id`. A panel the dict does not keep (an earlier duplicate id) is saved unchanged. |
| `ReconcileProps.SaveUnchanged` | jia/jia/views.py:143-167 | When the stored dict is the incoming dict, the save makes no call and saves the list unchanged. |
| `ReconcileProps.SaveUnchangedBoard` | jia/jia/views.py:128-167 | Saving a board's own panels again, with every panel identified, calls nothing and changes nothing, duplicate ids included. |
| `KronosTime.Epoch` | pykronos/pykronos/utils/time.py:5 | `EPOCH`: 1970-01-01T00:00:00 tagged UTC, wall clock 0 with offset 0. |
| `KronosTime.Subtract` | pykronos/pykronos/utils/time.py:18 | `dt - EPOCH` on aware datetimes: adding the difference to the second instant gives the first. It is zero iff both denote the same instant. |
| `KronosTime.TotalSeconds` | pykronos/pykronos/utils/time.py:18 | `total_seconds()`: the seconds times 10^6 are the timedelta's microseconds, and the sign is kept. |
| `KronosTime.TruncReal` | pykronos/pykronos/utils/time.py:28 | Python `int()` on a float: the integer between the value and zero that lies less than one away from it. |
| `KronosTime.TruncDiv` | pykronos/pykronos/utils/time.py:32 | Integer division rounded toward zero, characterised by its bounds for both signs. |
| `KronosTime.EpochTimeToKronosTime` | pykronos/pykronos/utils/time.py:27-28 | Seconds times 10^7, truncated toward zero: within one tick of the exact product, on the side of zero. |
| `KronosTime.KronosTimeToEpochTime` | pykronos/pykronos/utils/time.py:31-32 | Ticks times 10^-7 truncated is integer division of the ticks by 10^7 rounded toward zero. |
| `KronosTime.AssumeUtc` | pykronos/pykronos/utils/time.py:16-17 | A naive datetime gets the UTC offset with its fields unchanged. An aware one is left as it is. |
| `KronosTime.UtcFromTimestamp` | pykronos/pykronos/utils/time.py:23 | Succeeds exactly when the instant lies in years 1..9999, and gives a naive datetime. |
| `KronosTime.AddTimedelta` | pykronos/pykronos/utils/time.py:44 | Succeeds exactly when the sum lies in years 1..9999, and keeps the tzinfo. |
| `KronosTime.DatetimeToKronosTime` | pykronos/pykronos/utils/time.py:8-18 | The ticks are ten times the datetime's UTC microseconds since the epoch. A naive datetime is read as UTC. |
| `KronosTime.KronosTimeToDatetime` | pykronos/pykronos/utils/time.py:21-24 | Succeeds exactly when the truncated seconds are in range, and gives the UTC-tagged datetime of a whole second. |
| `KronosTime.KronosTimeNow` | pykronos/pykronos/utils/time.py:35-36 | For a clock reading of `c` microseconds, the current timestamp is `10 * c`. |
| `KronosTime.IsKronosReservedKey` | pykronos/pykronos/utils/time.py:39-40 | Truthy iff the key is non-empty and starts with `@`. The empty key gives the falsy integer `0`, any other key a bool. |
| `KronosTime.TimedeltaToKronosTime` | pykronos/pykronos/utils/time.py:43-44 | Fails exactly when `EPOCH + td` leaves the datetime range. Otherwise it is the total seconds times 10^7, truncated. |
| `KronosTime.EpochSecondsToTicks` | pykronos/pykronos/utils/time.py:27-28 | A whole number of seconds becomes exactly `s * 10^7` ticks. |
| `KronosTime.SecondsRoundTrip` | pykronos/pykronos/utils/time.py:27-32 | Integer seconds to ticks and back give the seconds again. |
| `KronosTime.TicksToSecondsTruncates` | pykronos/pykronos/utils/time.py:31-32 | `-1` tick is `0` seconds and `-10^7 - 1` ticks is `-1`, not `-2`: rounding is toward zero. |
| `KronosTime.WholeSecondsExact` | pykronos/pykronos/utils/time.py:31-32 | Truncating ticks to whole seconds loses nothing iff the ticks are a multiple of 10^7. |
| `KronosTime.TicksDatetimeRoundTrip` | pykronos/pykronos/utils/time.py:18-32 | Ticks to a datetime and back give the ticks with their sub-second part truncated toward zero. They come back unchanged iff they are a multiple of 10^7. |
| `KronosTime.DatetimeTicksRoundTrip` | pykronos/pykronos/utils/time.py:8-32 | A datetime to ticks and back gives the same UTC instant truncated toward the epoch to whole seconds, tagged UTC. |
| `KronosTime.NaiveIsUtc` | pykronos/pykronos/utils/time.py:15-18 | A naive datetime converts like the UTC datetime with the same fields. |
| `KronosTime.EpochIsTickZero` | pykronos/pykronos/utils/time.py:5 | `EPOCH` is tick 0. |
| `KronosTime.TimedeltaTicks` | pykronos/pykronos/utils/time.py:43-44 | A timedelta in range becomes ten ticks per microsecond. |
| `KronosTime.EpochTimeToKronosTimeMonotone` | pykronos/pykronos/utils/time.py:28 | Seconds to ticks is monotone non-decreasing. |
| `KronosTime.KronosTimeToEpochTimeMonotone` | pykronos/pykronos/utils/time.py:32 | Ticks to seconds is monotone non-decreasing. |

## Left out

- Flask routing, `require_auth`, `json_endpoint`, templates, the Metis HTTP
  calls and `callsource` (`views.py:21-83`, `183-220`). These are HTTP glue
  with no reconciliation logic.
- Persistence and board ids: `Board.query`, `set_board_data`, `save` and the
  `os.urandom` id for a new board (`views.py:116-122`, `175-178`). The stored
  panels are a parameter of `ReconcileBoard`, and the saved document is the
  array it updates.
- The bodies of `enable_precompute` and `disable_precompute`, and
  `QueryCompute` and `get_seconds`. They live in files that are not part of
  this model. The client only records calls and returns distinct ids, and
  `bucket_width` is a JSON value compared as a whole.
- Client failures: the modelled task client never raises. In the source, an
  exception from `enable_precompute` or `disable_precompute`
  (`views.py:144-169`) ends the request: the calls made before it stay made,
  and the board is not saved (`views.py:175` is not reached).
- `enabled` is a boolean in the model. The source tests the JSON value's
  Python truthiness.
- JSON shape errors: a panel missing `data_source`, `precompute` or `enabled`
  would raise KeyError, and so would a stored panel missing `code` or
  `timeframe` when the restart test reads them (`views.py:163`, `views.py:166`).
  The `Panel` datatype always has those keys.
- JSON equality: `Json` values are compared structurally, with numbers as exact
  reals. Python's `==` treats `True == 1 == 1.0` as equal, so a stored `true`
  against an incoming `1` in `precompute` or `timeframe` makes no restart in
  the source but a restart in the model. Float rounding of JSON numbers is not
  modelled either.
- `code` and panel ids are strings in the model. The source compares `code`
  as any JSON value (`views.py:163`) and accepts any hashable id.
- Only the KeyError of the incoming comprehension is modelled, as
  `ok == false` with nothing called. The request fails there before any call.
- Python truthiness of a panel dict (`not new_panel`): a panel dict always
  holds at least its id, so it is truthy. The model tests presence with
  `Option`.
- The reassignment `new_panels = new_panels.values()` (`views.py:173`) is
  dead: nothing reads it before the save.
- Floating point: `1e7` and `1e-7` products and `total_seconds()` are exact
  reals and rationals here. Float rounding of very large or sub-microsecond
  values is not modelled.
- `KronosTime.KronosTimeNow`: the wall clock is a parameter (microseconds since
  the epoch). It is not read.
- `dateutil` time zones: an aware datetime carries a fixed UTC offset. Zone
  rules and daylight saving are library behaviour.
- Calendar fields of a datetime (year through microsecond) are folded into
  microseconds since 1970. Only the bounds of the year range 1..9999 are
  modelled.
