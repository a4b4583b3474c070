# Incident log classifier

This is a Dafny model of `format_incident`, the structlog processor in the incident-simulation backend. It
promotes error and critical log records to incident records. structlog runs it near the end
of its processor chain, after the log level has been added and before JSON rendering. The
processor gets the log method name and the event dictionary. When the method is `error` or
`critical` it changes that dictionary in place:

- `type` is set to `"incident"`;
- `service` is set to `"incident-backend"`;
- `event` is renamed to `incident_type`;
- `level` is renamed to `severity`.

It then returns the same dictionary object. For any other method it returns the dictionary
untouched.

The model has two modules.

- `EventDicts` (`event_dict.dfy`) models the Python `dict` as an insertion-ordered
  association list with distinct keys. It defines:
  - the `Value` type of log values, which covers nested dictionaries and lists;
  - the pure operations `SetKey` (`d[k] = v`), `RemoveKey` (`d.pop(k)`) and `Lookup`
    (`d.get(k)`), plus an unordered map view `ToMap`;
  - the class `EventDict`, whose methods `Contains`, `Set` and `Pop` update its `entries`
    field in place.

  Assigning to a present key keeps that key's position. Assigning to a new key appends it.
- `Logger` (`logger.dfy`) has the processor:
  - `FormatIncident` mutates an `EventDict` and returns that same object;
  - `Formatted` is the function on entry lists that specifies it;
  - the lemmas state what the processor guarantees.

## Model

| member | source | states |
|---|---|---|
| `Logger.FormatIncident` | backend/app/logger.py:7-20 | The processor never fails on a dictionary. It updates the given dictionary in place and returns that same object. The new entries are `Formatted(methodName, old entries)`. For a method other than `error`/`critical` the entries are exactly the old ones, same keys, values and order. The result is again a dictionary (distinct keys). |
| `Logger.FormatIncidentFields` | backend/app/logger.py:8-18 | For `error`/`critical`: `type` is `"incident"` and `service` is `"incident-backend"`, whatever they held before. `event` and `level` are absent. If `event` was present, `incident_type` holds its old value; otherwise `incident_type` keeps its own value, or stays absent. The same holds for `level`/`severity`. Every key outside the six touched keys keeps its value, and the keys stay distinct. |
| `Logger.FormatIncidentMap` | backend/app/logger.py:7-20 | As unordered maps, the result and the input agree on every key except the six touched keys. Nested values such as `details` are included. For other methods the maps are equal. |
| `Logger.FormatIncidentOthers` | backend/app/logger.py:7-20 | For every method, the entries whose keys lie outside the six touched keys come out in their original order and with their original values. |
| `Logger.FormatIncidentIdempotent` | backend/app/logger.py:9-18 | Applying the processor twice with the same method gives exactly the dictionary one application gives, including order. |
| `Logger.FormatIncidentLayout` | backend/app/logger.py:9-18 | Take a record as structlog builds it: `event` and `level` are present and none of `type`, `service`, `incident_type`, `severity` is. The result is the untouched entries in their original order, followed by `type`, `service`, `incident_type` (the old `event`) and `severity` (the old `level`). Popping and then assigning moves the renamed keys to the end. |
| `Logger.RenameLookup` | backend/app/logger.py:13-18 | `if src in d: d[dst] = d.pop(src)` removes `src` and gives `dst` the old value of `src`. When `src` is absent, `dst` is left as it was. No other key changes, and the keys stay distinct. |
| `Logger.RenameOthers` | backend/app/logger.py:13-18 | A rename between two keys of a set leaves the entries outside that set unchanged and in order. |
| `EventDicts.EventDict.Contains` | backend/app/logger.py:13 | `k in d` is true exactly when the dictionary holds `k`, in both the ordered and the map view. |
| `EventDicts.EventDict.Set` | backend/app/logger.py:9-10 | `d[k] = v`: `k` maps to `v` and every other key is unchanged. A present key keeps its position; a new key is appended. The keys stay distinct. |
| `EventDicts.EventDict.Pop` | backend/app/logger.py:14 | `d.pop(k)` returns the value stored under `k` and removes `k`. Every other key is unchanged. On a missing key it returns `None` (Python's `KeyError`) and leaves the dictionary as it was. |
| `EventDicts.SetKeyLookup` | backend/app/logger.py:9-10 | After assignment, the assigned key holds the new value and every other key holds its old one. |
| `EventDicts.SetKeyKeys` | backend/app/logger.py:9-10 | Assignment keeps the key order when the key is present and appends the key otherwise. |
| `EventDicts.SetKeySame` | backend/app/logger.py:9-10 | Assigning a key the value it already holds leaves the dictionary identical. |
| `EventDicts.RemoveKeyLookup` | backend/app/logger.py:14 | After removal the key is absent and every other key holds its old value. |
| `EventDicts.RemoveKeyIsOthers` | backend/app/logger.py:18 | In a dictionary, removing a key keeps all the other entries in their order. |

## Left out

- `configure_logger` and the processor chain (backend/app/logger.py:22-54) are library
  wiring; the processors that run before this one are structlog's. The model assumes only
  what the processor itself needs. `FormatIncidentLayout` takes as a hypothesis the
  `level` key that `add_log_level` inserts.
- The processor's `logger` argument is not modelled, because the processor never reads it.
- Timestamps, JSON rendering and output to stdout are not modelled. They are I/O or
  library behaviour.
- Floating-point log values (such as `process_time`) have no `Value` constructor. The
  processor passes every value through without looking at it, so nothing depends on the
  kind of value.
- The alert dispatcher, the HTTP middleware and routes, the database setup, the cloud
  function and the deliberately crashing bug handlers are not part of this model. They are
  network, HTTP, database or UI glue, or code written to fail. The leak accumulator, the
  outage flag, the traffic generator and the truncation and upper-casing of incidents do
  not occur in the modelled source files.
- The ordering guarantee is weaker than a general description would suggest. Renamed keys
  do not keep their positions: `pop` followed by assignment moves them to the end, as
  `FormatIncidentLayout` shows. Only the untouched keys keep their original order
  (`FormatIncidentOthers`).
