# SentinelOneOps incident store — a Dafny model

SentinelOneOps is a small incident-tracking service. It keeps a list of
incidents (alerts) in memory, newest first, and rewrites the whole list to a
JSON data file after every change. It lists a fixed inventory of five
infrastructure assets. It can ask an optional text generator for an HTML
explanation of an incident, or for a "chaos oracle" prediction about a
randomly chosen asset, and it falls back to a fixed template whenever the
generator is missing or its call fails.

This project models that core, all of it in `backend/app.py`, and proves:

- the record `create` builds: the identifier `INC-<1000 + n>` for a store of
  n incidents, the defaults for missing request keys, `acknowledged` false;
- that `create` puts the record at the head and persists the list, and that
  `clear` empties it and persists the empty list;
- the identifier invariant: in a store that started empty, element i (0 is
  the newest) is `INC-<1000 + |store| - 1 - i>`, so identifiers are distinct,
  and a lookup by the identifier of element i finds element i;
- that identifiers are reused after `clear`: the next `create` hands out
  `INC-1000` again;
- that loading a missing or unparsable file gives the empty list, and that a
  restart after any change loads the same list back;
- that `explain` fails with NotFound (404) exactly when no incident has the
  identifier, and otherwise explains the first match, newest first: the
  generator's text verbatim (or `null` when the response has none) when a
  client exists and its call succeeds, the non-empty fallback naming the
  incident's service and severity otherwise;
- that the oracle's prediction is the generator's text or a fallback naming
  the chosen asset's name, region and type, and that the inventory is the
  fixed five-asset list with distinct identifiers.

Modules: `Wrappers` (Option, Result), `IdFormat` (the `INC-<n>` identifier
and its decimal digits), `Text` (f-string templates and containment),
`Generation` (the client and the fallback rule), `Incidents` (records,
defaults, the data file and the `IncidentStore` class), `Explain` (lookup
and explanation), `Inventory` (assets and the chaos oracle).

How the untyped parts are modelled:

- The module-level list `INCIDENTS` and the data file are the two fields of
  the class `IncidentStore`: `incidents: seq<Incident>` and a `DataFile`,
  which is `Missing`, `Corrupt` (present but not JSON) or `Written(records)`
  (a file that parses to those records). Saving writes `Written(incidents)`.
- The request body is a `CreateRequest` of three optional strings; an absent
  key is `None`.
- `datetime.now().isoformat()` is the `openedAt` parameter of `Create`.
- `random.choice(INVENTORY_MOCK)` is the `choice` parameter of `ChaosOracle`,
  an index into the inventory.
- The generator client is a `Client`: `NoClient` (library missing, no
  credential, or client construction failed) or `Connected(generate)`, where
  `generate` maps a prompt to `Generated(text)` or `GenerationFailed`. The
  response text is optional: a response with no text part (a blocked
  prompt, say) is passed through as `None`, as the code answers `null`
  rather than falling back.
- The HTML fallbacks and prompts are modelled with their literal text, as
  the f-strings build them: fixed pieces with the record's fields between.

The code has no diagnostic "deep log" field on incidents and no separate
`get` operation; the only lookup is the one inside `explain`. The model
follows the code.

## Model

| member | source | states |
|---|---|---|
| IdFormat.Decimal | backend/app.py:83 | the number in an identifier is written with decimal digits only, at least one, with a leading zero only for 0 |
| IdFormat.ParseDecimalOfDecimal | backend/app.py:83 | reading the decimal digits back gives the number: the digit text determines the number |
| IdFormat.IdString | backend/app.py:83 | an identifier is `INC-` followed by decimal digits |
| IdFormat.IdStringInjective | backend/app.py:83 | two incident numbers give the same identifier if and only if they are equal |
| Text.InterpolateShowsValue | backend/app.py:113-120 | every value placed into an f-string template occurs in the resulting text |
| Generation.WithFallback | backend/app.py:122-134 | the response text verbatim, absent (`null`) when the response carries none, when a client exists and its call succeeds; the fallback when there is no client or the call fails; never anything else |
| Incidents.NewIncident | backend/app.py:83-91 | the record for a store of n incidents has id `INC-<1000+n>`; supplied severity, service and summary are copied, missing ones become `info`, `unknown` and `Sem descrição`; `opened_at` is the creation time; `acknowledged` is false |
| Incidents.LoadData | backend/app.py:48-55 | a missing or unparsable data file loads as the empty list; a parsed file loads as its records |
| Incidents.SaveData | backend/app.py:57-59 | the file written for a list loads back as that same list |
| Incidents.CreatePreservesNumbering | backend/app.py:83-92 | putting the next record at the head of a well-numbered list keeps it well numbered |
| Incidents.WellNumberedIdsDistinct | backend/app.py:83-92 | a well-numbered list has pairwise distinct identifiers |
| Incidents.Replay | backend/app.py:81-94 | N creates from an empty store give a list of N incidents |
| Incidents.ReplayNewestFirst | backend/app.py:81-94 | after N creates from empty, element i is the record built from the (N-1-i)-th request with number 1000+N-1-i: reverse creation order |
| Incidents.ReplayIdsDistinct | backend/app.py:81-94 | a store built by creates from empty is well numbered and its identifiers are distinct |
| Incidents.IncidentStore.constructor | backend/app.py:61 | at start the list is what the data file loads as |
| Incidents.IncidentStore.List | backend/app.py:77-79 | the list returned is the whole in-memory list, newest first |
| Incidents.IncidentStore.Save | backend/app.py:57-59 | after saving, the file holds exactly the in-memory list |
| Incidents.IncidentStore.Create | backend/app.py:81-94 | returns the new record for the old count; the list becomes that record followed by the old list in order; the file holds the new list; a well-numbered list stays well numbered |
| Incidents.IncidentStore.Clear | backend/app.py:96-100 | the list becomes empty whatever it held (so clearing twice is clearing once), the file holds the empty list, and the success message is returned |
| Incidents.ClearThenCreate | backend/app.py:83-99 | after a clear, the next create returns `INC-1000` and the store holds just that record, persisted: identifiers are reused across clears |
| Incidents.CreateInSequence | backend/app.py:81-94 | N calls of the store's create, oldest first, from a missing data file leave the list `Replay` gives (newest first), with distinct identifiers, and persisted once anything was created |
| Incidents.Restart | backend/app.py:48-61 | a process restart after a persisted state loads exactly the same list |
| Explain.FindFirst | backend/app.py:109 | no position exactly when no incident has the identifier; otherwise the first such position, newest first |
| Explain.FindFirstInWellNumbered | backend/app.py:109 | in a well-numbered store the lookup of element i's identifier finds element i |
| Explain.ExplainFallback | backend/app.py:113-120 | the offline explanation is non-empty and contains the incident's service and severity |
| Explain.ExplainPrompt | backend/app.py:123-127 | the prompt contains the incident's identifier, service, severity and summary |
| Explain.ExplainIncident | backend/app.py:107-134 | NotFound (404, with its message) if and only if no incident has the identifier; otherwise the generated-or-fallback explanation of the first match |
| Explain.ExplainOffline | backend/app.py:113-134 | with no client or a failed call, a known incident gets the fallback explanation, which is non-empty and names its service and severity |
| Inventory.ListInventory | backend/app.py:102-104 | the inventory listed is the fixed list of five assets, unchanged, with distinct identifiers |
| Inventory.ChaosFallback | backend/app.py:142-150 | the offline prediction is non-empty and contains the asset's name, region and type |
| Inventory.ChaosPrompt | backend/app.py:153-161 | the oracle's prompt contains the asset's name, type and region |
| Inventory.ChaosOracle | backend/app.py:138-168 | for the chosen inventory asset: the response text (possibly absent) when a client exists and its call succeeds, otherwise a present text naming the asset's name, region and type |

## Left out

- HTTP routing, CORS, the `HTTPException` machinery (only its status and message are kept, as the NotFound result), static file mounting and `read_root`: web framework plumbing.
- The `health` endpoint: it only reports the clock.
- Environment loading, the optional import of the generator library and client construction: reduced to the `Client` value, including `NoClient` when construction fails.
- JSON encoding and decoding and real file I/O: the file is the `DataFile` value, and a written file is taken to parse back to the records written.
- Incidents.IncidentStore.Create, Incidents.IncidentStore.Clear: a failed write of the data file is not modelled. The code changes the in-memory list before writing (backend/app.py:92-93, 98-99), so a failed write leaves memory ahead of the file and the request fails; the model's write always succeeds, so both methods always end persisted.
- Incidents.LoadData: does not model a file that parses to something other than a list of incident records, nor read errors other than a missing file or a JSON decode error (those propagate in the code).
- Incidents.NewIncident: request values are strings; a key sent with a non-string value, or with `null`, is copied through by the code unchanged and is not modelled.
- The random choice and the clock: they are parameters (`choice`, `openedAt`).
- Logging: the code does not log a failed generation; it returns the fallback silently, so there is nothing to model.
- Whether the generated text is valid HTML: the code does not check it.
- Concurrency: each request runs to completion; interleaved create and clear calls are not modelled.
- frontend/script.js: browser UI code, not part of this model.
