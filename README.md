# LibCal → Alma → PassagePoint, modelled in Dafny

This project models the integration that registers LibCal space bookings as
PassagePoint pre-registrations. One run of the orchestrator `LibCal2PP`
(app.py) does these steps:

1. It retrieves the day's bookings from the LibCal API, location by location.
2. It drops bookings whose `bookId` already has a row in the SQLite
   appointment cache.
3. It looks up each patron once in the SQLite user cache. A patron found
   there brings their PassagePoint visitor id. A patron not found gets a
   barcode and user group from the Alma users API, and then a PassagePoint
   visitor is created for them.
4. It creates one PassagePoint pre-registration per booking whose patron
   has a visitor id.
5. It stores the new users and appointments in the cache.

Each Python file becomes one Dafny module, in the file's own form:

| module | file | form |
|---|---|---|
| `Py` (py.dfy) | — | Python values: a JSON-like `Json`, the exceptions as `Exc`, `Result`, truthiness, `in`, `[]`, `str()` |
| `Http` (http.dfy) | — | the network: each remote system is a scripted `Wire` that answers one HTTP call per `Exchange` and records every `Request` sent |
| `Utils` (utils.dfy) | utils.py | `partition` as a function; `load_config` as a method over a parsed document and an `Attributes` object |
| `SqliteCache` (sqlite_cache.dfy) | sqlite_cache.py | class `SQLiteCache` with fields `users` and `appts` (a table per field; `None` until created) |
| `Alma` (alma.dfy) | alma_requests.py | `_extract_info` and `main` as loop methods, proved against fold functions |
| `LibCal` (libcal.dfy) | libcal_requests.py | class `LibCalRequests`: `token` and the wire are fields, and collection is a loop |
| `Timestamp` (timestamp.dfy) | pp_requests.py:129-131 | `strptime(..., '%Y-%m-%dT%H:%M:%S%z').timestamp()` as integer calendar arithmetic |
| `PassagePoint` (pp.dfy) | pp_requests.py | class `PassagePointRequests` with `token`, `req_header` and the wire as fields; the methods are proved against `*Spec` functions over a `Session` value |
| `App` (app.dfy) | app.py | class `LibCal2PP` over the three client objects; its methods are proved against fold functions |

Key modelling choices:

- A Python exception is `Err(e)` in a `Result`. A `try/except` that logs and
  continues is a branch that drops the error.
- An HTTP call consumes the next scripted exchange. When the script is used
  up, the call fails with `ConnectionError`. A finite script is also what
  makes the source's unbounded 401 → refresh → re-call recursion
  terminate.
- The concurrent Alma lookup becomes a function `fetch` that maps one user
  id to the value `_fetch_user` returns for it.
- Parameter binding follows the sqlite3 module of Python 3.11 and later
  (earlier versions raise InterfaceError, not ProgrammingError, for a value
  of an unsupported type). Placeholders bind in order,
  and the first one that fails decides the error. A missing name or a value
  of an unsupported type raises ProgrammingError. An integer outside the
  signed 64-bit range raises OverflowError.

The code does not retry exactly once after a 401, does not drop
cancelled bookings, does not deduplicate bookings by `bookingId`, and does
not look patrons up across Alma zones. The model follows the code.
`PassagePoint.GetVisitorRetriesUnbounded` proves that the code's retry
count has no bound.

## Model

| member | source | states |
|---|---|---|
| Utils.Partition | utils.py:31-34 | the first part holds exactly the elements failing `pred`, the second exactly those passing it (both by membership and by multiplicity); the lengths add up to the input's and the multiset union is the input |
| Utils.PartitionAppend | utils.py:31-34 | partition is stable: partitioning a concatenation concatenates the partitions, so each part keeps input order |
| Utils.FilterAppend | utils.py:34 | `filter` distributes over concatenation (order preserved) |
| Utils.RequiredSection | utils.py:13-18 | succeeds exactly when the top-level key is present and its section holds every required key, returning the section; a missing top-level key or a missing required key raises |
| Utils.LoadConfig | utils.py:5-28 | fails with RequiredSection's error and sets nothing when it fails; on success it returns the section without an object, and with one it adds exactly the required keys as attributes holding the section's values and returns the object |
| SqliteCache.CreateTables | sqlite_cache.py:19-37 | creates both tables on a fresh file; an existing `users` table makes the first CREATE fail with "already exists", so nothing changes; an existing `appts` table is preserved |
| SqliteCache.CreateTablesIdempotent | sqlite_cache.py:31-35 | re-initialising over existing tables changes nothing |
| SqliteCache.BindError | sqlite_cache.py:92-95 | an unbindable value raises OverflowError exactly when it is an integer outside the signed 64-bit range, and ProgrammingError exactly when its type has no SQL adapter |
| SqliteCache.BindNamed | sqlite_cache.py:43-46 | a dict binds exactly when every placeholder name is present with a bindable value, giving the values in placeholder order; a failure is ProgrammingError or OverflowError |
| SqliteCache.BindNamedFirstError | sqlite_cache.py:43-46 | the error raised is the one of the first placeholder that fails: ProgrammingError for a missing name, else that value's BindError |
| SqliteCache.BindEach | sqlite_cache.py:79-82 | a sequence binds exactly when every element is bindable, giving it back unchanged |
| SqliteCache.BindEachFirstError | sqlite_cache.py:79-82 | the error raised is the BindError of the first element that fails |
| SqliteCache.BindPositional | sqlite_cache.py:92-95 | positional values bind exactly when their number matches the placeholders and each binds; a wrong number raises ProgrammingError before any value is looked at |
| SqliteCache.BindPositionalFirstError | sqlite_cache.py:92-95 | with the right number of values, the error raised is the BindError of the first value that fails |
| SqliteCache.BindParams | sqlite_cache.py:79-82 | named parameters bind from a dict, positional ones from a list of the right length; every bound value is a bindable SQL value (an integer within 64 bits); a list of the wrong length and a non-sequence raise ProgrammingError; any failure is ProgrammingError or OverflowError |
| SqliteCache.BindNamedOverflow | sqlite_cache.py:92-95 | binding a dict raises OverflowError exactly when the first failing placeholder holds an integer outside 64 bits, and ProgrammingError otherwise |
| SqliteCache.Select | sqlite_cache.py:39-71 | a missing table raises OperationalError and an unbindable key raises its BindError (OverflowError for an integer outside 64 bits, ProgrammingError for an unsupported type); otherwise the result is the stored row exactly when the key is present, and None otherwise |
| SqliteCache.SQLiteCache.constructor | sqlite_cache.py:17-37 | the cache's tables are those CreateTables leaves in the file |
| SqliteCache.SQLiteCache.UserLookup | sqlite_cache.py:39-54 | returns Select on the `users` table by `primary_id` and changes nothing |
| SqliteCache.SQLiteCache.ApptLookup | sqlite_cache.py:56-71 | returns Select on the `appts` table by `appt_id` and changes nothing |
| SqliteCache.ReplaceAllSucceeds | sqlite_cache.py:79-82 | the batch succeeds exactly when every row binds |
| SqliteCache.ReplaceAllFrame | sqlite_cache.py:73-82 | after the batch the keys are the old keys plus the batch's keys; rows whose key is not in the batch are unchanged |
| SqliteCache.ReplaceAllLastWins | sqlite_cache.py:79-82 | insert-or-replace: a key ends holding the row of its last occurrence in the batch |
| SqliteCache.ReplaceAllPrefixFails | sqlite_cache.py:76-85 | the first row that fails to bind fails the whole batch with that row's error |
| SqliteCache.SQLiteCache.AddUsers | sqlite_cache.py:73-85 | the loop leaves `users` as the ReplaceAll of the batch, or unchanged when any row fails (the transaction rolls back); `appts` is never touched; a missing table raises OperationalError |
| SqliteCache.InsertAppt | sqlite_cache.py:87-101 | a missing table raises OperationalError; a binding failure raises the binding's own error; a bound row whose key is already stored raises NameError, and any other bound row is added; success keeps every stored row with its value, adds exactly one row, and stores it under its key, or among the NULL-keyed rows when its key is NULL |
| SqliteCache.InsertApptThenSelect | sqlite_cache.py:87-95 | inserting a fresh `{appt_id, prereg_id}` makes the lookup by `appt_id` return that row |
| SqliteCache.InsertApptDuplicate | sqlite_cache.py:96-98 | inserting an existing `appt_id` raises NameError (the handler's `appd_data` typo), not the IntegrityError |
| SqliteCache.InsertApptRejectsListOfDicts | sqlite_cache.py:92-95 | a list of dicts never binds as one row: ProgrammingError |
| SqliteCache.SQLiteCache.AddAppt | sqlite_cache.py:87-101 | `appts` becomes the InsertAppt result, or stays unchanged on failure (rolled back); `users` is never touched |
| SqliteCache.SQLiteCache.DeleteAppts | sqlite_cache.py:103-104 | changes nothing |
| Alma.ExtractUserGroup | alma_requests.py:41-46 | a missing `user_group` gives None; a falsy group is returned as it is; a truthy dict gives its `desc`, or None without one; a truthy non-dict raises AttributeError |
| Alma.FirstBarcodeFound | alma_requests.py:33-37 | a barcode found is the `value` of an identifier whose `id_type.value` is BARCODE, and none before it is |
| Alma.FirstBarcodeIgnoresRest | alma_requests.py:33-37 | once a BARCODE identifier is reached, later identifiers are not read (`break`) |
| Alma.FirstBarcodeNone | alma_requests.py:33-37 | without a BARCODE identifier, no barcode is found |
| Alma.UserEntry | alma_requests.py:30-37 | an entry is keyed by the record's hashable `primary_id` and holds `user_group` from ExtractUserGroup, plus nothing but `barcode` |
| Alma.UserEntryBarcode | alma_requests.py:31-37 | an entry has a `barcode` key exactly when the record has a BARCODE identifier, and it holds the first one |
| Alma.ExtractInfoKeys | alma_requests.py:28-31 | the mapping's keys are exactly the records' `primary_id`s |
| Alma.ExtractInfoLastWins | alma_requests.py:31 | a later record with the same `primary_id` replaces the earlier entry wholesale |
| Alma.ExtractInfoPrefixFails | alma_requests.py:29-37 | the first record that raises ends `_extract_info` with that exception |
| Alma.ExtractInfo | alma_requests.py:26-38 | the nested loops (with `break`) compute ExtractInfoSpec |
| Alma.QueriedIds | alma_requests.py:65 | exactly the truthy user ids are queried, each as often as it is given |
| Alma.MainIsExtractOfRecords | alma_requests.py:53-55 | when every result can be tested, `main` is `_extract_info` of the partition's second part, the results holding `record_type` |
| Alma.MainIsExtractOfFilter | alma_requests.py:53-55 | the same, with the kept results as the records in order; error dicts never reach the mapping |
| Alma.MainKeys | alma_requests.py:28-55 | the key set of `main`'s mapping is the set of `primary_id`s of the results that are records |
| Alma.MainSpecErrSticks | alma_requests.py:53-55 | a result whose test raises ends `main` whatever follows it |
| Alma.ScanResults | alma_requests.py:53-55 | the lazy filter run alongside the extraction: with no failing test, MainSpec is the extraction of the records kept; otherwise it is the extraction's error if it raises, and the test's exception if not |
| Alma.FetchBarcodes | alma_requests.py:49-59 | the loop over the results of the truthy ids (the filter at line 65) computes MainSpec, interleaving the lazy filter and the extraction as Python does |
| LibCal.TokenFrom | libcal_requests.py:62-70 | an unreachable server, an HTTP error status, undecodable JSON or `'error'` in the payload raises; otherwise the result is the payload's `access_token` |
| LibCal.BookingsReq | libcal_requests.py:47-54 | the header is `Authorization: Bearer <token>`; the params are exactly `limit` 100, `lid` = `location['id']` unchanged, and `formAnswers` 1; a location without `id` raises KeyError |
| LibCal.BookingsFrom | libcal_requests.py:37-42 | the payload is returned exactly when the call succeeded and `'error' in payload` is false; key presence for a dict, membership of the string for a list |
| LibCal.GetBookingsStep | libcal_requests.py:29-45 | a request-building failure sends nothing; otherwise exactly one GET with BookingsReq's header and params is sent and its reply is judged by BookingsFrom |
| LibCal.CollectConcat | libcal_requests.py:18-27 | for locations holding `id` and `name`, the collection is the concatenation, in location order, of the lists of the locations whose request succeeded; a failing location adds nothing and the rest are still asked, one request each |
| LibCal.CollectAllEmpty | test_libcal.py:258-272 | empty lists at every location give an empty collection |
| LibCal.LibCalRequests.constructor | libcal_requests.py:7-14 | the client holds its configuration and wire and no token |
| LibCal.LibCalRequests.FetchToken | libcal_requests.py:56-74 | sends the credential POST; on success `token` becomes TokenFrom's value, and on failure it is unchanged |
| LibCal.LibCalRequests.GetBookings | libcal_requests.py:29-45 | the result and the wire are GetBookingsStep's |
| LibCal.LibCalRequests.RetrieveBookingsByLocation | libcal_requests.py:16-27 | the loop computes Collect over the configured locations; `token` and `locations` are unchanged |
| Timestamp.YearLength | pp_requests.py:130-131 | the day count gives a year 366 days exactly when it is a Gregorian leap year |
| Timestamp.OrdinalNextDay | pp_requests.py:130-131 | consecutive calendar days have consecutive ordinals |
| Timestamp.Parse | pp_requests.py:129-131 | a parsed datetime is valid, and a failure is a ValueError |
| Timestamp.ParseFormat | pp_requests.py:129-131 | reading back the `%Y-%m-%dT%H:%M:%S%z` text of a valid datetime gives that datetime |
| Timestamp.EpochSecondsExample | pp_requests.py:172 | 2020-08-22T20:05:00-04:00 is 1598141100 seconds after the epoch, offset applied |
| PassagePoint.ExtractId | pp_requests.py:49-56 | a dict without `data` raises KeyError and an empty list raises IndexError |
| PassagePoint.ExtractIdShapes | pp_requests.py:49-56 | `payload[0]['id']` for a list and `payload['data'][0]['id']` for a dict |
| PassagePoint.VisitorParams | pp_requests.py:79-84 | succeeds exactly when the visitor holds every key read, with hashable `user_group`; `category` is the mapped group or `Visitor`, `uniqueId` is `str(barcode)`, `mobilePhoneNo` is `primary_id`; a missing `user_group` raises KeyError first |
| PassagePoint.EpochText | pp_requests.py:130-131 | a non-string raises TypeError; a string gives the decimal text of its epoch seconds exactly when it parses |
| PassagePoint.PreregPayload | pp_requests.py:128-134 | the payload is exactly `startTime`, `endTime`, `visitorId` = `str(visitor)` and `destination` = the mapped `booking['destination']` or None; a missing `destination` raises KeyError |
| PassagePoint.PreregPayloadExample | pp_requests.py:172 | the example booking gives start 1598141100 and end 1598148300 |
| PassagePoint.Login | pp_requests.py:30-38 | an unreachable server, an HTTP error or `'error'` in the login JSON raises; otherwise the result is the payload's `token` |
| PassagePoint.FetchTokenSpec | pp_requests.py:25-42 | sends one login POST; the token becomes Login's value on success and is unchanged on failure; the header is untouched |
| PassagePoint.MakeHeaderSpec | pp_requests.py:44-47 | after a successful login the header is exactly `{token, Content-Type: application/json}`; a failed login leaves it unchanged; success consumes an exchange |
| PassagePoint.CreateVisitorSuccess | pp_requests.py:86-93 | a successful reply without `'error'` sends exactly one POST with VisitorParams and returns ExtractId of the payload |
| PassagePoint.CreateVisitorAlreadyExists | pp_requests.py:94-98 | an HTTP error whose text contains ALREADY_EXIST_UNIQUE_ID returns `get_visitor_bybarcode(barcode)` |
| PassagePoint.CreateVisitorOtherError | pp_requests.py:94-100 | a non-401 HTTP error whose text does not contain ALREADY_EXIST_UNIQUE_ID is raised unchanged by `error_handler` (lines 70-73), after exactly one request, with the token kept |
| PassagePoint.CreatePreregSuccess | pp_requests.py:135-144 | a successful reply sends exactly one POST with PreregPayload and keeps the token; it raises the payload when it contains `'error'`, and returns ExtractId of the payload otherwise |
| PassagePoint.CreatePreregOtherError | pp_requests.py:138-146 | a non-401 HTTP error is raised unchanged by `error_handler` (lines 70-73), after exactly one request, with the token kept |
| PassagePoint.IdFrom | pp_requests.py:139-144 | a body that is not JSON raises JSONDecodeError; with the `'error'` check, a payload holding `'error'` is raised, and one `in` cannot search raises TypeError; otherwise the result is ExtractId of the payload |
| PassagePoint.GetVisitorOtherError | pp_requests.py:106-120 | a non-401 HTTP error is raised unchanged by `error_handler` (lines 70-73) after one request |
| PassagePoint.Refresh | pp_requests.py:59-69 | on 401 the handler logs in again, sets the new token and the header built from it, and calls the operation again; the re-call's exception propagates, but its successful result is dropped and None returned |
| PassagePoint.GetVisitorRetriesUnbounded | pp_requests.py:59-120 | after any number n of consecutive 401s, each followed by a successful login, the lookup still re-calls; the outer call returns None after 2n+1 requests |
| PassagePoint.PassagePointRequests.constructor | pp_requests.py:11-23 | the client holds its configuration and wire, with no token and an empty header |
| PassagePoint.PassagePointRequests.FetchToken | pp_requests.py:25-42 | the result and new state are FetchTokenSpec's |
| PassagePoint.PassagePointRequests.MakeHeader | pp_requests.py:44-47 | the result and new state are MakeHeaderSpec's |
| PassagePoint.PassagePointRequests.Retry | pp_requests.py:59-62 | refreshes the header, then re-invokes the call only when that succeeded |
| PassagePoint.PassagePointRequests.ErrorHandler | pp_requests.py:65-73 | the result and new state are ErrorHandlerSpec's: retry on 401, re-raise otherwise |
| PassagePoint.PassagePointRequests.Invoke | pp_requests.py:76-147 | dispatches to the three calls; the result and state are InvokeSpec's |
| PassagePoint.PassagePointRequests.CreateVisitor | pp_requests.py:76-103 | the result and new state are CreateVisitorSpec's |
| PassagePoint.PassagePointRequests.GetVisitorByBarcode | pp_requests.py:106-120 | the result and new state are GetVisitorByBarcodeSpec's |
| PassagePoint.PassagePointRequests.CreatePrereg | pp_requests.py:123-147 | the result and new state are CreatePreregSpec's |
| App.Lookup | app.py:62 | a dict lookup finds a value exactly for a key the dict holds, and that value is stored under it |
| App.Assign | app.py:102-106 | after `d[k] = v`, `k` maps to `v`, every other key keeps its value, and no other item is added |
| App.AssignKeys | app.py:102-106 | an existing key keeps its place in insertion order; a new key goes last |
| App.FilterNewGate | app.py:50 | the gate succeeds exactly when every booking's `bookId` can be read and looked up; it then keeps, in order, exactly the bookings with no cached appointment |
| App.ScanLookups | app.py:91-99 | every booking's patron is considered; the user cache is asked about a patron again only after its earlier lookups raised; the patrons in `users` or `new_users` are exactly those whose lookup succeeded |
| App.ScanEntries | app.py:100-106 | a cache hit records the cached `visitor_id`; a miss records `firstName` and `lastName` from the patron's first booking |
| App.ScanPrefixFails | app.py:91-92 | a booking without a usable `primary_id` ends `process_users` with that exception |
| App.FirstIndex | app.py:130 | the position of the first occurrence of an element: it holds the element and no earlier position does |
| App.Dedup | app.py:130 | the keys listed once each, with nothing added, ordered by the position of their first occurrence |
| App.Items | app.py:130 | `pid_to_barcode.items()` lists only the mapping's entries, with their values |
| App.AlmaItems | app.py:130 | the items of `main`'s mapping list every entry exactly once |
| App.CreateAllYields | app.py:130-144 | no more rows than Alma entries; each row is `{visitor_id, primary_id, barcode}` for one entry, made only when the `create_visitor` call the loop made for that entry, in the session the loop then held, succeeded, and carrying the visitor id that call returned, the entry's `primary_id` and the entry itself as `barcode` |
| App.CreateAllOnePerEntry | app.py:130-141 | when the entries' `primary_id`s are distinct, no two yielded rows carry the same `primary_id` |
| App.RegisterOnePerPatron | app.py:120-144 | `register_new_users` yields at most one row per `primary_id`, since the items of `main`'s mapping have distinct keys |
| App.CreateAllAsWritten | app.py:130-144 | the patron info has no `user_group` (read at pp_requests.py:79), so every `create_visitor` raises before sending anything: nothing is yielded and PassagePoint gets no request |
| App.RegisterAsWritten | app.py:120-144 | `register_new_users` yields nothing and leaves the PassagePoint client as it was |
| App.RegisteredUsersRejected | app.py:110-115 | every yielded row carries a dict as `barcode`, which does not bind (sqlite_cache.py:79-82), so `add_users` leaves the user table unchanged |
| App.ProcessUsersAsWritten | app.py:84-118 | `process_users` changes neither the user table nor PassagePoint, and returns exactly the cache hits |
| App.PreregsShape | app.py:59-76 | each saved registration is exactly `{prereg_id, appt_id}` for an attempted booking's `bookId`; there are at most as many as bookings |
| App.PreregsSkipped | app.py:61-65 | bookings whose patron has no truthy visitor id are skipped: nothing is sent and nothing saved |
| App.PreregsAsWritten | app.py:59-76 | the `pre_reg` dict has no `destination` (read at pp_requests.py:134), so every `create_prereg` raises before sending anything: no registration is saved and PassagePoint gets no request |
| App.RegistrationsRejected | app.py:77-82 | `add_appt` is given the whole list, which never binds (sqlite_cache.py:92-95), so the appointment table is unchanged |
| App.RunAsWritten | app.py:40-82 | a whole run after retrieval leaves both cache tables and the PassagePoint client as they were |
| App.LibCal2PP.constructor | app.py:24-37 | the orchestrator holds the given LibCal, Alma, cache and PassagePoint components |
| App.LibCal2PP.NewBookings | app.py:50 | the loop computes FilterNew on the current appointment table |
| App.LibCal2PP.RegisterNewUsers | app.py:120-144 | the result and the PassagePoint state are RegisterSpec's |
| App.LibCal2PP.CreateVisitors | app.py:130-144 | the loop computes CreateAll |
| App.LibCal2PP.ScanBookings | app.py:91-106 | the loop over the bookings computes ScanSpec on the current user table and changes nothing |
| App.LibCal2PP.ProcessUsers | app.py:84-118 | the result, the user table and the PassagePoint state are ProcessUsersSpec's; the appointment table is untouched |
| App.LibCal2PP.CreatePreregs | app.py:59-76 | the loop computes PreregsSpec |
| App.LibCal2PP.LogNewBookings | app.py:40-82 | a failed retrieval is only logged and nothing else changes; otherwise the result and the new cache and PassagePoint state are RunSpec's |

## Source defects

The model keeps these defects as written. Each has a lemma that shows what
it does.

- **Merge markers.** app.py:4-7 is an unresolved merge conflict, so the
  module would not import. The model takes the HEAD side, which imports
  `PassagePointRequests`.
- **Missing `user_group`.** `create_visitor` reads `visitor['user_group']`
  first (pp_requests.py:79). The patron info built at app.py:102-103 and
  133 has no such key, so no visitor is ever created.
  `App.CreateAllAsWritten` and `App.RegisterAsWritten` show this.
- **A dict as `barcode`.** app.py:133 and 141 store Alma's whole
  `{user_group[, barcode]}` dict as `barcode`, and a dict does not bind as a
  SQL value. So `add_users` would reject every row, even if visitors were
  created. `App.RegisteredUsersRejected` shows this.
- **Missing `destination`.** `pre_reg` (app.py:66-67) lacks the
  `destination` key that pp_requests.py:134 reads, so no pre-registration
  is ever created. `App.PreregsAsWritten` shows this.
- **A list given to `add_appt`.** app.py:80 passes the list of
  registrations, which does not bind as one row of named parameters.
  `App.RegistrationsRejected` shows this.
- **The `appd_data` typo.** The IntegrityError handler at
  sqlite_cache.py:97 reads an undefined name, so a duplicate `appt_id`
  raises NameError. `SqliteCache.InsertApptDuplicate` shows this.

Together these mean a run leaves both cache tables and PassagePoint exactly
as they were (`App.RunAsWritten`).

## Left out

- `AlmaRequests._retrieve_user_records` and `_fetch_user` (alma_requests.py:62-92): the aiohttp session, `asyncio.gather` and the Throttler's rate limit are concurrency and I/O. In the model they are the parameter `fetch`, applied to each truthy id in order.
- HTTP transport, `raise_for_status` and JSON decoding: a reply is a `Response(status, text, payload)`, where `payload` is the decoded JSON or None.
- Dict key order for JSON objects: `Json` objects are `map`s. Where the source iterates one (a location or identifier list given as a dict), keys are taken in lexicographic order. The orchestrator's own dicts keep insertion order as `App.Dict`.
- Alma `main`'s mapping is a `map`. Its insertion order is recovered as the order of first appearance among the results (`App.EntryOrder`).
- Floats and bytes as SQL parameters: `Json` has neither, so SqliteCache.SqlType covers NULL, booleans, integers and strings only.
- Py.Repr: a simplified `repr`. It always uses single quotes (Python switches to double quotes for a string holding `'`), escapes no characters (Python escapes backslashes and control characters), and lists dict keys in lexicographic order. It feeds `str(barcode)` in the visitor's `uniqueId` and the text of raised messages, so those texts can differ from Python's for such strings and dicts.
- Floats and Python's `1 == True`: `Json` has no floats, and its equality is structural, so `JInt(1)` and `JBool(true)` differ.
- The SQLite engine, SQL text, connection, `row_factory` and `sqlite3.connect` (sqlite_cache.py:8-17): each table is a `map` from the text form of its key, plus a multiset of rows with a NULL key. The file is a `DbFile` value given to the constructor.
- Type affinity beyond TEXT: each key is stored as its TEXT form, so integer and string keys with the same digits coincide.
- Reading and parsing the YAML file in `load_config`: the parsed document is the parameter `config`.
- The constructors' configuration loading (`load_config` at libcal_requests.py:10-13, `check_config` at pp_requests.py:15-22) and their initial token fetches (libcal_requests.py:14, pp_requests.py:23): the caller builds each client from its configuration and calls `FetchToken` or `MakeHeader` itself.
- `LibCal2PP.__init__`'s exception handling (app.py:31-37): the components are given already built.
- `check_config`: it is imported by pp_requests.py and alma_requests.py but is not defined in utils.py, so it is not part of this model.
- Logging, `print`, the `argparse` `__main__` blocks and `PassagePointRequests.get_destinations`: CLI and debug plumbing with no effect on state.
- Behaviour asserted only by test_libcal.py that libcal_requests.py does not implement (`check_status`, cancelled-status filtering, `primary_id` population, dedup by booking id): there is no code to model.
- Timestamp.Parse: accepts only the zero-padded field widths that `isoformat` produces, `Z` or a `±HH[:]MM` offset without seconds, and no fractional seconds. strptime also accepts single-digit fields and seconds in the offset.
- Timestamp.EpochSeconds: `.timestamp()` returns a float that `int()` truncates. For whole-second aware datetimes this equals the integer computed here.
