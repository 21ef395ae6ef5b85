# Vestro → Agriwin import job, modelled in Dafny

The job lists producers and authenticates once against the Vestro API. It
fetches five categories of reference data shared by every producer: products,
fuel types, vehicles, drivers and employees. Then, for each producer in turn, it
fetches that producer's supplies and product sales from its clamped checkpoint
onwards. It merges the two into one integration payload and posts that payload
to Agriwin unless it has no transactional record.

The model keeps the deterministic logic of that pipeline and replaces every
network call by an oracle, that is, a value holding the answer the server
would have given:

- `VestroApi` (internal/adaptadores/vestro_api/cliente.go). This holds the
  pagination loop `FetchAndAggregate`, run over a sequence of page responses.
  `Paginate` is the function that specifies it. The module also holds the
  query each page request carries, the seven getters with their fixed paths,
  and the accept/reject rule of `Authenticate`.
- `TimeFormat`: the `startDate` value, which is Go's layout
  `2006-01-02T15-04-05Z` applied to UTC calendar fields that are already split.
- `Strconv`: Go's `strconv.Itoa` (used for the `start`/`limit` query values)
  and `strconv.Atoi` for a 64-bit `int` (used for `FETCH_DATA_SINCE_HOURS`).
- `Dto` (internal/dto/agriwin.go): the seven-slot `IntegrationPayload`,
  `IsEmpty`, and the abstract `Subject`. A subject has an id, an identity
  filter and a checkpoint.
- `Importer` (internal/aplicacao/servicos/importar_dados.go). This holds
  `FetchData`, which writes one slot, and the fail-fast consolidation of
  `fetchCommonData` and `fetchDataForUser`. It also holds `RunImport` with its
  per-producer loop. The loop returns the outcome of each producer and the
  trace of calls made on the collaborators.
- `Notifier` (internal/adaptadores/agriwin_api/notificar.go): only the rule
  that a 2xx reply means the delivery succeeded.
- `Configuration` (internal/config/config.go): `Load` and `getEnv` over an
  environment given as a map.

Time is an integer count of nanoseconds. `now` is a parameter of `RunImport`,
and the same `now` stands for every clock reading of the run: `time.Since`
and `time.Now().Add` in the clamp and `FetchedAt` of every producer's payload,
which the source reads afresh in each iteration.

Decisions where the parts of the source do not fit together:

- The source does not compile as a whole. The loop reads `UserUUID`,
  `VestroIdentifier` and `LastIntegration` from a user record that does not
  define them (internal/dto/agriwin.go:7-12). The model's `Subject` has
  exactly those three roles: id, identity, checkpoint.
- The interface in internal/aplicacao/portas/portas.go:17-18 gives the
  transactional getters an identity argument. cliente.go:151,159 has no such
  argument and never adds an identity filter to the query. The model follows
  cliente.go, so no page query carries an identity. The identity appears only
  in the `GetUserData` call recorded in `RunImport`'s trace.
- When `fetchCommonData` fails, the loop reads fields of a nil pointer
  (importar_dados.go:60-63, 82). The model keeps this as the outcome
  `NilDereference` and the run result `Crashed`. It happens at the first
  producer whose own fetch succeeds. No recovery is invented.
- In three places the code does not do what a reader might expect, and the
  model follows the code. (1) Authentication accepts status 200 only, not
  every 2xx status (cliente.go:54). (2) A record that does not decode fails
  the whole page, and so the whole category (cliente.go:262-265); it is not
  skipped. (3) No identity filter is sent (see above).
- When the page oracle runs out of answers, the next request is treated as a
  failed HTTP call (`RequestFailed`). This makes the loop's length bounded by
  the oracle.

## Model

| member | source | states |
|---|---|---|
| VestroApi.FetchAndAggregate | internal/adaptadores/vestro_api/cliente.go:208-277 | The result, the requests issued and the error are exactly those of `Paginate`: walk the full pages, make one more request, append its records when accepted, and otherwise fail with that response's error |
| VestroApi.CheckResponse | internal/adaptadores/vestro_api/cliente.go:230-265 | A response is rejected exactly when it is not accepted. The error names the first failing check in the loop's order: call, status 200, body read, envelope, success flag, data array |
| VestroApi.StopIndex | internal/adaptadores/vestro_api/cliente.go:270-274 | Every response before the stop index is a full, accepted page of at least 100 records; the response at the stop index is not |
| VestroApi.RequestOffsets | internal/adaptadores/vestro_api/cliente.go:209-216 | The k-th request has offset 100·k, `start` and `limit` that read back as 100·k and 100, `sort=true`, the fetch's path and the bearer token. Every request after the first follows a full page |
| VestroApi.PageQuery | internal/adaptadores/vestro_api/cliente.go:213-221 | The query's keys are `start`, `limit` and `sort`, plus `startDate` iff `since` is not the zero time. `start` and `limit` are the decimal offset and 100, `sort` is `true`, and `startDate` is the formatted `since` |
| VestroApi.QueryParameters | internal/adaptadores/vestro_api/cliente.go:218-221 | A page query carries `startDate` exactly when `since` is not the zero time |
| VestroApi.QueryNumbers | internal/adaptadores/vestro_api/cliente.go:214-215 | The `start` and `limit` values read back through Atoi as the offset and 100 |
| VestroApi.StartDateIffSince | internal/adaptadores/vestro_api/cliente.go:218-221 | Every request of a fetch carries `startDate` iff `since` is non-zero, so a fetch with the zero time, as in the five reference getters, never sends it |
| VestroApi.SuccessCollectsEveryPage | internal/adaptadores/vestro_api/cliente.go:267-272 | On success every fetched page was accepted and the last one was short. The result is the prior contents followed by every page in request order, and its length is the prior length plus the sum of the page lengths |
| VestroApi.FailureStopsTheWalk | internal/adaptadores/vestro_api/cliente.go:235-265 | The first rejected response ends the fetch with its error after exactly its own request. Later responses make no difference |
| VestroApi.EmptyFirstPage | internal/adaptadores/vestro_api/cliente.go:270-272 | An accepted empty first page is a successful empty result after one request at offset 0 |
| VestroApi.ThreePages | internal/adaptadores/vestro_api/cliente.go:208-277 | Pages of 100, 100 and 37 records succeed with those 237 records in order, after exactly three requests at offsets 0, 100 and 200 |
| VestroApi.Collect | internal/adaptadores/vestro_api/cliente.go:153-156 | A getter succeeds exactly when its fetch did |
| VestroApi.GetterDropsPartialResults | internal/adaptadores/vestro_api/cliente.go:153-155 | A getter returns the fetched records on success; on failure it returns no records and its wrapped error |
| VestroApi.GetSupplies | internal/adaptadores/vestro_api/cliente.go:151-157 | Paginates `/supplies` from `since` into an empty slice and returns what `Collect` makes of it |
| VestroApi.GetProductSales | internal/adaptadores/vestro_api/cliente.go:159-165 | Paginates `/product/sales` from `since` and returns what `Collect` makes of it |
| VestroApi.GetProducts | internal/adaptadores/vestro_api/cliente.go:167-173 | Paginates `/products` with the zero time and returns what `Collect` makes of it |
| VestroApi.GetFuelTypes | internal/adaptadores/vestro_api/cliente.go:175-181 | Paginates `/fuel/types` with the zero time and returns what `Collect` makes of it |
| VestroApi.GetVehicles | internal/adaptadores/vestro_api/cliente.go:183-189 | Paginates `/vehicles` with the zero time and returns what `Collect` makes of it |
| VestroApi.GetDrivers | internal/adaptadores/vestro_api/cliente.go:191-197 | Paginates `/drivers` with the zero time and returns what `Collect` makes of it |
| VestroApi.GetEmployees | internal/adaptadores/vestro_api/cliente.go:199-205 | Paginates `/employees` with the zero time and returns what `Collect` makes of it |
| VestroApi.PathOf | internal/adaptadores/vestro_api/cliente.go:151-205 | Every category's endpoint is an absolute path below the base URL |
| VestroApi.PathsAreDistinct | internal/adaptadores/vestro_api/cliente.go:153-201 | The seven categories have seven different endpoints |
| VestroApi.Authenticate | internal/adaptadores/vestro_api/cliente.go:48-70 | Succeeds iff the status is 200, the body decodes and `success` is true, and then returns the `access` token. Otherwise it returns the error of the first failing check |
| VestroApi.AuthNeeds200 | internal/adaptadores/vestro_api/cliente.go:54-56 | A 2xx status other than 200 does not authenticate, even with a successful body |
| TimeFormat.StartDateShape | internal/adaptadores/vestro_api/cliente.go:220 | For years 0 to 9999, `startDate` is 20 characters: '-' at 4, 7, 13 and 16, 'T' at 10, 'Z' at 19, and a decimal digit everywhere else |
| TimeFormat.ParseFormat | internal/adaptadores/vestro_api/cliente.go:220 | For valid fields and years 0 to 9999, parsing the formatted value gives back year, month, day, hour, minute and second; the nanoseconds are dropped |
| TimeFormat.PaddedField | internal/adaptadores/vestro_api/cliente.go:220 | A field below 10^width prints as exactly width zero-padded digits that read back as the field |
| TimeFormat.ParseStartDate | internal/adaptadores/vestro_api/cliente.go:220 | The source has no parser; this is the model's own inverse of the layout, used to state the round trip. Only 20-character values parse, and they parse with zero nanoseconds |
| TimeFormat.FormatStartDate | internal/adaptadores/vestro_api/cliente.go:220 | The formatted value has at least 20 characters and ends in the literal 'Z' |
| TimeFormat.IsZero | internal/adaptadores/vestro_api/cliente.go:218 | An instant is zero iff it is January 1 of year 1, 00:00:00 with no nanoseconds, and that instant is valid |
| Strconv.AtoiItoa | internal/adaptadores/vestro_api/cliente.go:214-215 | Atoi inverts Itoa on the 64-bit range |
| Strconv.AtoiOfItoa | internal/adaptadores/vestro_api/cliente.go:214-215 | Atoi of Itoa's output is the number itself inside the 64-bit range, and a range error outside it |
| Strconv.AtoiRejectsBeyondInt64 | internal/config/config.go:24 | A number outside the 64-bit range is refused with a range error |
| Strconv.Atoi | internal/config/config.go:24 | Succeeds iff the input is an optional sign followed by at least one digit and its value lies in the 64-bit range, and then returns that value. Every failure is a syntax or range error on the whole input, and a well-formed numeral out of range is a range error |
| Strconv.ScanDigits | internal/config/config.go:24 | The digit loop, read from the left, succeeds exactly on digit strings worth at most 2^64 - 1, with their value; on a digit string it can only end in success or overflow |
| Strconv.AtoiOverflowBeforeNonDigit | internal/config/config.go:24-28 | Digits worth more than 2^64 - 1 give a range error whatever follows them, because the scan stops at the overflow |
| Strconv.AtoiOverflowExample | internal/config/config.go:24-28 | "99999999999999999999x" is a range error, not a syntax error |
| Strconv.AtoiAcceptsPlusAndZeros | internal/config/config.go:24 | A leading '+' and leading zeros are accepted |
| Strconv.AtoiRejectsNonDigit | internal/config/config.go:24 | A non-digit, not a leading sign, reached after digits worth at most 2^64 - 1 makes the input a syntax error |
| Strconv.AtoiRejectsEmpty | internal/config/config.go:24-28 | The empty string and a bare sign are syntax errors |
| Strconv.AtoiRejectsExamples | internal/config/config.go:24-28 | " 24", "24h" and "2_4" do not parse |
| Dto.IsEmpty | internal/dto/agriwin.go:29-31 | A payload is empty iff neither transactional slot holds a record |
| Dto.IsEmptyIffNoTransactionalRecords | internal/dto/agriwin.go:29-31 | `IsEmpty` holds iff Supplies and ProductSales are both empty, that is iff the transactional slots hold no record |
| Dto.ReferenceDataIgnored | internal/dto/agriwin.go:29-31 | Writing any reference slot leaves `IsEmpty` unchanged |
| Dto.ReferenceOnlyIsEmpty | internal/dto/agriwin.go:29-31 | A payload holding only reference data is empty |
| Dto.AddingTransactionMakesNonEmpty | internal/dto/agriwin.go:30 | Adding a supply or a product sale makes any payload non-empty |
| Dto.Slot | internal/dto/agriwin.go:16-26 | Each of the seven categories names a slot of the payload holding records of that category |
| Dto.Store | internal/aplicacao/servicos/importar_dados.go:173-188 | Storing records fills the slot of their category. Every other slot, the id and the timestamp are unchanged |
| Dto.PayloadExtensionality | internal/dto/agriwin.go:16-26 | A payload is nothing but its id, its timestamp and its seven slots |
| Importer.FetchData | internal/aplicacao/servicos/importar_dados.go:164-191 | A failing task reports its error wrapped with its name and writes nothing. A succeeding task writes only its own slot and reports nothing |
| Importer.Consolidate | internal/aplicacao/servicos/importar_dados.go:118-127 | After all tasks run, the result is the payload with every task's slot written iff every task succeeded. Otherwise it is some failing task's wrapped error |
| Importer.StoreAllSlots | internal/aplicacao/servicos/importar_dados.go:164-191 | When all tasks succeed and target distinct slots, each slot holds its own task's records and every other slot, the id and the timestamp keep the base's values |
| Importer.FetchCommonData | internal/aplicacao/servicos/importar_dados.go:106-128 | Succeeds iff all five reference getters succeed, with an otherwise zero payload holding their results. Otherwise it returns a failing getter's wrapped error |
| Importer.CommonTasksSucceed | internal/aplicacao/servicos/importar_dados.go:111-125 | The five tasks all succeed iff the common payload exists. Every error reported is that of a failing reference getter |
| Importer.CommonTasksStore | internal/aplicacao/servicos/importar_dados.go:109-116 | The five stores build exactly the common payload |
| Importer.FetchDataForUser | internal/aplicacao/servicos/importar_dados.go:131-161 | Succeeds iff both transactional getters succeed, with the producer's id, the fetch time and their records. Otherwise it returns a failing getter's wrapped error |
| Importer.UserTasksSucceed | internal/aplicacao/servicos/importar_dados.go:140-158 | The two tasks both succeed iff both getters did. Every error reported is that of a failing transactional getter |
| Importer.UserTasksStore | internal/aplicacao/servicos/importar_dados.go:135-147 | The two stores fill the transactional slots of the base payload and nothing else |
| Importer.Since | internal/aplicacao/servicos/importar_dados.go:70 | `time.Since` is the difference `now - checkpoint`, saturated to the 64-bit duration range as Go's `Time.Sub` saturates it |
| Importer.Clamp | internal/aplicacao/servicos/importar_dados.go:69-73 | The fetch start is the checkpoint or `now` plus the 64-bit negation of `fetchSince`. For a window strictly inside the duration range, it is at least `now - fetchSince` and at least the checkpoint. At the minimum duration the negation wraps, and an older checkpoint moves to 2^63 ns before now. At the maximum duration the checkpoint is always kept |
| Importer.ClampIsMax | internal/aplicacao/servicos/importar_dados.go:69-73 | For every 64-bit window the clamp is determined exactly. Strictly inside the range, it moves a checkpoint older than `now - fetchSince` to `now - fetchSince` and keeps any other. At the minimum duration, it moves a checkpoint older than `now + 2^63` to `now - 2^63`. At the maximum duration, it keeps the checkpoint |
| Importer.ClampExample | internal/aplicacao/servicos/importar_dados.go:69-73 | With a 24-hour window, a 400-hour-old checkpoint starts the fetch 24 hours ago, and a 2-hour-old one is kept |
| Importer.WithReferenceData | internal/aplicacao/servicos/importar_dados.go:82-86 | The merged payload's reference slots are the common payload's. Its transactional slots, id and timestamp are the producer's |
| Importer.VisitUser | internal/aplicacao/servicos/importar_dados.go:66-98 | One iteration ends in the outcome `UserStep` gives. It makes one data fetch from the clamped start and a delivery exactly for Sent and SendFailed outcomes |
| Importer.VisitUsers | internal/aplicacao/servicos/importar_dados.go:66-99 | Producers are visited in list order and the i-th gets `UserStep`'s outcome for its own inputs. Only the nil-pointer panic ends the loop early; otherwise every producer gets an outcome |
| Importer.RunImport | internal/aplicacao/servicos/importar_dados.go:35-103 | A failing user list aborts with no other call. An empty list finishes with no authentication. A failed authentication aborts before any producer. Otherwise every producer gets its outcome in order, and the run finishes unless the nil-pointer panic occurs |
| Importer.OutcomesAt | internal/aplicacao/servicos/importar_dados.go:66-99 | Each producer's outcome depends on its own subject, fetch results and delivery reply only, so one producer's failure cannot change another's outcome |
| Importer.DeliverExactlyWhen | internal/aplicacao/servicos/importar_dados.go:75-97 | A delivery is attempted iff the producer's fetch succeeded, the common data exists and the producer has a supply or a product sale |
| Importer.DeliveredPayload | internal/aplicacao/servicos/importar_dados.go:82-94 | A delivered payload has the producer's id, the fetch time, its own transactional records and the common reference records, and it is not empty |
| Importer.SendResultDecides | internal/aplicacao/servicos/importar_dados.go:94-98 | A non-empty payload ends as Sent iff the delivery returned nil, and as SendFailed iff it returned an error |
| Importer.NoCrashWithCommonData | internal/aplicacao/servicos/importar_dados.go:60-86 | With the common payload present, no iteration panics |
| Importer.CrashOnlyAfterSuccessfulFetch | internal/aplicacao/servicos/importar_dados.go:60-86 | Without the common payload, an iteration panics iff the producer's own fetch succeeded |
| Importer.OneFetchPerUser | internal/aplicacao/servicos/importar_dados.go:66-99 | For n visited producers the loop makes between n and 2n calls, and every one is a data fetch or a delivery |
| Importer.FetchesInOrder | internal/aplicacao/servicos/importar_dados.go:66-75 | The data fetches in the trace are the visited producers', one each, in list order, each with its identity and clamped start |
| Importer.CallsOfOneUser | internal/aplicacao/servicos/importar_dados.go:75-97 | One iteration holds exactly one data fetch and the delivery of its outcome, if any |
| Importer.DeliveriesMatchOutcomes | internal/aplicacao/servicos/importar_dados.go:88-97 | The deliveries in the trace are exactly the payloads of the Sent and SendFailed outcomes in order, so there is at most one per producer |
| Notifier.SendOutcome | internal/adaptadores/agriwin_api/notificar.go:41-51 | A delivery succeeds iff the call returned a 2xx status. A failed call and a non-2xx status are errors |
| Notifier.DeliveryAcceptsAny2xx | internal/adaptadores/agriwin_api/notificar.go:47 | Every status from 200 to 299 is a success, and only those |
| Configuration.Load | internal/config/config.go:21-36 | `Load` never returns an error, and the window is a 64-bit duration |
| Configuration.FetchHours | internal/config/config.go:24-28 | The hours value always lies in the 64-bit range |
| Configuration.Wrap64 | internal/config/config.go:34 | The wrapped value is in the 64-bit range and congruent to the input modulo 2^64 |
| Configuration.GetEnv | internal/config/config.go:38-44 | The value of a set variable, even when empty, and the fallback for an unset one |
| Configuration.UnsetMeans24Hours | internal/config/config.go:24 | With FETCH_DATA_SINCE_HOURS unset, the window is 24 hours |
| Configuration.UnparsableMeans24Hours | internal/config/config.go:24-28 | With the variable set to anything Atoi refuses, the window is 24 hours |
| Configuration.EmptyMeans24Hours | internal/config/config.go:24-28 | With the variable set to the empty string, the window is 24 hours |
| Configuration.ParsedHours | internal/config/config.go:24-34 | A parsed value n gives n hours wrapped to 64 bits, with no range check. The result is exactly n hours whenever that fits |
| Configuration.NegativeHoursAccepted | internal/config/config.go:24-34 | "-3" is accepted as a window of minus three hours |
| Configuration.OverflowWraps | internal/config/config.go:34 | 2562048 hours overflows the 64-bit duration and wraps to a negative window |
| Configuration.WindowWrapsToMinimum | internal/config/config.go:34 | 2^50 hours wraps to the minimum 64-bit duration, the window at which the clamp's negation wraps too |
| Configuration.UrlFields | internal/config/config.go:31-33 | Each URL field is its variable's value when set, even when empty, and "" otherwise |
| Configuration.Wrap64InRange | internal/config/config.go:34 | Wrapping leaves every 64-bit value unchanged |

## Left out

- HTTP transport, request construction, timeouts and JSON decoding. Each page,
  authentication or delivery reply is an abstract value: status, decode flags,
  success flag, records.
- The `ctx` cancellation, the goroutines, the `sync.WaitGroup` and the error
  channel of the fan-out. The tasks are evaluated one after another and then
  consolidated.
- Importer.Consolidate: promises only "some failing task's error", because
  which error the channel yields first depends on goroutine scheduling.
- The epoch-to-calendar conversion inside `since.UTC()`. `startDate` is
  formatted from UTC fields that are already split, and `time.Since` /
  `time.Now` are the integer `now`.
- Importer.RunImport: one `now` serves the whole run, so the model does not
  capture that later producers are clamped against, and stamped with, a later
  clock reading than earlier ones.
- TimeFormat.StartDateShape: stated for years 0 to 9999 only, where Go prints
  exactly four year digits.
- `fetchPaginatedData` (internal/adaptadores/vestro_api/cliente.go:74-146): no
  getter calls it, and it never fills its result.
- internal/adaptadores/agriwin/usuario/usuario.go: the user list is an oracle
  (`Result<seq<Subject>, Error>`).
- The notifier's HTTP call, except its 2xx rule.
- main.go: it wires the services with arguments that do not match the other
  files. It is not part of this model.
- The record fields of internal/dto/vestro.go are carried as plain values;
  their JSON tags play no part.
- Loading the `.env` file (`godotenv.Load`) and the logging throughout.
- Dto.IsEmpty is a pure function of its argument, so "the payload is unchanged
  after the call" holds by construction and has no lemma of its own.
