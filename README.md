# Clínica Médica: a verified model of the scheduling, billing and cashier core

The clinic's back end is an Express server over MySQL. This project models five of its parts
in Dafny. Four are back-end modules: the schema-adaptive appointment repository, the invoice
transaction, the JWT role gate and the doctor repository. The fifth is the web client: its
response reader `req` and the cashier dashboard. The dashboard selects services, prices the
selection, records payments, charges pending bills and exports the pending bills as CSV.

Modules:

- `Wrappers`: `Option` and `Result`.
- `Js`: the JavaScript values the code handles.
  - Values: `undefined`, `null`, booleans, integer numbers, strings, and objects as maps.
  - Operations: truthiness, `??`, `||`, `String(x)`, ASCII `toLowerCase`, `join` and `startsWith`.
  - How `mysql2` binds `undefined` (as `NULL`).
- `SqlOrder`: the comparison behind `ORDER BY … DESC`. `NULL` compares below every other value, so it comes last under `DESC`. Numbers compare
  numerically and strings lexicographically. It is proved a total preorder.
- `Appointments` (`backend/src/models/appointments.model.js`):
  - `q`, with its inverse (how MySQL reads a backtick-quoted name);
  - `pick` and `resolveCols`, with cache behaviour and a counter of `SHOW COLUMNS` statements;
  - `normalizePayload`;
  - the class `AppointmentStore`. It holds the three tables in memory and offers
    `all`/`findById`/`create`/`update`/`remove`, with the joins and the `date DESC, time DESC`
    order.
- `Billing` (`backend/src/models/billing.model.js`): `createInvoice` as a method over a
  `Database` class. The class has a pooled connection counter, a transaction snapshot,
  rollback, and AUTO_INCREMENT counters that rollback does not reset. Also `getInvoice` and
  `itemsByInvoice`.
- `Auth` (`backend/src/middlewares/auth.js`): the `auth(requiredRoles)` middleware as a
  function. `jwt.verify` is a parameter.
- `Doctors` (`backend/src/models/doctors.model.js`): the class `DoctorTable` with
  `all`/`findById`/`create`/`update`/`remove`. Adds field defaults and validation.
- `ApiClient` (`frontend/lib/api.ts`): `req`, given the HTTP status and the parsed JSON body.
- `CsvExport`: the quoting used by `handleExportPendingCSV`, and a reader that is proved to
  invert it.
- `Cashier` (`frontend/app/cashier/page.tsx`): the selection, pricing and bill logic. The
  `CashierDashboard` class holds the page's state: services, pending bills, transactions,
  counters and form.

The code defines the behaviour where it and the written description differ. Examples:

- `remove` in the appointment repository never consults the column mapping.
- `update` in both repositories writes `NULL` (or the default) for omitted fields rather than
  keeping the old value.
- A `Bearer ` header with an empty token counts as no token.
- `api` has no `billing.charge`, so a payment is always recorded locally.

## Model

| member | source | states |
|---|---|---|
| SqlOrder.CmpAntisymmetric | backend/src/models/appointments.model.js:75 | Swapping the operands of the ORDER BY comparison negates its sign. |
| SqlOrder.CmpTransitive | backend/src/models/appointments.model.js:75 | The ORDER BY comparison is transitive. |
| SqlOrder.KeyLeTotal | backend/src/models/appointments.model.js:75 | Any two (date, time) keys are ordered one way or the other. |
| SqlOrder.KeyLeTransitive | backend/src/models/appointments.model.js:75 | The (date, time) ordering is transitive. |
| Appointments.Quote | backend/src/models/appointments.model.js:8 | The quoted name starts and ends with a backtick. Its length is two more than the escaped text. |
| Appointments.UnescapeBackticksEscape | backend/src/models/appointments.model.js:8 | Reading the escaped text back as MySQL does gives the original name. Every backtick is doubled, so none ends the identifier early. |
| Appointments.QuoteRoundTrip | backend/src/models/appointments.model.js:8 | Unquoting `q(id)` gives `id` for every name, so any column name can be quoted safely. |
| Appointments.HasColumnMeaning | backend/src/models/appointments.model.js:12-13 | The case-insensitive membership test holds iff some column lower-cases to the lower-cased name. |
| Appointments.FindCandidate | backend/src/models/appointments.model.js:13 | Gives the index of the first candidate that names a column. Gives none iff no candidate does. |
| Appointments.Pick | backend/src/models/appointments.model.js:11-14 | Gives the earliest matching candidate as written. Gives null iff none matches. |
| Appointments.RequiredPicks | backend/src/models/appointments.model.js:26-29 | Each required concept's pick fails iff none of its candidates is a column. |
| Appointments.Unresolved | backend/src/models/appointments.model.js:32-34 | Every reported concept is one whose probe found nothing. |
| Appointments.UnresolvedOfFour | backend/src/models/appointments.model.js:32-34 | The missing list keeps the order date, time, type, status. It contains exactly the concepts that failed. |
| Appointments.NameColumn | backend/src/models/appointments.model.js:38-39 | The display-name column is the first name candidate present. Otherwise it is `id`. |
| Appointments.SpecialtyColumn | backend/src/models/appointments.model.js:40 | The specialty column is absent iff no candidate names a column. Otherwise it is the first that does. |
| Appointments.ResolveFrom | backend/src/models/appointments.model.js:26-43 | Fails iff some required concept is missing. The error message names exactly the missing concepts. On success every field of the mapping is the chosen column. |
| Appointments.SpanishSchemaResolves | backend/src/models/appointments.model.js:26-42 | A Spanish schema resolves to `fecha`/`hora`/`tipo`/`estado`, `nombre`, `nombre` and `especialidad`. |
| Appointments.MissingStatusIsReported | backend/src/models/appointments.model.js:29-35 | A table without any status column fails with the message naming `status` alone. |
| Appointments.FirstDefined | backend/src/models/appointments.model.js:49-54 | The value is that of the first alias that is not null or undefined. If all are nullish, it is the last alias's value. |
| Appointments.CoalesceChainOfTwo | backend/src/models/appointments.model.js:51-54 | A two-way `??` chain picks the first defined alias. |
| Appointments.CoalesceChainOfFour | backend/src/models/appointments.model.js:49-50 | A four-way `??` chain picks the first defined alias. |
| Appointments.NormalizeTakesFirstDefined | backend/src/models/appointments.model.js:47-56 | Every canonical field takes the first defined value among its aliases, in the source's order. |
| Appointments.Normalize | backend/src/models/appointments.model.js:47-56 | Each canonical field holds the value of one of its own aliases. A non-null `patient_id` or `doctor_id` is taken as is. The exact first-defined order is carried by NormalizeTakesFirstDefined and SpanishKeyWins. |
| Appointments.SpanishKeyWins | backend/src/models/appointments.model.js:51-54 | A defined Spanish key wins over the English one. A nullish Spanish key falls back to the English one. |
| Appointments.RowLeReflexive | backend/src/models/appointments.model.js:75 | Every row may be listed next to itself in the newest-first order. |
| Appointments.OrderNewestFirst | backend/src/models/appointments.model.js:75 | The rows are every joined row exactly once, each with its id, in newest-first order. |
| Appointments.AppointmentStore.constructor | backend/src/models/appointments.model.js:5 | Starts with no cache and no metadata query, over the given existing appointment rows and next id. The mapping is the one resolving the schema gives. |
| Appointments.AppointmentStore.JoinedRowOf | backend/src/models/appointments.model.js:72-74 | A row exists iff the appointment exists and its stored patient and doctor ids are numbers naming existing rows. Ids sent as decimal strings are stored as numbers, so they join too. |
| Appointments.AppointmentStore.ResolveCols | backend/src/models/appointments.model.js:17-44 | A cached mapping is returned as is, with no new metadata query. Otherwise three queries are sent, and only a successful mapping is cached. |
| Appointments.AppointmentStore.All | backend/src/models/appointments.model.js:58-78 | Fails exactly as resolution does. Otherwise lists each joinable appointment once and nothing else, newest first. Column resolution goes through the cache: no metadata query when cached, otherwise three, with only a success cached. |
| Appointments.AppointmentStore.FindById | backend/src/models/appointments.model.js:80-102 | Gives the joined row, or null when the appointment or one of its joins is missing. Column resolution goes through the cache: no metadata query when cached, otherwise three, with only a success cached. |
| Appointments.AppointmentStore.Create | backend/src/models/appointments.model.js:104-113 | Stores the normalised payload under a fresh id and returns that id's joined row. Undefined is bound as NULL, and the two ids go through their INT columns. Nothing is written when resolution fails. Column resolution goes through the cache: no metadata query when cached, otherwise three, with only a success cached. |
| Appointments.AppointmentStore.Update | backend/src/models/appointments.model.js:115-131 | Overwrites all six fields of an existing row. An unknown id changes nothing. Returns the id's joined row. Column resolution goes through the cache: no metadata query when cached, otherwise three, with only a success cached. |
| Appointments.AppointmentStore.Remove | backend/src/models/appointments.model.js:133-136 | Deletes the row if present and answers `{ok: true}` in every case, even for an unresolvable schema. |
| Appointments.ListTwice | backend/src/models/appointments.model.js:18-43 | When resolution succeeds, two listings send one round of `SHOW COLUMNS` in total, and none if the mapping was already cached. A failed resolution is not cached, so each listing sends its own round. Both listings fail or both succeed. |
| Appointments.IntColumn | backend/src/models/appointments.model.js:108-111 | An INT column keeps a number as is, stores NULL for null or undefined, and stores a decimal-digit string as a non-negative number. |
| Appointments.Stored | backend/src/models/appointments.model.js:108-111 | No bound parameter is undefined. The two ids go through their INT columns (IntColumn). A defined date, time, type or status is stored as given, and a nullish date is stored as NULL. |
| Appointments.StringIdJoinsLikeNumber | backend/src/models/appointments.model.js:72-74 | An id sent as its decimal string is stored and joined exactly like the number. |
| Appointments.OmittedFieldBecomesNull | backend/src/models/appointments.model.js:54 | An update without `estado` or `status` stores NULL as the status. |
| Billing.LineQty | backend/src/models/billing.model.js:15 | `quantity \|\| 1`: the requested quantity when non-zero, else 1. Never 0. |
| Billing.LinePrice | backend/src/models/billing.model.js:14 | The catalogue price if non-zero, else the caller's price if non-zero, else 0. A price of 0 means neither was usable. |
| Billing.CatalogPrice | backend/src/models/billing.model.js:13-14 | `SELECT price` finds a price exactly when the service has a row, and it is that row's price. LinePrice builds the `||` fallback on it. |
| Billing.ItemRowsAt | backend/src/models/billing.model.js:12-17 | Item row `j` is line `j`, numbered `firstId + j`, with its computed quantity and price. |
| Billing.FirstUnknownServiceMeaning | backend/src/models/billing.model.js:12-17 | No unknown service iff every line's service is in the catalogue. Otherwise the index found is the first unknown one. |
| Billing.TotalAppend | backend/src/models/billing.model.js:16 | The running total is additive over concatenated lines. |
| Billing.TotalOfOne | backend/src/models/billing.model.js:16 | One line contributes price times quantity. |
| Billing.Database.constructor | backend/src/models/billing.model.js:6 | A pool over tables that already hold the given rows and next ids, every invoice id below the next invoice id. No connection is in use and no transaction is open. |
| Billing.Database.GetConnection | backend/src/models/billing.model.js:6 | One more connection is in use. |
| Billing.Database.Release | backend/src/models/billing.model.js:26 | One connection fewer is in use. |
| Billing.Database.BeginTransaction | backend/src/models/billing.model.js:8 | Snapshots the invoice and item tables. |
| Billing.Database.Commit | backend/src/models/billing.model.js:20 | Closes the transaction, keeping the changes. |
| Billing.Database.Rollback | backend/src/models/billing.model.js:23 | Restores both tables to the snapshot. The id counters stay where they are. |
| Billing.Database.InsertInvoice | backend/src/models/billing.model.js:9-10 | Inserts under the next id when the patient exists. Otherwise fails with the foreign-key error and changes nothing. |
| Billing.Database.SelectPrice | backend/src/models/billing.model.js:13 | The service's catalogue price, or none when the service has no row. |
| Billing.Database.InsertItem | backend/src/models/billing.model.js:17 | Appends the row under the next item id when its invoice and service exist. Otherwise fails with the matching error. |
| Billing.Database.UpdateTotal | backend/src/models/billing.model.js:19 | Sets the total of an existing invoice. Nothing else changes. |
| Billing.GetInvoice | backend/src/models/billing.model.js:3 | The invoice row iff the id exists, else null. |
| Billing.NamedItems | backend/src/models/billing.model.js:4 | Every result line is a row of the invoice whose service exists, carrying that service's name. |
| Billing.NamedItemsComplete | backend/src/models/billing.model.js:4 | Every row of the invoice whose service exists appears in the result. |
| Billing.ItemsByInvoice | backend/src/models/billing.model.js:4 | Over the current tables, every line returned is an item row of that invoice whose service exists, named after that service. Completeness is NamedItemsComplete. |
| Billing.InsertLines | backend/src/models/billing.model.js:11-18 | Succeeds iff every service is known, giving the total and one item row per line in order. On failure it stops at the first unknown service, after that line's predecessors were inserted. |
| Billing.CreateInvoice | backend/src/models/billing.model.js:5-28 | Succeeds iff the patient exists and every service is known. On success it returns id, patient, total and `PAGADA`, and the invoice and items persist. On failure both tables are as before with the error passed on. The connection is always released and no transaction is left open. |
| Billing.TwoLinesExample | backend/src/models/billing.model.js:12-17 | Two units at 100 and one at 50 total 250, with the expected item rows. |
| Billing.CallerPriceIsAFallback | backend/src/models/billing.model.js:14 | A caller's price is used only when the catalogue cannot price the service. |
| Auth.BearerToken | backend/src/middlewares/auth.js:4-6 | A token exists iff the header starts with `Bearer ` and has more after it. The header is then the prefix followed by the token. |
| Auth.BearerRoundTrip | backend/src/middlewares/auth.js:5 | A header built from a non-empty token yields that token. |
| Auth.Authorize | backend/src/middlewares/auth.js:2-20 | Passes iff (no token and no roles) or (a verified token and either no roles or a listed role). A passing token's payload becomes the user. Rejections are 401 or 403, with 403 exactly for a verified token lacking the role. |
| Auth.MissingToken | backend/src/middlewares/auth.js:6-9 | Without a token an open route passes and a protected one gets 401 `Token requerido`. |
| Auth.InvalidToken | backend/src/middlewares/auth.js:17-19 | A token that fails verification gets 401 `Token inválido`, even on an open route. |
| Auth.VerifiedToken | backend/src/middlewares/auth.js:11-16 | A verified token passes with its payload iff no role is required or its role is listed. Otherwise it gets 403 `Sin permisos`. |
| Auth.EmptyBearerIsNoToken | backend/src/middlewares/auth.js:5-6 | A bare `Bearer ` header carries no token. |
| Doctors.Columns | backend/src/models/doctors.model.js:25-32 | Each optional field takes its default (null, or `active` for `estado`) only when undefined. `nombre` and `especialidad` bind undefined as NULL. |
| Doctors.ColumnsStored | backend/src/models/doctors.model.js:38-41 | No column ever holds undefined. |
| Doctors.ColumnsRoundTrip | backend/src/models/doctors.model.js:24-43 | Writing a stored row's fields back as a body reproduces the row. |
| Doctors.RequiredAndDefaults | backend/src/models/doctors.model.js:25-36 | An empty body is rejected. A body with just a name and a specialty gets null contact fields and `active`. |
| Doctors.Rejected | backend/src/models/doctors.model.js:34-35 | A missing, null or empty `nombre` or `especialidad` rejects the body, and two non-empty strings pass. The create method's iff and RequiredAndDefaults build on it. |
| Doctors.AppendLargest | backend/src/models/doctors.model.js:9 | Listing the largest remaining id next keeps the listing descending and drawn from the table. |
| Doctors.DoctorTable.constructor | backend/src/models/doctors.model.js:5-11 | The table holds the given rows and the next id. |
| Doctors.DoctorTable.FindById | backend/src/models/doctors.model.js:14-21 | Null iff the id is absent. Otherwise the row with that id. |
| Doctors.DoctorTable.All | backend/src/models/doctors.model.js:5-11 | Every doctor exactly once, each row as stored, by id descending. |
| Doctors.DoctorTable.Create | backend/src/models/doctors.model.js:24-44 | Refused with `nombre y especialidad son obligatorios` iff a required field is falsy, and then nothing changes. Otherwise the defaulted row is inserted under a fresh id and read back. |
| Doctors.DoctorTable.Update | backend/src/models/doctors.model.js:47-64 | An existing row has all six columns overwritten, with defaults. An unknown id changes nothing. The result is null iff the id was unknown. |
| Doctors.DoctorTable.Remove | backend/src/models/doctors.model.js:67-70 | The row is gone and the answer is `{ok: true}`. |
| Doctors.RemoveTwice | backend/src/models/doctors.model.js:67-70 | Two deletes of the same id leave the table as one delete does. Both answer `{ok: true}`, and deleting an absent id changes nothing. |
| ApiClient.Field | frontend/lib/api.ts:17-21 | Reading a property throws iff the body is null or undefined. On an object it is the key's value or undefined. |
| ApiClient.Req | frontend/lib/api.ts:5-22 | Status 204 resolves to `true` whatever the body. |
| ApiClient.ObjectReply | frontend/lib/api.ts:14-21 | For an object body, failure iff the status is not 2xx or `ok` is `false`. The error message is a truthy `message` or `HTTP <status>`. Success gives `data`, unless it is null or missing, in which case it gives the body. |
| ApiClient.UnparseableBody | frontend/lib/api.ts:14-18 | A non-JSON body counts as `{}`. An error then says `HTTP <status>`, and a 2xx reply is `{}`. |
| ApiClient.OkFalseWins | frontend/lib/api.ts:17 | A 2xx reply whose body says `ok: false` still throws. |
| ApiClient.NullBodyThrows | frontend/lib/api.ts:17 | A JSON `null` body throws a TypeError at any status other than 204. |
| ApiClient.HttpMessageInjective | frontend/lib/api.ts:18 | Different statuses give different fallback messages. |
| CsvExport.EscapeQuotes | frontend/app/cashier/page.tsx:221 | Doubling quotes never shortens a cell. |
| CsvExport.UnescapeEscape | frontend/app/cashier/page.tsx:221 | An escaped cell and its closing quote read back as the cell, when the next character is not a quote. |
| CsvExport.QuotedCell | frontend/app/cashier/page.tsx:221 | A quoted cell is recognised from its opening quote. |
| CsvExport.RecordParse | frontend/app/cashier/page.tsx:221 | A record of a non-empty row reads back as exactly its cells. |
| CsvExport.CsvRoundTrip | frontend/app/cashier/page.tsx:221 | A file of non-empty rows reads back as exactly those rows, with embedded quotes, commas and line feeds. |
| CsvExport.Csv | frontend/app/cashier/page.tsx:221 | No rows give the empty text, and a single row is that one record with no line feed. The read-back partner is CsvRoundTrip. |
| Cashier.Without | frontend/app/cashier/page.tsx:165 | The filtered selection lacks the id. Every other id keeps its count. |
| Cashier.Toggle | frontend/app/cashier/page.tsx:164-166 | The id is selected afterwards iff it was not before, and other ids keep their counts. A new id goes at the end. |
| Cashier.WithoutAbsent | frontend/app/cashier/page.tsx:165 | Filtering out an absent id changes nothing. |
| Cashier.WithoutAppend | frontend/app/cashier/page.tsx:165 | Filtering distributes over concatenation. |
| Cashier.ToggleTwice | frontend/app/cashier/page.tsx:164-166 | Toggling an unselected service twice restores the selection. |
| Cashier.FindServiceMeaning | frontend/app/cashier/page.tsx:170 | The match found is a listed service whose id prints the same. There is none iff no listed id prints the same. |
| Cashier.FindService | frontend/app/cashier/page.tsx:170 | A service found has an id with the same string form as the one asked for. Membership and the none-iff are FindServiceMeaning, and first-match is FindFirst. |
| Cashier.FindFirst | frontend/app/cashier/page.tsx:170 | The earliest service whose id prints the same is the one found. |
| Cashier.Price | frontend/app/cashier/page.tsx:171 | An unknown id costs 0. |
| Cashier.PriceByStringForm | frontend/app/cashier/page.tsx:170-171 | Ids that print the same (`1` and `"1"`) find the same service at the same price. |
| Cashier.TotalAppend | frontend/app/cashier/page.tsx:168-173 | The total of a concatenated selection is the sum of the totals. |
| Cashier.Total | frontend/app/cashier/page.tsx:168-173 | An empty selection totals 0, and with non-negative catalogue prices the total is never negative. Additivity is TotalAppend and TotalCons. |
| Cashier.TotalCons | frontend/app/cashier/page.tsx:168-173 | The total is the first id's price plus the rest's total. |
| Cashier.TotalWithout | frontend/app/cashier/page.tsx:165-173 | Filtering an id out lowers the total by its price times its number of occurrences. |
| Cashier.TotalToggle | frontend/app/cashier/page.tsx:164-173 | Selecting an id adds its price. Deselecting removes its price once per occurrence. |
| Cashier.UnknownIdsCostNothing | frontend/app/cashier/page.tsx:168-173 | A selection of unknown ids totals 0. |
| Cashier.Names | frontend/app/cashier/page.tsx:180-182 | At most one name per selected id, and no empty name. |
| Cashier.NamesOfOne | frontend/app/cashier/page.tsx:180-182 | One selected id gives its service's name when the service exists and its name is not empty, and nothing otherwise. |
| Cashier.NamesAppend | frontend/app/cashier/page.tsx:180-182 | The names of a concatenated selection are the first part's names followed by the second's, so every named service appears in selection order. |
| Cashier.NamesFromCatalogue | frontend/app/cashier/page.tsx:180-182 | Every listed name belongs to a catalogue service. |
| Cashier.Unpaid | frontend/app/cashier/page.tsx:155 | The pending count never exceeds the number of bills. It is 0 iff every bill is paid, and equal to the number of bills iff none is. |
| Cashier.MarkPaid | frontend/app/cashier/page.tsx:237-239 | The bills with the id become paid. Every other bill is unchanged, and the length is kept. |
| Cashier.UnpaidAfterCharge | frontend/app/cashier/page.tsx:237-240 | Charging a listed unpaid bill with a unique id leaves exactly one unpaid bill fewer. |
| Cashier.MarkPaidElsewhere | frontend/app/cashier/page.tsx:237-239 | Marking an id no bill carries changes nothing. |
| Cashier.ChargeTransaction | frontend/app/cashier/page.tsx:242-249 | The bill's payment is in cash, for the bill's total, to the bill's patient and services. |
| Cashier.IncomeCons | frontend/app/cashier/page.tsx:154 | Prepending a transaction adds its amount to the income. |
| Cashier.Income | frontend/app/cashier/page.tsx:154 | No transactions give 0, and non-negative amounts give a non-negative income. The per-transaction sum is IncomeCons. |
| Cashier.OneLessPending | frontend/app/cashier/page.tsx:240 | The pending count never drops below 0, and drops by one when positive. |
| Cashier.PaymentAgrees | frontend/app/cashier/page.tsx:203-209 | Recording a payment keeps the counters equal to the sums and counts of the lists. |
| Cashier.ChargePendingAgrees | frontend/app/cashier/page.tsx:237-240 | Marking an unpaid bill paid and lowering the count keeps the pending count equal to the unpaid bills. |
| Cashier.ChargeAgrees | frontend/app/cashier/page.tsx:235-257 | Charging a listed unpaid bill with a unique id keeps every counter in agreement with the lists. |
| Cashier.BillCells | frontend/app/cashier/page.tsx:219 | Each bill gives six cells. |
| Cashier.BillRows | frontend/app/cashier/page.tsx:219 | One row per bill, in order, each being that bill's cells. |
| Cashier.PendingCsv | frontend/app/cashier/page.tsx:216-221 | The exported text reads back as the header followed by each bill's six cells, in order. |
| Cashier.CashierDashboard.constructor | frontend/app/cashier/page.tsx:150-158 | The loaded lists, counters computed from them, an empty form. The counters agree with the lists. |
| Cashier.CashierDashboard.ToggleService | frontend/app/cashier/page.tsx:164-166 | The selection becomes its toggle. Nothing else changes. |
| Cashier.CashierDashboard.ProcessPayment | frontend/app/cashier/page.tsx:175-214 | Does nothing without a patient, a positive total and a method. Otherwise prepends the transaction with the names and the total, raises income and count, and clears the form. Counters that agreed with the lists still agree. |
| Cashier.CashierDashboard.ChargeBill | frontend/app/cashier/page.tsx:235-257 | Marks the bill paid and lowers the pending count, clamped at zero. Prepends the cash transaction and raises income and count. Counters that agreed stay in agreement for a listed unpaid bill with a unique id. |

## Left out

- The MySQL driver and server are replaced by in-memory tables. Not modelled: `LIMIT`, collations and column types. Only two type coercions are modelled: `undefined` binding as NULL, and a decimal-digit string stored in the appointments' INT id columns.
- Appointments.IntColumn: other strings are kept as bound and never join. MySQL would convert these, or reject them in strict mode: a sign, surrounding spaces, a fraction, or a leading number followed by text. Booleans are also kept as bound rather than stored as 1 or 0.
- Appointments.AppointmentStore.Create and Update never fail on foreign keys or NOT NULL columns; here an appointment write fails only when column resolution fails. An appointment whose patient or doctor does not exist is stored and then fails to join, so `create` returns null.
- The `SHOW COLUMNS` result is given to `AppointmentStore` at construction. The schema is taken to be fixed while the process runs.
- `Promise.all` and all concurrency are left out. Each operation is one atomic step, so two concurrent `resolveCols` calls racing on the cache are not modelled.
- `jwt.verify` is a function parameter of `Auth.Authorize`: the secret, expiry and signature check are not modelled. `bcrypt`, login and token issuing are not part of this model.
- Routes, controllers, the Express error handler and the HTTP wiring are not part of this model.
- `fetch` is I/O. `ApiClient.Req` takes the status and the parsed body (`None` for a body that is not JSON), and the request itself is not modelled.
- ApiClient.Req: its own contract states only the 204 case. The other cases are stated by `ObjectReply`, `UnparseableBody`, `OkFalseWins` and `NullBodyThrows`.
- Money and quantities are integers. Not modelled: floating point, `NaN`, MySQL `DECIMAL` values arriving as strings, and `toLocaleString` formatting.
- `toLowerCase` is ASCII-only, and there is no Unicode case folding.
- `allInvoices` is not modelled, because its `created_at` ordering needs a clock the model does not have.
- The SQL order of `itemsByInvoice` is unspecified, so it is modelled as table insertion order.
- Billing ids are integers. `service_id` and `patient_id` are not modelled as JavaScript values of other types.
- Unlike InnoDB, a failed insert here consumes no AUTO_INCREMENT id. Ids of rolled-back inserts are not reused, as in InnoDB.
- `Js.Value` has no JSON arrays. The list endpoints send arrays to `req`, and `req` treats an array like an object without `ok`, `data` or `message`: a 2xx reply returns the body as it came, and any other status throws `HTTP <status>`.
- Billing.Database.Valid: does not track the freshness of item ids, because no contract depends on it.
- `Date.now()` and the clock's `HH:MM` are the parameters `now` and `hora`.
- The `api.billing.charge` branch of `handleProcessPayment` is not modelled. `api` defines no `billing` member, so the branch never runs.
- The cashier's data loading is not modelled. That covers `callSafe`, the mock fallbacks when the back end is unavailable, and the other dashboards. The constructor takes the loaded lists.
- The Blob, object URL and download of the CSV export are I/O and are not modelled. So is the file name with its date.
- `t.monto || 0` and `precio || 0` are identities on integers: the `NaN` and `undefined` cases are not modelled.
- Cashier.CashierDashboard.ChargeBill: counter agreement is proved only for a listed unpaid bill whose id no other bill shares. Charging an already paid bill still lowers the pending count, as in the page, and the UI shows the button only for unpaid bills.
- CsvExport.CsvRoundTrip: stated for files whose every row has at least one cell. A row with no cells prints as an empty line that the reader does not accept back.
- `createInvoice` with a body that has no `items`: the items are a sequence, so that body cannot be expressed. In the source, the loop over `undefined` throws a TypeError after the invoice insert, and the catch rolls back and rethrows.
- `normalizePayload(data = {})`: the default for a missing argument is not modelled. Callers always pass a body object.
