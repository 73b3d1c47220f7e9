# Aggregator client core: account KPIs and link registration

A Dafny model of the logic in `app/belvo_client.py` of a small backend that
onboards bank accounts through an open-banking aggregator (Belvo).

- **Account KPIs** (`get_account_kpis`, module `AccountKpis`, pure): one page
  of transactions is folded into four totals. They are processed and pending
  inflows (`ingresos`, `ingresos_pendientes`) and processed and pending
  outflows by absolute amount (`egresos`, `egresos_pendientes`). The balance is
  `ingresos - egresos`. The currency comes from the first transaction, or is
  absent when there are none. The transaction list is returned unchanged. A
  status other than 200 raises an HTTP error with that status and the upstream
  body.
- **Link registration** (`register_link_institution`, module `LinkRegistry`,
  imperative): class `Database` holds the institution and link tables as
  sequences of rows, and "first" means lowest index. Registration works in this order:
  - it looks up the institution by name and gives 404 if it is absent;
  - it answers from the store when the institution's first link is `valid`;
  - otherwise it builds credentials from the institution's form fields in a
    loop that updates one dictionary;
  - it adds the mock bank's `username_type`;
  - it builds the payload and posts it;
  - on success it updates the existing link in place or appends a new one,
    and on an upstream error it writes nothing.
- **Link lookup** (`get_link_by_bank`): the id of the bank's first link, or 404.

Module `BelvoTypes` holds the shared types: upstream responses, parsed bodies
and the raised exceptions. `HttpException` is FastAPI's exception. `Crash` is
any other Python exception, such as a body that is not JSON or a missing key.

The aggregator, the regex string generator (`rstr.xeger`) and the database
are parameters or plain values:
- `upstream: Payload -> Response<LinkData>` is the link-creation endpoint.
- `xeger: string -> string` gives the generated string for a pattern.
- the KPI function takes the transactions endpoint's response as its input.
- `RegisterLinkInstitution` returns the payload it posted as `sent`. It is
  `None` exactly when no aggregator call is made.

Amounts are integers in minor units.

Facts about the code that the model keeps:
- `get_account_kpis` has no per-category rules (pension fund, credit card,
  loan) and no fallback to the account endpoint when there are no transactions.
- The synthesised credentials are never stored. A new link's `credentials` is
  absent (NULL), and an updated link keeps its old value.
- `get_account_kpis` reads one page of 200 transactions.
- Link creation fails only on the statuses `raise_for_status` rejects
  (400-599). The KPI call fails on any status other than 200.
- Error details come in three forms: the upstream JSON body passed on as it
  is; a bare string, for the two 404s; and the object
  `{"detail": "Error desconocido al registrar el link"}`, raised when a failed
  link-creation body is not JSON.

## Model

| member | source | states |
|---|---|---|
| `AccountKpis.Sum` | app/belvo_client.py:153-156 | a sum over absolute amounts (the outflow totals) is never negative; a list with no transaction of the given type and status sums to 0 |
| `AccountKpis.Summarize` | app/belvo_client.py:153-168 | each total is the sum over exactly its type and status; `egresos` and `egresos_pendientes` are ≥ 0; `balance == ingresos - egresos`; the currency is absent iff the list is empty, and otherwise it is the first transaction's account currency; the list is returned unchanged |
| `AccountKpis.GetAccountKpis` | app/belvo_client.py:142-169 | a summary is produced iff the status is 200 and the body is a JSON object; any other status with a JSON body raises an HTTP error with that same status and the body as detail; a missing `results` gives the empty summary |
| `AccountKpis.SumAppend` | app/belvo_client.py:153-156 | the sum over `a + b` is the sum over `a` plus the sum over `b` |
| `AccountKpis.SumIgnoresOrder` | app/belvo_client.py:153-156 | two lists with the same transactions, in any order, have the same sums |
| `AccountKpis.KpisIgnoreOrder` | app/belvo_client.py:153-158 | reordering the transactions changes none of the four totals nor the balance |
| `AccountKpis.UncountedTransactionChangesNothing` | app/belvo_client.py:153-158 | inserting a transaction whose type is not INFLOW/OUTFLOW or whose status is not PROCESSED/PENDING changes no total and not the balance |
| `AccountKpis.PendingNeverAffectsBalance` | app/belvo_client.py:153-158 | inserting a pending transaction changes neither `ingresos`, `egresos` nor the balance |
| `AccountKpis.BalanceIsNetProcessed` | app/belvo_client.py:153-158 | the balance equals the running sum of each processed inflow's amount minus each processed outflow's absolute amount |
| `LinkRegistry.FirstWhere` | app/belvo_client.py:70-76 | `.first()` of a filtered query: the index found satisfies the filter and no earlier row does; none is found iff no row satisfies it |
| `LinkRegistry.GetLinkByBank` | app/belvo_client.py:134-139 | succeeds iff some link has the bank as its institution, and then gives the id of the first such link; otherwise raises 404 with the source's message |
| `LinkRegistry.FieldValue` | app/belvo_client.py:88-94 | a select field gets "003" (whatever the institution); any other field gets the string generated from its non-empty validation pattern, or "test123" |
| `LinkRegistry.FieldCredentialsKeys` | app/belvo_client.py:85-94 | the credential keys are exactly the form fields' names |
| `LinkRegistry.LastFieldWins` | app/belvo_client.py:87-94 | the value under a name is that of the last field with that name |
| `LinkRegistry.CredentialsKeys` | app/belvo_client.py:85-97 | the credential keys are exactly the form field names, plus `username_type` for `ofmockbank_br_retail`, whose value is "103" whether or not a form field has that name; for any other institution `username_type` is a key only when a form field declares it |
| `LinkRegistry.CredentialsValues` | app/belvo_client.py:85-97 | each name's value comes from the last field of that name (so a select field reads "003" and a field without a pattern reads "test123"); only the mock bank's `username_type` is overridden, to "103" |
| `LinkRegistry.FetchResources` | app/belvo_client.py:100 | the institution's resources when present and non-empty, else `["ACCOUNTS","TRANSACTIONS","BALANCES"]`; never empty |
| `LinkRegistry.BuildPayload` | app/belvo_client.py:98-102 | the payload's keys are the credential keys plus `institution` and `fetch_resources`; every credential key keeps its credential value, overriding a base key of the same name |
| `LinkRegistry.Upsert` | app/belvo_client.py:118-129 | with an existing link only that row changes, in id, status and fetch resources, and the link count stays the same; otherwise exactly one link built from the response is appended and the old rows are kept |
| `LinkRegistry.ValidLinkIsCachedNextTime` | app/belvo_client.py:74-129 | after a successful registration that stored a `valid` link, the next lookup for the institution finds a `valid` first link, so the next call makes no aggregator request; when no link existed before, this needs the aggregator's response to name the same institution, because line 125 stores the response's `institution` and not the looked-up name |
| `LinkRegistry.SynthesizeCredentials` | app/belvo_client.py:85-97 | the loop builds exactly the credentials that `CredentialsKeys` and `CredentialsValues` describe |
| `LinkRegistry.Database.RegisterLinkInstitution` | app/belvo_client.py:69-132 | unknown institution: 404, no call, store unchanged. A first link that is `valid`: its own id, institution, status and fetch resources are returned, with no call and no change to the store. Otherwise: the built payload is posted. On a 4xx/5xx the same status is raised with the upstream body (or, for a body that is not JSON, the object `{"detail": "Error desconocido al registrar el link"}`) and nothing is written. On success the links become the upsert of the response. The institutions never change |
| `BelvoTypes.ErrorDetail` | app/belvo_client.py:112-116 | the error detail is the upstream JSON body, or, exactly when the body is not JSON, the one-key object `{"detail": fallback}`; it is never a bare string |

## Left out

- HTTP transport (requests, basic auth, timeouts, URLs, query parameters) is left out. Each upstream response is an input value.
- `list_institutions`, `get_institution` and `get_accounts_for_institution` are left out. They are network fetches, reflective field copying and passthrough.
- `rstr.xeger` is a foreign regex generator. It is the parameter `xeger`, so generated strings are opaque and the same pattern gives the same string.
- The SQLAlchemy session is left out: queries, `commit`, `close`, transactions and concurrent requests. Rows live in sequences and "first" is the lowest index.
- An ORM row object's identity is left out. The in-place update of the existing link is a replacement of that row's value in the sequence.
- Primary-key uniqueness of link ids is left out. An id returned by the aggregator that clashes with another row would fail at commit in the source.
- Link columns the code never touches (`access_mode`, `created_at`, `external_id` and the others) are left out, apart from `credentials`.
- Other Python exceptions on malformed data are left out: a transaction without `amount`, a form field without `name` or `type`, or a non-string `validation` pattern.
- JSON documents are kept as their text. A body that is JSON but not the expected object is `OtherJson` and leads to a `Crash`.
- `print(payload)` is debugging output. Its value is the `sent` out-parameter.
- Floating-point amounts are modelled as integers in minor units.
- Pagination is left out. Only the first page of transactions is summarised, as in the source.
- app/main.py (routing, CORS, authentication), app/crud.py (users and password hashing), app/config.py (settings) and services/balvo_client.py (an async client) are not part of this model.
