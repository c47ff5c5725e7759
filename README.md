# Tiffin dashboard client — a Dafny model

This project models the logic of the tiffin-service dashboard, a browser client. An operator
logs in with the web-app URL and an API token. The client keeps both in the browser's storage
and sends every request as a JSON envelope `{action, token, ...data}`. The operator can then
load the dashboard statistics, generate the kitchen order list for a date and a meal (with
order numbers to skip), export that list as a spreadsheet, and log out.

The model has seven modules:

- `Wrappers` (`wrappers.dfy`): `Option` and `Result`.
- `Strings` (`strings.dfy`): the string operations the client relies on:
  - decimal rendering of numbers and `padStart`;
  - `split` and `join` on one separator;
  - `trim`, with the full white-space set of `String.prototype.trim`;
  - global one-character `replace`;
  - the `a || b` fallback on strings.
- `JsValues` (`js_values.dfy`): JavaScript values, read as follows.
  - An object is its list of properties in insertion order, and object spread is modelled with it (see "## Left out" for integer-like keys).
  - Truthiness is JavaScript's.
  - A property or index read on `null`/`undefined` throws; the model says so.
  - `String(v)` is modelled.
- `ApiClient` (`api.dfy`): the credential store and the request gateway.
  - The class `CredentialStore` holds `API_CONFIG.TOKEN`, `API_CONFIG.BASE_URL`, the two storage keys and a flag for "running in a browser".
  - The setters and `clearAPIToken` are methods; the getters are functions.
  - The authentication check, the envelope, the shaping of transport outcomes into a value or an error message, and the `api` table are functions.
  - The network is an input: what the transport delivered (a status and a parsed body, an unreadable body, or a failure).
- `DashboardView` (`dashboard.dfy`): the dashboard's logic.
  - Pure parts: the skip-list parser, the default `dd/mm/yyyy` date, the row projection, the export guard, the file name, and how responses settle.
  - The class `Dashboard` holds the view's state (`date`, `mealType`, `skipOrders`, `loading`, `result`, `error`, `stats`) and has one method per handler.
  - Each `await` splits a handler into the part before the request and the part after the response.
- `DashboardExamples` (`dashboard_examples.dfy`): worked examples, and how the default date flows into the export file name.
- `LoginView` (`login.dfy`): the class `Login` and its submit handler.

A React state setter is a field assignment. The writes made through the credential store are
recorded, in order, in a ghost log (`calls`). Each view also keeps a ghost log (`events`) of its
calls into the store and of its parent's callback (`onLoginSuccess`, `onLogout`), in the order
they were made.

## Model

| member | source | states |
|---|---|---|
| ApiClient.InitialBaseUrl | src/lib/api.ts:2-7 | The starting base URL is the configured environment value when it is set and non-empty, and `''` otherwise |
| ApiClient.CredentialStore.constructor | src/lib/api.ts:2-7 | A fresh store has an empty token, the environment's base URL and storage as found, with nothing written yet |
| ApiClient.CredentialStore.SetApiToken | src/lib/api.ts:9-21 | Sets the token. In a browser it also writes `api_token`, after which `getAPIToken()` returns the new token. Without a browser, storage is untouched and the getter returns null. The base URL and `getAPIURL()` are unchanged |
| ApiClient.CredentialStore.SetApiUrl | src/lib/api.ts:31-43 | Sets the base URL. In a browser it also writes `api_url`, after which `getAPIURL()` returns it. Without a browser, storage is untouched. The token and `getAPIToken()` are unchanged |
| ApiClient.CredentialStore.ClearApiToken | src/lib/api.ts:23-29 | Empties the token and removes both storage keys, leaving the base URL as it was. Both getters then return null, and every `api` call fails as not authenticated |
| ApiClient.Authorize | src/lib/api.ts:84-92 | A request exists exactly when both the stored token and URL are non-null and non-empty. Otherwise the failure is `Not authenticated. Please login first.`. The request goes to the stored URL with the envelope as its body |
| ApiClient.EnvelopeLookup | src/lib/api.ts:88-92 | Every property of `data` reaches the envelope with its value. `action` and `token` carry the call's values unless `data` has a property of that name, which then wins |
| ApiClient.EnvelopeKeys | src/lib/api.ts:88-92 | The envelope starts with `action`, `token`. Its keys are exactly those two and the keys of `data`, with none repeated |
| ApiClient.RequestFailedMessageStatus | src/lib/api.ts:104-106 | A non-ok response's message is `API request failed: ` followed by the status in decimal, and reads back as that status |
| ApiClient.ReadResponse | src/lib/api.ts:94-113 | Success exactly when the response arrived with status 200-299 and a parsed body, which is returned unchanged. A non-ok status fails with its `API request failed` message. A rejected fetch or an unreadable body fails with its own error message, or with `Failed to connect to API` when that message is empty, so no failure message is empty |
| ApiClient.CallWithResponse | src/lib/api.ts:80-114 | Without credentials nothing is sent and the call fails as not authenticated, whatever the transport did. With credentials it sends the envelope `{action, token, ...data}` to the stored URL with the stored token, and settles as the response's reading. A failure never has an empty message |
| ApiClient.UnauthenticatedCallsNeverReachTransport | src/lib/api.ts:47-52 | Without credentials, neither call function's exchange (what is sent and what it settles to) depends on the transport |
| ApiClient.Call | src/lib/api.ts:46-77 | Without credentials nothing is sent and the call fails as not authenticated. With credentials it sends the envelope to the stored URL. Once the request is dispatched it resolves to `{success: true}` whatever the remote side did. A rejected fetch is rethrown unchanged |
| ApiClient.CredentialStore.CallApiWithResponse | src/lib/api.ts:80-114 | The credentials are read back from storage (`api_url`, `api_token`), not from `API_CONFIG`. When either key is missing or empty (outside a browser, before login, after logout), nothing is sent and the call fails as not authenticated. With both keys non-empty the envelope goes to the stored URL and the outcome is the response's reading. Failures have non-empty messages |
| ApiClient.CredentialStore.CallApi | src/lib/api.ts:46-77 | The credentials are read back from storage. When either key is missing or empty, nothing is sent and the call fails as not authenticated. With both keys non-empty the envelope goes to the stored URL; once dispatched the call resolves to `{success: true}` whatever the remote side did, and a rejected fetch is rethrown with its own message. Any success is `{success: true}` |
| ApiClient.StringArray | src/lib/api.ts:118-120 | The skip list is sent as an array of the same length whose elements are the entries as strings, in order |
| ApiClient.Payload | src/lib/api.ts:117-145 | Each `api` entry's payload, key by key. `generateKitchenList` sends `date`, `mealType` and `skipOrders` (the given list as a string array, or `[]` when omitted). The three getters send `{}`. `updatePaymentStatus` sends `orderNumber` and `paymentStatus`. `updateOrderStatus` sends `orderNumber` and `status`. `createOrder` sends `orderData`. Each field carries its argument. No key repeats, and none is `action` or `token` |
| ApiClient.OperationEnvelope | src/lib/api.ts:117-145 | The envelope of every `api` entry carries that entry's action name and the stored token, with every payload field unchanged beside them |
| ApiClient.ActionNamesDistinct | src/lib/api.ts:117-145 | Every action name belongs to exactly one entry of the table |
| ApiClient.CredentialStore.Invoke | src/lib/api.ts:117-145 | An `api` entry called without a stored token or URL sends nothing and fails as not authenticated. With both, it sends the entry's action name, the stored token and the entry's payload to the stored URL, and settles as the response's reading |
| ApiClient.InvokeSendsOperation | src/lib/api.ts:117-145 | The body an `api` entry sends reads back `action` as the entry's name, `token` as the token in storage, and every payload field unchanged |
| JsValues.PutLookup | src/lib/api.ts:88-92 | Assigning a property makes it read back as the new value and leaves every other property's value as it was |
| JsValues.PutKeys | src/lib/api.ts:88-92 | Assigning a property keeps the existing keys in place, adds the key at the end if it was new, and keeps keys distinct |
| JsValues.SpreadLookup | src/lib/api.ts:88-92 | In `{...target, ...source}` a property comes from `source` when `source` has it, and from `target` otherwise |
| JsValues.SpreadKeepsOrder | src/lib/api.ts:88-92 | Spreading keeps the target's keys, in order, as a prefix of the result's keys |
| JsValues.SpreadKeepsDistinct | src/lib/api.ts:88-92 | Spreading into an object with distinct keys keeps the keys distinct |
| JsValues.SpreadKeySet | src/lib/api.ts:88-92 | The spread object's keys are exactly the keys of target and source |
| JsValues.Member | src/components/Dashboard.tsx:35 | Reading `response.success` throws exactly when the response is null or undefined. On an object having the key it is that property's value. A missing property, or any property of another non-null value, reads as `undefined` |
| JsValues.Index | src/components/Dashboard.tsx:81-92 | Reading `order[i]` throws exactly when the order is null or undefined. On an array it is the element, or `undefined` past the end |
| Strings.NatToString | src/components/Dashboard.tsx:23-24 | `String(n)` of a natural number is a non-empty run of digits with no leading zero unless it is `0` |
| Strings.NatToStringRoundTrip | src/components/Dashboard.tsx:23-24 | The decimal rendering of a natural number reads back as that number |
| Strings.PadStart | src/components/Dashboard.tsx:23-24 | `padStart` keeps the string as the suffix of the result, fills the front with the pad character, and reaches the width unless the string is already longer |
| Strings.TwoDigitsRoundTrip | src/components/Dashboard.tsx:23-24 | A number below 100, rendered and padded to two, is exactly two digits that read back as the number |
| Strings.IntToStringRoundTrip | src/components/Dashboard.tsx:25-26 | The rendering of any integer year reads back as that year |
| Strings.IntToStringCharacters | src/components/Dashboard.tsx:25-26 | A rendered integer holds only digits, apart from a leading minus sign on negative numbers |
| Strings.Split | src/components/Dashboard.tsx:50-51 | `split(',')` always yields at least one piece, even for the empty string |
| Strings.SplitPiecesLackSeparator | src/components/Dashboard.tsx:50-51 | No piece produced by `split(',')` contains a comma |
| Strings.JoinSplit | src/components/Dashboard.tsx:50-51 | Joining the pieces of a split with the same separator gives the original string back |
| Strings.SplitJoin | src/components/Dashboard.tsx:50-51 | Splitting the join of separator-free pieces gives the pieces back |
| Strings.SplitNoSeparator | src/components/Dashboard.tsx:50-51 | A string without the separator splits into itself alone |
| Strings.SplitConcat | src/components/Dashboard.tsx:50-51 | Splitting `a + sep + b` gives the pieces of `a` followed by the pieces of `b` |
| Strings.SplitFirstPiece | src/components/Dashboard.tsx:50-51 | A separator-free prefix followed by the separator is split off as the first piece |
| Strings.TrimStartSuffix | src/components/Dashboard.tsx:52 | Removing leading white space keeps a suffix of the input |
| Strings.TrimStartFirst | src/components/Dashboard.tsx:52 | What remains after removing leading white space does not start with white space |
| Strings.TrimStartRemovesOnlySpace | src/components/Dashboard.tsx:52 | Everything removed from the front is white space |
| Strings.TrimEndPrefix | src/components/Dashboard.tsx:52 | Removing trailing white space keeps a prefix of the input |
| Strings.TrimEndLast | src/components/Dashboard.tsx:52 | What remains after removing trailing white space does not end with white space |
| Strings.TrimEndRemovesOnlySpace | src/components/Dashboard.tsx:52 | Everything removed from the back is white space |
| Strings.TrimIsTrimmed | src/components/Dashboard.tsx:52 | `trim()` never lengthens, and its result neither starts nor ends with white space |
| Strings.TrimKeepsTrimmed | src/components/Dashboard.tsx:52 | Trimming a trimmed string leaves it unchanged, so trimming is idempotent |
| Strings.TrimSurrounded | src/components/Dashboard.tsx:52 | Trimming removes exactly the white space around a non-empty trimmed core |
| Strings.TrimSubstring | src/components/Dashboard.tsx:52 | Trimming only removes characters: a character absent from the input is absent from the result |
| Strings.ReplaceChar | src/components/Dashboard.tsx:115 | `replace(/\//g, '-')` keeps the length and changes exactly the slashes |
| Strings.ReplaceCharRemoves | src/components/Dashboard.tsx:115 | After the replacement no slash remains, and a string without slashes is unchanged |
| Strings.ReplaceCharConcat | src/components/Dashboard.tsx:115 | The replacement works piecewise over concatenation |
| Strings.OrDefault | src/components/Dashboard.tsx:63 | `s \|\| fallback` on strings is `s` when non-empty, the fallback otherwise |
| DashboardView.CleanPiecesEntries | src/components/Dashboard.tsx:52-53 | After `.map(trim).filter(non-empty)` every entry is non-empty and trimmed |
| DashboardView.CleanPiecesConcat | src/components/Dashboard.tsx:52-53 | Trimming and filtering work piecewise over concatenation, so order is kept |
| DashboardView.CleanPiecesKeepsCleanPieces | src/components/Dashboard.tsx:52-53 | A list of non-empty trimmed entries passes through trimming and filtering unchanged |
| DashboardView.CleanPiecesWithout | src/components/Dashboard.tsx:52-53 | Trimming and filtering introduce no character that was not already present |
| DashboardView.ParseSkipListEntries | src/components/Dashboard.tsx:50-53 | Every skip entry is non-empty, trimmed and free of commas |
| DashboardView.SkipEntriesTrimmed | src/components/Dashboard.tsx:50-53 | Every skip entry equals its own trim |
| DashboardView.ParseSkipListEmpty | src/components/Dashboard.tsx:50-53 | Empty skip text gives no entries |
| DashboardView.ParseSkipListIdempotent | src/components/Dashboard.tsx:50-53 | Parsing the comma-joined skip list gives the same list back |
| DashboardView.ParseSkipListConcat | src/components/Dashboard.tsx:50-53 | Text on the two sides of a comma is parsed independently, and the results are kept in order, duplicates included |
| DashboardExamples.ParseSkipListExample | src/components/Dashboard.tsx:50-53 | `"A, B,, C "` gives `["A", "B", "C"]` |
| DashboardExamples.SplitExample | src/components/Dashboard.tsx:50-51 | `"A, B,, C "` splits into `"A"`, `" B"`, `""`, `" C "` |
| DashboardExamples.CleanExamplePieces | src/components/Dashboard.tsx:52-53 | Those four pieces trim and filter to `["A", "B", "C"]` |
| DashboardView.FormatDateFields | src/components/Dashboard.tsx:22-26 | The default date has `/` at positions 2 and 5. Positions 0-1 are two digits reading back as the day and 3-4 two digits reading back as the 1-based month. The rest reads back as the year |
| DashboardView.Project | src/components/Dashboard.tsx:81-92 | A row projects to a record exactly when it is not null or undefined. Columns 0-8 are the row's positions 0-8, and Notes is position 9, or `''` when that is falsy |
| DashboardView.ProjectCompleteRow | src/components/Dashboard.tsx:81-92 | A ten-field row with truthy notes comes back cell for cell |
| DashboardView.ProjectRowWithoutNotes | src/components/Dashboard.tsx:81-92 | A nine-field row gets an empty Notes cell |
| DashboardView.ProjectAllRecords | src/components/Dashboard.tsx:81-92 | The `map` succeeds exactly when no row is null or undefined, and then gives one record per row, in order, each the projection of its row |
| DashboardView.Cells | src/components/Dashboard.tsx:100-112 | A record has as many cells as there are headers and column widths (ten) |
| DashboardView.ExportFilename | src/components/Dashboard.tsx:114-116 | The file name contains no slash when the meal name has none |
| DashboardExamples.ExportFilenameExample | src/components/Dashboard.tsx:114-116 | `("09/02/2026", "Lunch")` names the file `Kitchen_List_09-02-2026_Lunch.xlsx` |
| DashboardExamples.DashedFilename | src/components/Dashboard.tsx:114-116 | A `dd/mm/yyyy` date whose parts hold no slash gives `Kitchen_List_dd-mm-yyyy_<meal>.xlsx` |
| DashboardExamples.ExportFilenameOfDefaultDate | src/components/Dashboard.tsx:114-116 | For the default date the file name carries the same padded day, month and year, dash-separated, then the meal |
| DashboardExamples.ReplaceSlashes | src/components/Dashboard.tsx:115 | Replacing the slashes of `a/b/c` gives `a-b-c` when the parts hold no slash |
| DashboardView.Export | src/components/Dashboard.tsx:74-120 | Nothing is written, with the `No data to download` alert, exactly when `result` or `result.orders` is falsy. A written workbook has one sheet `Kitchen Order List`, the ten headers, widths `[20,20,15,35,12,15,12,20,15,25]`, one projected record per order in order, and the date-and-meal file name. The export throws exactly when `orders` is truthy but not an array, or holds a null or undefined row |
| DashboardView.ExportEmptyOrders | src/components/Dashboard.tsx:75-78 | An empty `orders` array passes the guard and exports a sheet with no rows |
| DashboardView.StatsAfter | src/components/Dashboard.tsx:32-41 | The stats become `response.data` only on a successful response. A `success: false` response or a thrown error leaves them as they were |
| DashboardView.RejectionMessage | src/components/Dashboard.tsx:60 | The rejection carries `response.error` when that is a non-empty string, and `Failed to generate kitchen list` when it is falsy |
| DashboardView.GenerateOutcomeOf | src/components/Dashboard.tsx:57-63 | The list is generated exactly when the call succeeded with a truthy `success`, and `result` is then `response.data`. Otherwise there is a message, which is never empty: the gateway's own message, or the rejection's message with `An error occurred` as the last fallback |
| DashboardView.GatewayErrorsShownVerbatim | src/components/Dashboard.tsx:62-63 | A failing gateway call reaches the operator with the gateway's own message |
| DashboardView.RejectionWithoutError | src/components/Dashboard.tsx:57-61 | A response whose `success` is falsy and that has no `error` property shows `Failed to generate kitchen list` |
| DashboardView.PlainRejection | src/components/Dashboard.tsx:57-61 | `{success: false}` shows `Failed to generate kitchen list` |
| DashboardView.ResponseWithoutSuccess | src/components/Dashboard.tsx:32-61 | A response without a `success` property counts as a failure: the stats stay as they were, and no list is generated |
| DashboardView.Dashboard.constructor | src/components/Dashboard.tsx:12-18 | The initial view state: empty date and skip text, Lunch, not loading, no result, no error, no stats |
| DashboardView.Dashboard.Mount | src/components/Dashboard.tsx:20-30 | Mounting sets the default date and then loads the stats |
| DashboardView.Dashboard.LoadStats | src/components/Dashboard.tsx:32-41 | `stats` changes only as `StatsAfter` says, and a failed call leaves it unchanged |
| DashboardView.Dashboard.BeginGenerate | src/components/Dashboard.tsx:44-55 | Before the request: `error` is `''`, `loading` is true, `result` is null, and the request carries the form's date, meal and parsed skip list |
| DashboardView.Dashboard.FinishGenerate | src/components/Dashboard.tsx:57-66 | After the response, `result` holds the data on success and `error` the message on failure. `loading` is false in every outcome |
| DashboardView.Dashboard.HandleGenerateList | src/components/Dashboard.tsx:43-67 | The whole handler: `loading` ends false. `result` is the data on success and null otherwise. `error` is the failure message on failure and `''` otherwise |
| DashboardView.Dashboard.HandleLogout | src/components/Dashboard.tsx:69-72 | Clears the credentials as `clearAPIToken` does: the token is emptied and the base URL is kept. In a browser exactly the two storage keys are removed; without a browser storage is untouched. Both getters then return null. Clearing comes first, then the parent is signalled, once |
| DashboardView.Dashboard.HandleDownloadExcel | src/components/Dashboard.tsx:74-120 | The download is the export of the current result, date and meal. It writes nothing exactly when `result` or `result.orders` is falsy |
| LoginView.DisplayedError | src/components/Login.tsx:34-35 | The form shows the thrown message, or `Failed to connect. Please check your credentials.` when that is empty, so it never shows an empty error |
| LoginView.Login.constructor | src/components/Login.tsx:11-14 | The initial form: empty fields, not loading, no error |
| LoginView.Login.HandleLogin | src/components/Login.tsx:16-39 | With either field empty, the error is `Please enter both API URL and Token`, the store is untouched and nothing is signalled. With both filled in (no other validation), the URL is written, then the token, and only then is success signalled, once; the error is `''`. In a browser exactly `api_url` and `api_token` change in storage; without one, storage is untouched. In a browser every later `api` call then sends its envelope with the entered token to the entered URL. `loading` ends false in every path |

## Left out

- The network: `fetch`, `JSON.stringify` of the envelope, `response.json()`, `no-cors` and redirect handling are not modelled. What the transport delivered is an input instead: a status with a parsed or unreadable body, a network failure, or, for `callAPI`, whether dispatch rejected.
- The `xlsx` library is not modelled. The model stops at what is handed to it: the records, the sheet name, the headers, the column widths and the file name.
- The system clock: `new Date()` is replaced by the day, the month index and the year, given as parameters.
- `process.env`: the configured base URL is a parameter of the store's constructor.
- `console.error` and `alert`: `alert` is modelled as the alert text in the export outcome, and logging is dropped.
- React rendering, hooks and re-render timing are not modelled. A state setter is an immediate field assignment, and the mount effect is one method.
- Exceptions thrown by `localStorage` (quota, privacy mode) are not modelled. Nor are exceptions thrown by the parents' `onLoginSuccess` and `onLogout`. The fallback text of `LoginView.DisplayedError` is therefore only reachable from those unmodelled exceptions.
- `LoginView.Login.HandleLogin`: the handler has no `await`, so its `loading = true` moment is never observed from outside. The contract states only the final `loading`.
- `API_CONFIG` as seen by other code: the call functions never read it (they read the storage keys). Only its values after each setter are stated.
- Numbers are integers. JavaScript's floating point (`NaN`, `-0`, fractions) is not modelled, so statuses, dates and order fields that are numbers are whole numbers.
- Strings are sequences of code points, not UTF-16 code units. Indexing a string inside an order row and the length checks therefore differ from JavaScript for characters outside the Basic Multilingual Plane.
- The text of a `TypeError` (for example reading `success` of a null response) depends on the JavaScript engine. The model uses one fixed, non-empty message.
- `src/app/layout.tsx` is not part of this model: it holds static page metadata and no logic.
- The export of an empty `orders` array: export is meant to refuse an empty order list, but the code only checks that `result.orders` is truthy, and an empty array is truthy. The model follows the code (`DashboardView.ExportEmptyOrders`).
- ApiClient.EnvelopeKeys: for a `data` object with an integer-like key (`"0"`, `"1"`, ...), the stated key order is not JavaScript's. JavaScript lists such keys first, in ascending order, and `JSON.stringify` writes them in that order. Property values are not affected, and no payload built by the `api` table has such a key.
- JsValues.Spread: every key is kept in insertion order. JavaScript instead puts integer-like keys before all others, in ascending order.
