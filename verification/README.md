# axios-logger, modelled in Dafny

`axiosLogger` decorates an axios instance with logging. It takes the transport function
in `axios.defaults.adapter` and replaces it with a wrapper. The wrapper times each call
and passes the call's response or error through unchanged. It then formats a request
record and makes one call on a logger: `info` when a response came back, `error`
otherwise. The default formatter `formatDefault` turns the record into five values:
the method, the status, the elapsed time, the url, and a `{config, response, error}` bag.

Modules, one file each:

- `Wrappers` (wrappers.dfy): `Option` for JavaScript's `null`/`undefined`, and `Result` for the thrown configuration error.
- `Strings` (strings.dfy): ASCII `toUpperCase`, and the decimal rendering of an integer in a template literal. `ParseInt` reads the rendering back.
- `Format` (format.dfy): the record types and `formatDefault` (`FormatDefault`), with lemmas for each of its five values.
- `Logging` (logging.dfy): the `Logger` and `Clock` objects, and the adapter slot's contents as a datatype. `Transport` is the configured transport. `Logged` is a wrapper around an earlier adapter, so stacked decorations are explicit. `Invoke` is one call through the slot's adapter. `Trace` is the specification of the logger calls that `Invoke` makes.
- `Decorate` (client.dfy): the axios instance as a `Client` object with its adapter slot, and `axiosLogger` (`AxiosLogger`).

How the environment is modelled:

- A call's outcome is synchronous. `Resolved(response)` is a fulfilled promise; its response is `None` when the promise resolved with a falsy value. `Rejected(error)` is a rejected one.
- `new Date()` is `Clock.Now`. The caller supplies the clock's readings as a function from reading number to milliseconds.
- The logger records its calls as a sequence of `(level, values)` entries.
- The global `console` default is passed in as a `Logger` parameter.

Behaviour of src/index.ts a reader might not expect, which the model keeps:

- The bag in the fifth value is `{config, response, error}`, with no `data`.
- The placeholder for a missing status is the text `undefined`, so the value is `undefined/(undefined)`.
- Nothing isolates a throwing formatter or logger.
- If the transport resolves with a falsy value, neither `response` nor `error` is set, and the level is `error`. `TraceOutcome` states this case too.

## Model

| member | source | states |
|---|---|---|
| Strings.UpperCase | src/index.ts:31 | `toUpperCase` keeps the length of the string |
| Strings.UpperCaseAt | src/index.ts:31 | each character of the result is the upper-case form of the character at the same place |
| Strings.UpperCaseIdempotent | src/index.ts:31 | the result has no lower-case letter; upper-casing it again changes nothing |
| Strings.NatToDecimal | src/index.ts:30-31 | the rendering of a natural number is non-empty digits with no leading zero |
| Strings.DecimalValueOfNat | src/index.ts:30-31 | the digits denote exactly the number rendered |
| Strings.IntToDecimalRoundTrip | src/index.ts:30-31 | `${n}` reads back as `n`; it starts with '-' exactly when `n` is negative; otherwise it is all digits |
| Format.FormatDefault | src/index.ts:24-32 | exactly five values; the first three are strings; the fifth is the `{config, response, error}` bag of the record |
| Format.FormatDefaultMethod | src/index.ts:26-31 | first value: the method upper-cased letter by letter, same length, no lower-case letter, empty exactly when the method is absent or empty |
| Format.FormatDefaultStatus | src/index.ts:28-31 | second value: `<status>/(<statusText>)` from the response, else from the error's response, else `undefined/(undefined)` |
| Format.FormatDefaultElapsed | src/index.ts:30-31 | third value: a number followed by `ms`; the number reads back as `endTime - startTime`; it has no sign when `endTime >= startTime` |
| Format.FormatDefaultUrl | src/index.ts:27-31 | fourth value: the config's url, or `undefined` |
| Format.FormatDefaultExample | src/index.ts:24-32 | a GET of `/x` answered `200 OK` after 5 ms starts `["GET", "200/(OK)", "5ms", "/x"]` |
| Format.FormatDefaultNetworkFailure | src/index.ts:28-31 | an error with no embedded response still formats, with `undefined/(undefined)` |
| Logging.Logger.Info | src/index.ts:8-11 | `info` appends one `info` entry with the values and changes nothing else |
| Logging.Logger.Error | src/index.ts:8-11 | `error` appends one `error` entry with the values and changes nothing else |
| Logging.Clock.Now | src/index.ts:53 | a clock reading returns the next caller-supplied timestamp |
| Logging.Emit | src/index.ts:64 | `logger[logLevel](...content)` makes one call on the method the level names |
| Logging.Invoke | src/index.ts:50-66 | the outcome is exactly the bottom transport's; the clock is read twice per wrapper; each logger of the stack gains exactly its calls from `Trace`, appended after its earlier entries; nothing else changes |
| Logging.TraceStep | src/index.ts:55-65 | a wrapper's own logger call comes after every call made by the adapters inside it |
| Logging.TraceLength | src/index.ts:50-65 | one call through a stack makes exactly one logger call per wrapper |
| Logging.EntriesForCount | src/index.ts:60-64 | each logger receives one call per wrapper that uses it |
| Logging.TraceOutcome | src/index.ts:51-63 | every wrapper logs at `info` exactly when the transport resolved with a response; each record carries the call's config and exactly the outcome's response or error |
| Logging.TraceElapsed | src/index.ts:53-61 | with a clock that never goes back, every record's end is no earlier than its start |
| Logging.DecoratedOnce | src/index.ts:50-65 | one wrapper over a transport makes exactly one logger entry, with the selected level and the formatter's values for the call's record |
| Logging.DecoratedTwice | src/index.ts:44-65 | two stacked wrappers: the inner one logs first; each record carries the call's config and outcome; the inner one is timed by the second and third clock readings, the outer one by the first and fourth; both report the same outcome; on a shared logger these are its two entries |
| Decorate.Wrap | src/index.ts:48-50 | the wrapper takes the given formatter, else `formatDefault`, and the given logger, else `console`; it sits on the old adapter and keeps its transport |
| Decorate.AxiosLogger | src/index.ts:43-68 | with no adapter: fails with `axios.defaults.adapter is missing` and leaves the client unchanged; otherwise returns the same client with its adapter wrapped |

## Left out

- Promises and `async`/`await`: a call is modelled as a synchronous outcome. Concurrent calls interleave only at the logger, and no contract depends on that.
- How axios itself performs a request and picks `defaults.adapter`: that code belongs to the axios library, not to this source. `Logging.Invoke` calls the adapter that is in the slot.
- The network transport: it is an arbitrary function from config to outcome.
- `AxiosRequestConfig`, `AxiosResponse` and `AxiosError`: only the fields the formatter reads are kept (method, url, status, statusText, the embedded response). Each is optional.
- A thrown value that is not an error object, such as `throw null`: `Rejected` always carries an `HttpError`.
- `Date` and `getTime()`: timestamps are the caller's integer readings, in milliseconds.
- Strings.UpperCase: only ASCII letters are upper-cased. Other characters are left unchanged, whereas JavaScript's `toUpperCase` follows Unicode case mapping.
- General template stringification and spreading an `any[]` into the logger call: only integer statuses, string status texts and `undefined` are rendered. Numbers are unbounded integers, not doubles.
- A formatter or logger that throws inside the `finally`: both are total in the model. In the source such a throw would replace the call's outcome.
- An explicit `null` passed as `options`: the `Options` record is always present; its missing fields fall back to the defaults.
- The per-verb facade object and its `defaults`/`interceptors` passthroughs: src/index.ts does not contain them, so they are not part of this model.
