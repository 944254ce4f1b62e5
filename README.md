# biapi CLI: settings store, credential resolution and request builders

A Dafny model of the logic of `biapi`, a command-line client for the Budgea
banking-aggregation REST API. The model has two parts.

- **Settings and credentials** (`settings.dfy`, `auth.dfy`, `config_commands.dfy`).
  The settings store is a class `Settings.ConfigStore` holding a
  `map<string, string>`. Opening it seeds five keys from the environment:
  `accessToken`, `baseUrl`, `domain`, `clientId` and `clientSecret`.
  `Set`, `Delete` and `Clear` change it in place.
  Three resolvers sit on top of the store: the access token (store, then
  `BIAPI_ACCESS_TOKEN`, else a configuration error), the base URL (store,
  then `BIAPI_BASE_URL`, then `https://demo.biapi.pro/2.0`) and the client
  credentials (each field on its own, store then environment). The model also
  covers the bearer headers, the token-length check, and the `config`
  subcommands with their masking of secrets.
  The history of calls on one opened store is also modelled as values
  (`Edit`, `Apply`, `Replay`). `ReplayIsLastWrite` proves it equal to a "last
  write wins" reading of every key. Each CLI invocation opens the store again
  (`Seeded`), so a deleted seeded key reads as its default in the next
  invocation (`ReopenRestoresDeletedDefault`).
- **Request builders** (`*_commands.dfy`). Each subcommand's action is a
  method. It turns the command-line options into exactly one
  `Requests.Request`: verb, path, query parameters and body. It may also stop
  before any request, as `auth jwt` does without client credentials, or
  `connections create/update` with an unreadable file.
  Options are `Option<string>`: `None` is a flag that was not given. A default
  declared for an option applies only when the flag is absent (`OrDefault`).
  The tests `if (options.x)` use JavaScript truthiness (`Truthy`): an empty
  string is falsy.
  Paths come from `Routes.Path`. It joins a route's segments and interpolates
  ids without escaping. `Routes.ParsePath` proves that a path names exactly
  one resource when no id contains `/`. `Routes.UnescapedIdCollides` shows
  that an id containing `/` can address another resource.

Two behaviours of the code are worth noting. `getAuthHeaders` always adds
`Content-Type: application/json`, also on GET and DELETE requests. After
`config delete`, the key is absent from the store, not reset to its default.
The storage library seeds the defaults again only when the store is next
opened, which `ConfigStore.Open` models.
The token format check counts the length the way JavaScript does, in UTF-16
code units (`Base.Utf16Length`).

## Model

| member | source | states |
|---|---|---|
| `Settings.Defaults` | src/lib/config.js:15-21 | The seeded keys are exactly the five settings. Each one takes its environment variable when that is non-empty. Otherwise it takes its fallback: `''` for the token and client credentials, `https://demo.biapi.pro/2.0` for the base URL, `demo` for the domain. The base URL and domain are never empty. |
| `Settings.ConfigStore.Open` | src/lib/config.js:13-22 | A freshly opened store holds the defaults, with the persisted entries taking precedence. Its `defaults` (what `Clear` restores) are the defaults computed from the environment. |
| `Settings.Seeded` | src/lib/config.js:13-22 | What a store holds when opened: exactly the five seeded keys plus the persisted ones, where a persisted value wins and a seeded key not persisted holds its default. |
| `Settings.ReopenRestoresDeletedDefault` | src/lib/config.js:13-22 | Within one store, a seeded key is absent after a history ending in its delete. When the next CLI invocation opens the store again over those entries, the key reads as its default. |
| `Settings.ConfigStore.Get` | src/lib/config.js:29-31 | `getConfig(k)` is undefined exactly when `k` is not stored, and otherwise it is the stored value. |
| `Settings.ConfigStore.All` | src/lib/config.js:46-48 | `getAllConfig()` agrees with `getConfig` on every key: a key is in it exactly when it is stored, with the same value. |
| `Settings.ConfigStore.Set` | src/lib/config.js:29-40 | After `setConfig(k, v)`, `getConfig(k)` returns `v`, and every other key reads as before. |
| `Settings.ConfigStore.Delete` | src/lib/config.js:54-56 | Removes only `k`: `getConfig(k)` is then undefined, and every other key reads as before. |
| `Settings.ConfigStore.Clear` | src/lib/config.js:61-63 | Every key reads as its seeded default again. |
| `Settings.ReplayIsLastWrite` | src/lib/config.js:38-63 | After any sequence of `setConfig`, `deleteConfig` and `clearConfig` calls on one opened store, each key holds what the last edit touching it says: a set's value, nothing after a delete, the default after a clear, or the starting entry when no edit touched it. |
| `Settings.UntouchedKeyKeepsEntry` | src/lib/config.js:29-56 | A key that no set or delete names, in a history without a clear, keeps its starting value. |
| `Settings.ClearForgetsHistory` | src/lib/config.js:61-63 | Whatever happened before, a clear leaves exactly the defaults. No value set since initialisation survives it. |
| `Settings.AccessToken` | src/lib/config.js:70-82 | Fails with the configuration error exactly when both the stored token and `BIAPI_ACCESS_TOKEN` are empty or unset. Otherwise it returns the stored token when that is non-empty, else the environment token. A returned token is never empty. |
| `Settings.BaseUrl` | src/lib/config.js:88-90 | Never fails and never returns an empty URL. The order is the store, then `BIAPI_BASE_URL`, then `https://demo.biapi.pro/2.0`. |
| `Settings.ClientCredentials` | src/lib/config.js:96-101 | Client id and secret are resolved independently. Each is the stored value when non-empty, else the environment variable as it is (possibly unset or empty). It never fails. |
| `Auth.AuthHeaders` | src/lib/auth.js:14-22 | Succeeds exactly when the token resolves, and otherwise fails with the resolver's error. The headers are exactly `Authorization`, `Accept` and `Content-Type`. `Authorization` is `Bearer ` followed by the resolved token, so it is never `Bearer ` with nothing after it. Both media types are `application/json`. |
| `Auth.ValidTokenFormat` | src/lib/auth.js:29-32 | Only a string can pass. Every string of at least 20 characters passes, and a passing string has at least 10 characters, because the length is counted in UTF-16 code units. |
| `Auth.TokenFormatBoundary` | src/lib/auth.js:29-32 | A string of 19 UTF-16 code units is rejected, one of 20 is accepted, and a non-string is never accepted. |
| `Auth.BmpTokenFormat` | src/lib/auth.js:31 | For a token made of characters of the Basic Multilingual Plane (any ASCII token), the check accepts exactly the tokens of at least 20 characters. |
| `Auth.SurrogatePairCountsTwice` | src/lib/auth.js:31 | 18 ASCII characters followed by one emoji make 19 characters but 20 code units, and pass the check. |
| `Auth.StoredTokenAuthorizes` | src/lib/auth.js:14-32 | A stored token that passes the format check is the bearer token in the headers, whatever the environment says. |
| `ConfigCommands.List` | src/commands/config.js:28-34 | Shows every stored key and no other. A non-empty access token or client secret is shown masked. Empty secrets and all other keys are shown unchanged. The store is only read. |
| `ConfigCommands.MaskKeepsPrefix` | src/commands/config.js:29-34 | A masked secret is the secret's first `min(10, len)` characters followed by `***`. |
| `ConfigCommands.MaskRevealsOnlyTenCharacters` | src/commands/config.js:29-34 | Two secrets that agree on their first ten characters are shown identically. The mask reveals nothing beyond the tenth character. |
| `ConfigCommands.Get` | src/commands/config.js:61-66 | Reports `Key "k" not found` exactly when `k` is absent from the whole configuration. Otherwise it shows the stored value. |
| `ConfigCommands.AbbreviateBounds` | src/commands/config.js:49 | The `set` echo shows at most the value's first 20 characters, then `...`. A value of 20 characters or fewer is shown whole. |
| `ConfigCommands.Set` | src/commands/config.js:46-54 | Stores the full value under the key and echoes `✓ Set k = ` with the abbreviated value. |
| `ConfigCommands.Delete` | src/commands/config.js:76-84 | Removes just the key from the store and echoes `✓ Deleted k`. |
| `ConfigCommands.Clear` | src/commands/config.js:89-97 | Resets the store to its defaults and echoes `✓ Configuration cleared`. |
| `AuthCommands.Init` | src/commands/auth.js:28-36 | POST `/auth/init`. The body holds `client_id` and `client_secret` when both resolved credentials are non-empty, and is empty otherwise. |
| `AuthCommands.Jwt` | src/commands/auth.js:57-72 | Fails before any request exactly when either resolved credential is empty or unset. Otherwise it is POST `/auth/jwt` whose body always holds `client_id`, `client_secret` and `expire`. `expire` is true exactly when the option, which defaults to `'true'`, equals `'true'`. `id_user` is added only for a given, non-empty `--user-id` and `scope` only for a given, non-empty `--scope`. |
| `AuthCommands.Revoke` | src/commands/auth.js:88 | DELETE `/auth/token` with no query and no body. |
| `TransactionCommands.List` | src/commands/transactions.js:26-46 | GET on `/users/me/accounts/{account}/transactions` when `--account` is given and non-empty, else on `/users/me/transactions`. `limit` and `offset` are always sent (defaults `'100'`, `'0'`). `min_date`, `max_date` and `expand` are present exactly when given and non-empty, and no other key is sent. |
| `TransactionCommands.Get` | src/commands/transactions.js:64-69 | GET `/users/me/transactions/{id}`, with `expand` only when given and non-empty. |
| `TransactionCommands.Update` | src/commands/transactions.js:88-92 | PUT `/users/me/transactions/{id}`. `comment` is sent whenever the flag is present, even if empty. `id_category` is sent only for a non-empty `--category`. |
| `TransactionCommands.Delete` | src/commands/transactions.js:108 | DELETE `/users/me/transactions/{id}`. |
| `TransferCommands.List` | src/commands/transfers.js:24-35 | GET `/users/me/transfers` with exactly `limit` and `offset` (defaults `'50'`, `'0'`). |
| `TransferCommands.Get` | src/commands/transfers.js:52 | GET `/users/me/transfers/{id}` with no query. |
| `TransferCommands.Create` | src/commands/transfers.js:74-84 | POST `/users/me/accounts/{account}/recipients/{recipient}/transfers`. `amount` and `label` are always in the body, and `exec_date` exactly when `--exec-date` is given and non-empty. |
| `TransferCommands.Execute` | src/commands/transfers.js:102-105 | PUT `/users/me/transfers/{id}` with `validated: true` always and `password` only when given and non-empty. |
| `TransferCommands.Cancel` | src/commands/transfers.js:121 | DELETE `/users/me/transfers/{id}`. |
| `AccountCommands.List` | src/commands/accounts.js:28-33 | GET `/users/me/accounts`, with `expand` present exactly when given and non-empty. |
| `AccountCommands.Get` | src/commands/accounts.js:51-56 | GET `/users/me/accounts/{id}`, with `expand` present exactly when given and non-empty. |
| `AccountCommands.Update` | src/commands/accounts.js:75-79 | PUT `/users/me/accounts/{id}`. `name` is sent exactly when non-empty. `disabled` is sent whenever the flag is present: true exactly for the string `'true'`, false for any other string. |
| `AccountCommands.Delete` | src/commands/accounts.js:95 | DELETE `/users/me/accounts/{id}`. |
| `BankCommands.List` | src/commands/banks.js:23-39 | GET `/banks`. `limit` and `offset` are always sent (defaults `'50'`, `'0'`). `expand` defaults to `'fields'` and is sent unless it is empty. |
| `BankCommands.Get` | src/commands/banks.js:52-62 | GET `/banks/{id}`. `expand` defaults to `'fields'` and is sent unless it is empty. |
| `BankCommands.Search` | src/commands/banks.js:75-85 | GET `/banks` with exactly `search` and `limit` (default `'20'`), and no offset. |
| `ConnectionCommands.List` | src/commands/connections.js:24-34 | GET `/users/me/connections`. `expand` defaults to `'accounts'` and is sent unless it is empty. |
| `ConnectionCommands.Get` | src/commands/connections.js:52-57 | GET `/users/me/connections/{id}`, with `expand` only when given and non-empty. |
| `ConnectionCommands.Create` | src/commands/connections.js:75-76 | Fails with an input error exactly when the file cannot be read or parsed. Otherwise it POSTs the parsed document, unchanged, to `/users/me/connections`. |
| `ConnectionCommands.Update` | src/commands/connections.js:94-95 | Same as `Create`, but it POSTs (not PUTs) to `/users/me/connections/{id}`. |
| `ConnectionCommands.Delete` | src/commands/connections.js:111 | DELETE `/users/me/connections/{id}`. |
| `ConnectionCommands.Sync` | src/commands/connections.js:126-128 | PUT `/users/me/connections/{id}` with an empty body. The output format is always `json`. |
| `UserCommands.Me` | src/commands/users.js:28-33 | GET `/users/me`, with `expand` present exactly when given and non-empty. |
| `UserCommands.List` | src/commands/users.js:46-57 | GET `/users` with exactly `limit` and `offset` (defaults `'50'`, `'0'`). |
| `UserCommands.Delete` | src/commands/users.js:73 | DELETE `/users/me` with no query and no body. |
| `Routes.Path` | src/commands/transactions.js:42-44 | Every endpoint a command writes is an absolute path: it starts with `/` and names at least one segment. |
| `Routes.PathTemplates` | src/commands/transfers.js:82 | Each route's path is the literal template the commands write, such as `/users/me/accounts/${account}/recipients/${recipient}/transfers`, `/users/me/transactions/${id}` or `/banks`, with the ids interpolated as they are. |
| `Routes.ParsePath` | src/commands/transactions.js:42-44 | When no id contains `/`, reading a written path back gives the route it was written from. |
| `Routes.PathInjective` | src/commands/transactions.js:42-44 | Two routes whose ids contain no `/` never share a path. For example, the account-scoped and the global transaction lists are always distinct endpoints. |
| `Routes.UnescapedIdCollides` | src/commands/accounts.js:56 | Ids are interpolated without escaping. `accounts get '7/transactions'` therefore addresses the same path as the transaction list of account `7`. |

## Left out

- The HTTP helper module (`src/lib/api.js`) is not part of this model. Not modelled: sending requests, query-string serialisation, response and error parsing, `formatOutput`, and the API and network error kinds. `get`, `post`, `put` and `del` are modelled only as constructors of a `Request` value.
- The `--format` option of each command is passed to `formatOutput` unchanged and is not modelled. The one exception is `connections sync`'s fixed `'json'`.
- Terminal I/O is not modelled: spinners, colours, console output, `process.exit`, the messages that depend on the response, and the CLI framework's registration in `bin/biapi.js`.
- `parseInt` and `parseFloat` are left uninterpreted: `ParsedInt(t)` and `ParsedFloat(t)` stand for the call on the option text. Their NaN and partial-parse behaviour is not modelled.
- Reading and parsing the `--file` argument of `connections create/update` is not modelled. Its outcome is an input: a parsed document or the error text.
- The store's file location, the `.env` loading, and the storage library's writes to disk are not modelled. The persisted contents are an input of `ConfigStore.Open`, and the environment is an explicit map.
- The storage library treats a key containing `.` as a path into nested objects. The model treats every key as a flat string key, so the nested results of `config set a.b v` are not modelled.
- Store values are strings only, which is all that `config set` writes.
- `ConfigCommands.Get` treats a key as found only when it is stored. Object properties inherited in JavaScript, such as `constructor`, are not modelled.
- ConfigCommands.Mask, ConfigCommands.Abbreviate: `substring` counts UTF-16 code units, while these cut after whole Dafny characters (Unicode scalar values). The two differ only for secrets or values with characters outside the Basic Multilingual Plane, where the source may split a surrogate pair. The token length check does count code units (`Base.Utf16Length`).
- `transfers get` calls `get` without params. The model gives it the same empty query as `{}`.
