# FusionSolarPy client core, modelled in Dafny

This project models the core of FusionSolarPy, a Python client for the Huawei FusionSolar
portal, and proves properties of the model. The core is the class `FusionSolarClient` in
`src/fusion_solar_py/client.py` and the password framing in
`src/fusion_solar_py/encryption.py`. It covers:

- the `_login` handshake:
  - the credentials POST to the login subdomain (a `region…` subdomain loses its first eight characters);
  - the company request, which stores `_company_id`;
  - the session request, which stores the `roarand` CSRF header.
- the `logged_in` decorator. On a `JSONDecodeError` or an `HTTPError` it logs in once and runs the call once more.
- the decorated data calls, including the two that nest another decorated call:
  - `get_plant_ids` calls `get_station_list`;
  - `active_power_control` calls `get_device_ids`.
- the post-processing of replies:
  - `get_last_plant_data` and `_get_last_value`;
  - the device-id dictionary of `get_device_ids`;
  - the plant-id projection of `get_plant_ids`;
  - the power-setting table;
  - the uniform "success false or data missing" checks.
- `encrypt_password`:
  - key-data validation;
  - the pass-through when encryption is disabled;
  - percent-encoding;
  - chunking into 270 characters, with `len // 270 + 1` chunks;
  - the "00000001" separator;
  - the version suffix.
- `to_base64_str`.

Files:

| file | module | contents |
|---|---|---|
| wrappers.dfy | Wrappers | `Option`, `Result` |
| values.dfy | Values | JSON values, the exceptions, and the Python operations applied to them (truthiness, `d[k]`, `in`, `xs[i]`, `float()`, `strip`, `startswith`) |
| session.dfy | Session | the scripted transport and `_login` as a function of the session state |
| telemetry.dfy | Telemetry | the pure handling of replies |
| client.dfy | Client | the class `FusionSolarClient` with its methods, the `logged_in` wrapper and the loops of the data functions |
| encoding.dfy | Encoding | UTF-8, `urllib.parse.quote` and base64, each with its decoder and round-trip lemma |
| encryption.dfy | Encryption | `encrypt_password`, its loop, and the decryption round trip |

The network is a script:
- The client holds `inbox`, the responses the server will give, in order.
- Every request takes the next response and is appended to `sent` as (method, subdomain, path, body, headers).
- With no response left, the transport raises `ConnectionError`. The decorator does not retry it.

Every operation that changes state is a method of the class. Each is proved equal to a function of the state it starts from: `LoginSpec`, `InvokeSpec` and `AttemptSpec`. The properties are lemmas about those functions.

`float()` of a string is an opaque partial function `parse`. PEM key loading (`loadKey`), RSA-OAEP encryption (`encrypt`) and decryption (`decrypt`) are opaque parameters as well. For a JSON value that is not a string, Python's `str()` is the opaque `render`.

`_login` is not atomic. It stores `_company_id` before it requests the CSRF token, so a failing third request leaves the new company id next to the old `roarand` header (`Session.LoginCsrfFailureKeepsCompanyId`). `client.py` has a single login flow, and that flow is what the model covers.

## Model

| member | source | states |
|---|---|---|
| Session.LoginSubdomain | src/fusion_solar_py/client.py:100-104 | A subdomain starting with "region" loses exactly its first 8 characters (all of it when shorter); any other subdomain is kept |
| Session.DefaultSubdomainLogsInAtEu5 | src/fusion_solar_py/client.py:60-62 | The default subdomain "region01eu5" logs in at "eu5"; "intl" stays "intl" |
| Session.Exchange | src/fusion_solar_py/client.py:118 | A request is logged with the current headers and consumes the next response; with none left it is a ConnectionError; company id and headers are untouched |
| Session.RaiseForStatus | src/fusion_solar_py/client.py:119 | `raise_for_status` fails exactly on statuses 400-599, with HTTPError carrying the status |
| Session.ParseJson | src/fusion_solar_py/client.py:122 | `r.json()` fails with JSONDecodeError exactly when the body is not JSON |
| Session.Fetch | src/fusion_solar_py/client.py:118-119 | A request plus `raise_for_status`: one request logged; success exactly when a response was there and its status is not an error |
| Session.CheckLoginReply | src/fusion_solar_py/client.py:121-126 | The reply passes exactly when it is a JSON object whose errorCode is present and falsy; a truthy errorCode raises AuthenticationException with "Failed to login into FusionSolarAPI: " followed by the server's errorMsg verbatim |
| Session.CompanyIdOf | src/fusion_solar_py/client.py:135-149 | A stripped body not starting with `{"data":` raises the wrong-subdomain AuthenticationException; an object without "data" raises "Failed to login into FusionSolarAPI."; success exactly when data.moDn exists, and then the id is data.moDn |
| Session.CompanyIdIn | src/fusion_solar_py/client.py:143-149 | A decoded reply without "data" raises "Failed to login into FusionSolarAPI."; the id exists exactly when data.moDn does, and is it |
| Session.CsrfTokenOf | src/fusion_solar_py/client.py:152-158 | The token is the reply's csrfToken, and exists exactly when the reply is an object holding it |
| Session.ValidateUser | src/fusion_solar_py/client.py:106-126 | The first login step leaves the state its one credentials POST to the login subdomain leaves |
| Session.StoreCompanyId | src/fusion_solar_py/client.py:128-149 | The second step sends one GET to company/current, keeps the headers, and changes the company id only on success |
| Session.StoreCsrfToken | src/fusion_solar_py/client.py:151-158 | The third step sends one GET to auth/session, keeps the company id, and changes the headers only on success |
| Session.LoginSpec | src/fusion_solar_py/client.py:94-158 | `_login`: the credentials step, the company step and the CSRF step in order, the first failure ending it with what earlier steps stored kept (its properties: the Login* lemmas below) |
| Session.LoginRequests | src/fusion_solar_py/client.py:94-158 | A login appends 1 to 3 requests; the first is the credentials POST with the old headers; the others go to company/current or auth/session |
| Session.LoginHits | src/fusion_solar_py/client.py:94-158 | A login posts the credentials exactly once and sends nothing to any data endpoint |
| Session.CredentialsPostedOnce | src/fusion_solar_py/client.py:106-158 | A trace that starts with the credentials POST and is followed only by company and session requests posts the credentials exactly once |
| Session.LoginSessionEffects | src/fusion_solar_py/client.py:149-158 | A failed login never changes the headers; the company id changes only after all three requests went out |
| Session.LoginTrace | src/fusion_solar_py/client.py:94-158 | A login keeps the old log as a prefix, appends 1 to 3 requests of which exactly one is the credentials POST (first), changes headers only on success, and the company id only after the third request |
| Session.LoginSucceedsIff | src/fusion_solar_py/client.py:118-158 | Login succeeds exactly when the three replies pass raise_for_status and their checks; it then consumes three responses, stores data.moDn as company id and sets "roarand" to the csrfToken |
| Session.LoginHttpError | src/fusion_solar_py/client.py:118-153 | A 4xx/5xx reply to the first, second or third login request (the earlier ones having passed) ends the login with HTTPError carrying that status |
| Session.LoginRejectedKeepsSession | src/fusion_solar_py/client.py:118-126 | A rejected credentials reply ends the login after one request with that reply's exception; company id and headers are unchanged |
| Session.LoginWrongSubdomainKeepsSession | src/fusion_solar_py/client.py:129-147 | A refused company reply ends the login after two requests with its exception; company id and headers are unchanged |
| Session.LoginCsrfFailureKeepsCompanyId | src/fusion_solar_py/client.py:149-158 | A failing session request leaves the new company id stored and the headers unchanged |
| Client.CallSpec | src/fusion_solar_py/client.py:160-184 | A single-request call (get_power_status and the others) appends exactly its one request, with the current headers, and changes neither company id nor headers |
| Client.Query | src/fusion_solar_py/client.py:236-241 | Only get_device_ids sends a session-dependent parameter, conditionParams.parentDn, and it is the stored company id |
| Client.Reply | src/fusion_solar_py/client.py:160-446 | What each single-request call makes of its decoded reply (power status, station list, device dict, flow, stats), by the Telemetry functions |
| Client.AttemptSpec | src/fusion_solar_py/client.py:160-446 | The undecorated body of each data call: get_plant_ids and active_power_control by their own specs, the others by their single request |
| Client.PlantIdsSpec | src/fusion_solar_py/client.py:186-199 | get_plant_ids: the decorated station-list call, then the dn of every station, each failure raised as it comes |
| Client.PowerControlSpec | src/fusion_solar_py/client.py:252-276 | active_power_control: unknown setting refused before any request, then the decorated device-list call, the Dongle lookup and one POST of the setting's code |
| Client.LoggedIn | src/fusion_solar_py/client.py:38-53 | `logged_in` after the body ran: return a result that is not a JSONDecodeError/HTTPError; otherwise log in once and return its exception, or run the body again |
| Client.InvokeSpec | src/fusion_solar_py/client.py:38-53 | A decorated call: the body, then LoggedIn's decision, a second run being returned whatever it does |
| Client.CallInvokeSpec | src/fusion_solar_py/client.py:38-53 | A decorated single-request call as a nesting call sees it (equal to InvokeSpec by CallInvokeIsInvoke) |
| Client.FlatAttempt | src/fusion_solar_py/client.py:160-184 | A call that nests no decorated call is its single request |
| Client.CallInvokeIsInvoke | src/fusion_solar_py/client.py:38-53 | The decorated inner call seen from a nesting call is the decorated call itself |
| Client.NotRetriedRequests | src/fusion_solar_py/client.py:44-51 | A result that is not a JSONDecodeError or HTTPError is returned unchanged after exactly one request and no login |
| Client.LoginFailedRequests | src/fusion_solar_py/client.py:44-51 | When the re-login fails, its exception is what the caller gets; the endpoint was requested once and the credentials posted once |
| Client.CallRetried | src/fusion_solar_py/client.py:44-51 | After a successful re-login, the result is the second run from the state the login left |
| Client.RetriedRequests | src/fusion_solar_py/client.py:44-51 | After a successful re-login the endpoint was requested exactly twice and the credentials posted exactly once |
| Client.FlatInvokeRequests | src/fusion_solar_py/client.py:38-53 | Around a single-request call: one login exactly when the first run raised JSONDecodeError/HTTPError, two endpoint requests exactly when that login succeeded, otherwise one |
| Client.RetriesOnce | src/fusion_solar_py/client.py:38-53 | `logged_in` per layer: no retryable error means the first result and no login; otherwise exactly one login, at most one retry, and a failed login's exception is propagated; the log only grows |
| Client.InvokeCases | src/fusion_solar_py/client.py:44-51 | The three outcomes of the wrapper around any call, nesting or not: a first result that is not a JSONDecodeError/HTTPError is returned with its state; a failed re-login's exception is returned with the state the login left; after a successful re-login the second run is returned as it is |
| Client.PlantIdsRequests | src/fusion_solar_py/client.py:186-199 | get_plant_ids ends in exactly the state its decorated station-list call leaves, so it issues that call's requests and nothing else, with at most one login among them |
| Client.PowerControlShape | src/fusion_solar_py/client.py:252-276 | active_power_control ends where its device-list call ended, plus one POST to set-config-signals with the dongle and the setting's code when the dongle was found |
| Client.PowerControlRequests | src/fusion_solar_py/client.py:252-276 | active_power_control's body posts the credentials at most once (inside its device-list call) |
| Client.AttemptLogins | src/fusion_solar_py/client.py:160-276 | An undecorated body logs in at most Depth(op) times: never for a single-request call, at most once for a nesting one |
| Client.InvokeLogins | src/fusion_solar_py/client.py:186-276 | A decorated call posts the credentials at most 2*Depth(op)+1 times: once for a plain call, three times for get_plant_ids and active_power_control |
| Client.UnknownSettingSendsNothing | src/fusion_solar_py/client.py:258-265 | An unknown power setting raises ValueError("Unknown power setting") before any request, and is not retried |
| Client.DeviceListUsesCompanyId | src/fusion_solar_py/client.py:236-245 | get_device_ids' first request carries the company id the session holds as conditionParams.parentDn |
| Client.RetriedDeviceListUsesNewCompanyId | src/fusion_solar_py/client.py:44-51 | After a successful re-login, the repeated device-list request carries the company id that login read from its company/current reply |
| Client.EndpointIsDataPath | src/fusion_solar_py/client.py:167-443 | No data endpoint is one of the login's three paths |
| Client.FusionSolarClient.constructor | src/fusion_solar_py/client.py:74-79 | A new client has no company id, none of the headers the client sets (requests' own default headers are not part of the state) and has sent nothing |
| Client.FusionSolarClient.Create | src/fusion_solar_py/client.py:60-82 | Construction logs in at once: the outcome and state are those of one login from the initial state |
| Client.FusionSolarClient.Send | src/fusion_solar_py/client.py:118 | The transport method changes the state exactly as Exchange describes |
| Client.FusionSolarClient.Fetch | src/fusion_solar_py/client.py:118-119 | Request plus raise_for_status changes the state exactly as Session.Fetch describes |
| Client.FusionSolarClient.Login | src/fusion_solar_py/client.py:94-158 | `_login` changes the state exactly as LoginSpec describes |
| Client.FusionSolarClient.ValidateUser | src/fusion_solar_py/client.py:106-126 | The credentials step changes the state exactly as Session.ValidateUser describes |
| Client.FusionSolarClient.StoreCompanyId | src/fusion_solar_py/client.py:128-149 | The company step changes the state exactly as Session.StoreCompanyId describes |
| Client.FusionSolarClient.StoreCsrfToken | src/fusion_solar_py/client.py:151-158 | The CSRF step changes the state exactly as Session.StoreCsrfToken describes |
| Client.FusionSolarClient.Invoke | src/fusion_solar_py/client.py:38-53 | The `logged_in` wrapper changes the state exactly as InvokeSpec describes |
| Client.FusionSolarClient.Attempt | src/fusion_solar_py/client.py:160-446 | Each undecorated data call changes the state exactly as AttemptSpec describes |
| Client.GetLastValue | src/fusion_solar_py/client.py:384-405 | The loop of `_get_last_value` returns exactly LastValueOf: the first raising entry's exception, else the last record found, else (now, None) |
| Client.GetLastPlantData | src/fusion_solar_py/client.py:339-382 | Raises "Invalid plant_data object passed." exactly when "xAxis" is absent; otherwise the keys are the input keys minus xAxis, stationTimezone, clientTimezone, stationDn, and each value is its FieldValue classification |
| Client.BuildDeviceKey | src/fusion_solar_py/client.py:247-250 | The loop of get_device_ids yields exactly DeviceKeys of the devices |
| Telemetry.Reading | src/fusion_solar_py/client.py:398 | A record exists exactly when measurement_times[i] exists and the value converts with float(); it is {time, float(value)} |
| Telemetry.Found | src/fusion_solar_py/client.py:394-398 | The records the loop of `_get_last_value` collects from the first n entries, or the first exception |
| Telemetry.FoundFirstFailure | src/fusion_solar_py/client.py:396-398 | Once the loop has raised, later entries do not change the outcome |
| Telemetry.FoundOkIff | src/fusion_solar_py/client.py:396-398 | The loop completes exactly when every non-"--" entry has a record |
| Telemetry.FoundNothing | src/fusion_solar_py/client.py:396-398 | Entries that are all "--" give no records |
| Telemetry.FoundEndsWith | src/fusion_solar_py/client.py:396-398 | The last record found belongs to the last non-"--" entry |
| Telemetry.LastValueIsLastValidEntry | src/fusion_solar_py/client.py:394-402 | `_get_last_value` returns {time: measurement_times[i], value: float(values[i])} for the largest i whose entry is not "--" |
| Telemetry.LastValueOfAllMissing | src/fusion_solar_py/client.py:400-405 | With every entry "--" the result is the current time with value None |
| Telemetry.LastValueOfFailsIff | src/fusion_solar_py/client.py:396-398 | `_get_last_value` raises exactly when some non-"--" entry at any index has no time or no float value |
| Telemetry.LastValueOf | src/fusion_solar_py/client.py:384-405 | `_get_last_value`: the last record found, else (now, None), else the loop's exception |
| Telemetry.FieldValue | src/fusion_solar_py/client.py:360-380 | One key of get_last_plant_data: a list gives its last value, "--" None, an "exist" key its truthiness, anything else its float(), and anything raising None |
| Telemetry.PlantIdsOf | src/fusion_solar_py/client.py:197 | The ids are the stations' "dn" fields in order, one per station; it fails exactly when some station has no "dn", with that station's error |
| Telemetry.DeviceEntry | src/fusion_solar_py/client.py:249 | A device gives (mocTypeName, dn) exactly when both keys exist and the name is hashable |
| Telemetry.DeviceKeys | src/fusion_solar_py/client.py:247-250 | The dict the loop of get_device_ids builds, later devices overwriting earlier names, or the first exception |
| Telemetry.DeviceKeysOkIff | src/fusion_solar_py/client.py:247-250 | The device dict is built exactly when every device gives an entry |
| Telemetry.DeviceKeysFirstFailure | src/fusion_solar_py/client.py:247-250 | The first failing device decides the exception |
| Telemetry.DeviceKeysNames | src/fusion_solar_py/client.py:247-250 | The dict's keys are exactly the mocTypeNames of the devices |
| Telemetry.DeviceKeysLastWins | src/fusion_solar_py/client.py:247-250 | For a repeated mocTypeName the dict keeps the dn of the last such device |
| Telemetry.Decimal | src/fusion_solar_py/client.py:272 | The f-string rendering of a setting code: decimal digits only, no leading zero, denoting the code |
| Telemetry.SettingCodesRender | src/fusion_solar_py/client.py:258-272 | The setting codes 0, 5, 6, 7 render as single digits, and the changeValues field for "Zero Export Limitation" carries "5" |
| Telemetry.PowerSettingTable | src/fusion_solar_py/client.py:258-263 | Exactly four settings, mapped to 0, 5, 6, 7, with no two settings sharing a code |
| Telemetry.PowerStatusOf | src/fusion_solar_py/client.py:176-184 | The power status exists exactly when the reply's data is an object holding currentPower, dailyEnergy and cumulativeEnergy, and is those three values |
| Telemetry.StationListOf | src/fusion_solar_py/client.py:224-230 | A falsy "success" raises "Failed to retrieve station list"; success exactly when success is truthy and data.list exists, which is returned |
| Telemetry.CheckedPayload | src/fusion_solar_py/client.py:295-296 | A falsy success or a missing "data" raises FusionSolarException with the call's message; the reply passes exactly when success is truthy and data present |
| Telemetry.PlantFlowOf | src/fusion_solar_py/client.py:295-298 | get_plant_flow returns the whole reply once it passed the success/data check |
| Telemetry.StatsOf | src/fusion_solar_py/client.py:331-337 | get_plant_stats and get_optimizer_stats return the reply's data once it passed the check |
| Telemetry.DeviceRecordsOf | src/fusion_solar_py/client.py:246-248 | The devices get_device_ids loops over: the reply's data, iterated |
| Values.LStrip | src/fusion_solar_py/client.py:138 | Removes exactly the leading whitespace: the result is a suffix, starts with no whitespace, and everything removed was whitespace |
| Values.RStrip | src/fusion_solar_py/client.py:138 | Removes exactly the trailing whitespace |
| Values.Strip | src/fusion_solar_py/client.py:138 | str.strip(): both ends' whitespace removed |
| Values.Truthy | src/fusion_solar_py/client.py:226 | Python's bool() of a JSON value: null, false, 0, "", [] and {} are false |
| Values.Contains | src/fusion_solar_py/client.py:143 | `"data" in v`: a key of an object, an item of a list, a substring of a string, otherwise TypeError |
| Values.Lookup | src/fusion_solar_py/client.py:122 | `v[key]` succeeds exactly on an object holding the key, giving its value; a missing key is a KeyError |
| Values.At | src/fusion_solar_py/client.py:398 | `measurement_times[i]` on a list succeeds exactly for an index in range |
| Values.ToFloat | src/fusion_solar_py/client.py:376 | float() of a number is the number, of True/False 1.0/0.0, of a string the parsed value exactly when it parses and otherwise a ValueError, of null, a list or an object a TypeError |
| Values.Records | src/fusion_solar_py/client.py:248 | Iterating a list visits its items; anything else visits nothing or fails |
| Encoding.Utf8 | src/fusion_solar_py/encryption.py:69 | A character encodes to 1 to 4 bytes, and to its own code exactly when it is ASCII |
| Encoding.Utf8Of | src/fusion_solar_py/encryption.py:54 | `str.encode()`: at least one byte per character, exactly the character codes for ASCII text |
| Encoding.Utf8Decode | src/fusion_solar_py/encryption.py:69 | `bytes.decode()`: each sequence its lead byte announces, with continuation bytes and a scalar value, back to a character |
| Encoding.Utf8RoundTrip | src/fusion_solar_py/encryption.py:54-69 | Decoding a string's UTF-8 encoding gives the string back |
| Encoding.Utf8Injective | src/fusion_solar_py/encryption.py:54-69 | Distinct strings have distinct UTF-8 encodings |
| Encoding.QuoteByte | src/fusion_solar_py/encryption.py:64 | A byte quotes to 1 ASCII character exactly when it is safe, otherwise to 3 |
| Encoding.QuoteBytes | src/fusion_solar_py/encryption.py:64 | Quoted text is ASCII and between 1 and 3 characters per byte |
| Encoding.Quote | src/fusion_solar_py/encryption.py:64 | `urllib.parse.quote(password)`: the percent-encoding of the UTF-8 bytes, "/" kept |
| Encoding.UnquoteQuoteBytes | src/fusion_solar_py/encryption.py:64 | Unquoting undoes quoting |
| Encoding.QuoteRoundTrip | src/fusion_solar_py/encryption.py:64 | `quote(password)` is ASCII, no shorter than the password, and unquotes to the password's UTF-8 bytes |
| Encoding.Base64 | src/fusion_solar_py/encryption.py:89-98 | The base64 text has 4*ceil(n/3) characters |
| Encoding.Base64RoundTrip | src/fusion_solar_py/encryption.py:89-98 | Base64 decoding gives back the encoded bytes |
| Encryption.Slice | src/fusion_solar_py/encryption.py:68 | Python's clamped slice is no longer than hi - lo and is the plain slice when hi is in range |
| Encryption.Chunk | src/fusion_solar_py/encryption.py:67-68 | The i-th chunk `value_encode[i * 270:(i + 1) * 270]` |
| Encryption.Chunks | src/fusion_solar_py/encryption.py:66-68 | The chunks the loop visits, `len // 270 + 1` of them (shape proved by ChunksShape) |
| Encryption.ChunksShape | src/fusion_solar_py/encryption.py:67-68 | len//270+1 chunks, each at most 270 characters, all but the last exactly 270, the last holding len%270 and empty exactly when len is a multiple of 270 |
| Encryption.EmptyEncodingIsOneEmptyChunk | src/fusion_solar_py/encryption.py:67-68 | An empty encoding still gives one (empty) chunk |
| Encryption.ConcatChunksPrefix | src/fusion_solar_py/encryption.py:67-68 | The first k chunks concatenate to the first min(270k, len) characters |
| Encryption.ChunksConcat | src/fusion_solar_py/encryption.py:67-68 | The chunks concatenate back to the encoded password |
| Encryption.ChunkBytes | src/fusion_solar_py/encryption.py:64-69 | Each chunk of the quoted password encodes to its own character codes, at most 270 bytes |
| Encryption.Joined | src/fusion_solar_py/encryption.py:78-81 | The loop's accumulation: each text appended, after "00000001" unless nothing was accumulated |
| Encryption.JoinWith | src/fusion_solar_py/encryption.py:78-81 | `"00000001".join(parts)`, the reference the accumulation is compared with |
| Encryption.JoinedIsJoin | src/fusion_solar_py/encryption.py:78-81 | The loop's conditional-separator accumulation equals "00000001".join of the parts after the leading empty ones |
| Encryption.JoinedNonEmptyParts | src/fusion_solar_py/encryption.py:78-81 | With no empty part, the accumulation is exactly "00000001".join(parts) |
| Encryption.SplitJoin | src/fusion_solar_py/encryption.py:78-81 | Parts of one common length are recovered from their join, whatever they contain |
| Encryption.Ciphers | src/fusion_solar_py/encryption.py:67-76 | All chunks encrypt or there is no result: the ciphertexts exist exactly when every chunk's encryption succeeds, and are those, in chunk order |
| Encryption.CiphersSnoc | src/fusion_solar_py/encryption.py:67-76 | Encrypting one more chunk appends its ciphertext |
| Encryption.JoinedSnoc | src/fusion_solar_py/encryption.py:78-81 | One more text is appended after the separator exactly when something was accumulated |
| Encryption.EncryptChunks | src/fusion_solar_py/encryption.py:62-81 | The loop returns the accumulated texts exactly when every chunk encrypts, and nothing otherwise |
| Encryption.EncryptPassword | src/fusion_solar_py/encryption.py:29-87 | `encrypt_password` returns exactly EncryptPasswordSpec |
| Encryption.EncryptPasswordSpec | src/fusion_solar_py/encryption.py:29-87 | `encrypt_password`: key-data check, pass-through when disabled, key load, chunk encryption and join plus version, with each failure's message |
| Encryption.PublicKey | src/fusion_solar_py/encryption.py:52-60 | The key loaded from pubKey's UTF-8 bytes; a pubKey that is not a string fails like a failed load |
| Encryption.MissingKeyDataRefused | src/fusion_solar_py/encryption.py:40-44 | A key_data missing enableEncrypt, pubKey or version raises "Invalid 'key_data' parameter passed." |
| Encryption.DisabledEncryptionPassesThrough | src/fusion_solar_py/encryption.py:47-49 | A falsy enableEncrypt returns the password unchanged |
| Encryption.EnabledEncryptionOutcome | src/fusion_solar_py/encryption.py:51-87 | A key that does not load raises "Failed to load public key for encryption."; otherwise success exactly when every chunk encrypts and the version is a string, and any failure is "Failed to encrypt password." |
| Encryption.EncryptedPasswordLayout | src/fusion_solar_py/encryption.py:62-83 | The result is "00000001".join of the chunks' base64 ciphertexts, after any leading empty ones, followed by the version, with one text per chunk |
| Encryption.EncryptedPasswordIsJoin | src/fusion_solar_py/encryption.py:78-83 | With non-empty ciphertexts the result is exactly "00000001".join of the base64 ciphertexts plus the version |
| Encryption.EmptyPasswordEncryptsOneChunk | src/fusion_solar_py/encryption.py:64-83 | An empty password gives exactly one ciphertext (of the empty chunk) followed by the version |
| Encryption.ToBase64Str | src/fusion_solar_py/encryption.py:89-98 | `to_base64_str` has length 4*ceil(n/3), is empty only for no bytes, and decodes back |
| Encryption.Utf8Append | src/fusion_solar_py/encryption.py:69 | The UTF-8 encoding of a concatenation is the concatenation of the encodings |
| Encryption.PlaintextConcat | src/fusion_solar_py/encryption.py:67-81 | Opening texts that each open to a chunk's bytes gives the bytes of the concatenated chunks |
| Encryption.DecryptJoined | src/fusion_solar_py/encryption.py:78-83 | Decrypting a join of equally long texts gives the password read from the concatenation of their plaintexts |
| Encryption.QuotedChunksDecode | src/fusion_solar_py/encryption.py:64-68 | The quoted password's chunks, put together and percent-decoded, give the password's UTF-8 bytes |
| Encryption.PlainPassword | src/fusion_solar_py/encryption.py:64-69 | A plaintext read back as the password: percent-decoded, then UTF-8 decoded |
| Encryption.DecryptPassword | src/fusion_solar_py/encryption.py:78-83 | The key holder's inverse: drop the version, split into texts of the known length, open each, read the password |
| Encryption.TextsOpen | src/fusion_solar_py/encryption.py:69-81 | Ciphertexts of a fixed length have base64 texts of one length, and each opens to its chunk's bytes |
| Encryption.EncryptedPasswordDecrypts | src/fusion_solar_py/encryption.py:29-98 | With fixed-length ciphertexts and a decryption inverting the encryption, decrypting the result gives the original password back, across any number of chunks |

## Left out

- HTTP details are not modelled, because the network is not: URLs beyond subdomain and path, cookies, `log_out`, requests' default session headers, and the query parameters that do not depend on the session (the `time.time()` cache busters, `decision`, `service`, `conditionParams.mocTypes`). A request's `body` holds the credentials of the login POST, the control form of `active_power_control`, and the one session-dependent query parameter, `conditionParams.parentDn` of `get_device_ids`. The station-list POST's JSON body is not modelled and is empty in the model.
- A company id of JSON null stands for Python's None, which requests drops from the query string; the model keeps it in the map.
- The `UnicodeDecodeError` that `r.content.decode()` raises on a company/current body that is not valid UTF-8 (client.py line 136) is not modelled: a response carries its body already decoded.
- The `InvalidHeader` that requests raises on every later request once a `csrfToken` that is not a string has been stored as the `roarand` header (client.py line 158) is not modelled: the model stores any JSON value and sends it.
- Clock-dependent values are left out, because they read the wall clock. `_get_day_start_sec` is omitted, the optional `query_time` of `get_plant_stats` is not modelled, and `datetime.now()` in `_get_last_value` is the parameter `now`.
- Floating point is not modelled. `float()` of a string is the opaque partial function `parse`, JSON numbers are reals, and the `PowerStatus` fields stay as the JSON values the server sent.
- Python's `str()` of a non-string errorMsg is the opaque `render`.
- PEM loading and RSA-OAEP/SHA-384 are the opaque parameters `loadKey` and `encrypt`, since they are foreign calls. The round trip takes the decryption as a parameter `decrypt` that inverts `encrypt`.
- `get_secure_random` is not modelled, because it reads OS randomness.
- The CAPTCHA solvers (captcha_solver.py, captcha_solver_onnx.py) are not part of this model. They are model inference over images, and `client.py` does not call them.
- src/fusion_solar_py/interfaces.py is not part of this model, because it holds no logic. The exception classes are the `Error` datatype.
- Dict iteration order is not modelled.
  - `get_last_plant_data` visits the keys in an arbitrary order. Its result does not depend on the order.
  - The device dict's "last device wins" is proved in list order.
- Python's equality of `1`, `1.0` and `True` as dict keys is not modelled. JSON values are compared structurally.
- A Python `str` holding a lone surrogate cannot be represented, because Dafny characters are Unicode scalar values. So the UnicodeEncodeError that `quote` would raise for it is not modelled.
- Client.InvokeLogins: the bound is stated for one level of nesting, which is all the source has (`get_plant_ids` over `get_station_list`, `active_power_control` over `get_device_ids`). It is not a single re-login per external call: a nesting call can post the credentials up to three times.
- Encryption.EncryptedPasswordDecrypts: it assumes ciphertexts of one fixed non-zero length, as RSA produces. With ciphertexts of varying length the joined text cannot be cut apart by length.
