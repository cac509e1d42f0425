# Doppler client and response cache, modelled in Dafny

This project models the part of the External Secrets Doppler provider that
talks to the Doppler secrets API. It covers two pieces.

- **The API client** (`pkg/provider/doppler/client/client.go`):
  - deriving a cache key from a secrets request;
  - building the query string of the download endpoint;
  - the conditional GET of `/v3/configs/config/secrets/download`. A cached
    entry's ETag goes out as `if-none-match`; a 304 answer returns the cached
    payload; a fresh answer is stored either raw (any explicit `format`) or
    decoded from JSON;
  - looking up a single secret in that download;
  - the diff-based push. Secrets whose value has not changed are dropped, and
    a POST to `/v3/configs/config/secrets` goes out only when something is
    left;
  - the text of an `APIError`.
- **The mutex-guarded cache** (`pkg/provider/doppler/safecache/cache.go`): a
  map from key to entry (ETag, data, last-checked time) and an enabled flag.

## How the model is built

- **Files.** `wrappers.dfy` holds `Option` and `Result`. `strings.dfy` holds
  Go's `strings.Join`, with a reference splitter as its inverse.
  `safecache.dfy` holds `SafeCache`, and `client.dfy` holds `DopplerClient`.
- **Stateful parts are classes.** The client's `Cache` map and the
  SafeCache's map and flag are updated in place, so both are classes whose
  methods `modify` those fields.
- **Each client method is proved against pure functions:**
  - `GetSecrets` against `DownloadHeaders` (the headers it sends),
    `IsQueryOf` (the query it sends), and `Download` plus `Stored` (the result
    and the new cache);
  - `GetSecret` against `SecretFrom`;
  - `UpdateSecrets` against the predicate `KeepsOnlyChanged`.
- **The HTTP exchange is a value.** Every network call is replaced by a
  `Reply`. A reply is either `Failed(APIError)`, the error `performRequest`
  would have returned, or `Answered(status, etag, body)`. Since the API call
  turns every status outside 200..399 into an error (`isSuccess`), the
  client's operations take only replies satisfying `Realizable`: an answered
  reply has a success status. Each method returns
  the `HttpRequest` it would have sent: method, path, the headers it sets
  itself, the query parameters and the body.
- **JSON is a parameter.** `json.Unmarshal` and `json.Marshal` are the
  parameters `unmarshal` and `marshal`, which either succeed or fail with an
  error text.
- **SHA-1 is a constant.** The SHA-1 hex digest is the client's constant
  `sha1Hex`. The model only knows that it always yields 40 characters.

Some behaviour a reader of a caching secrets client might expect is not
what the code does, and the model follows the code:

- **No TTL.** Nothing in the cache or the client expires entries.
- **The enabled flag is never checked.** `GetSecrets` consults its cache
  whether or not any `SafeCache` is enabled.
- **Format "json" is stored raw.** Any non-empty format, "json" included,
  stores the undecoded body. "json" only suppresses the `accept: text/plain`
  header.
- **Secret names are not sorted.** They are joined in the order given before
  hashing, so the same set of names in another order gets another key.
- **The key can be ambiguous.** Its fields are joined with ':' without
  escaping, so distinct requests can share a key
  (`CacheKeyColonCollision`). The same holds for names containing '/'
  (`CacheKeyNamesCollision`).

## Model

| member | source | states |
|---|---|---|
| SafeCache.SafeCache.constructor | pkg/provider/doppler/safecache/cache.go:21-23 | NewCache: the map is empty and the cache is disabled |
| SafeCache.SafeCache.Enable | pkg/provider/doppler/safecache/cache.go:25-29 | the flag becomes true and the entries are unchanged |
| SafeCache.SafeCache.Disable | pkg/provider/doppler/safecache/cache.go:31-35 | the flag becomes false and the entries are unchanged |
| SafeCache.SafeCache.Enabled | pkg/provider/doppler/safecache/cache.go:37-41 | returns the current flag and changes nothing |
| SafeCache.SafeCache.Read | pkg/provider/doppler/safecache/cache.go:43-48 | found exactly when the key is present; the entry is the stored one, or none when absent |
| SafeCache.SafeCache.Write | pkg/provider/doppler/safecache/cache.go:50-54 | the key now maps to a new entry of the given ETag, data and time; other keys and the flag are unchanged |
| SafeCache.ReadAfterWrite | pkg/provider/doppler/safecache/cache.go:43-54 | a Read after a Write finds exactly the written entry; the flag and the other keys are unchanged |
| SafeCache.LastWriteWins | pkg/provider/doppler/safecache/cache.go:43-54 | of two Writes to one key, a later Read sees the second |
| SafeCache.ToggleKeepsEntries | pkg/provider/doppler/safecache/cache.go:25-48 | enabling and then disabling leaves every entry readable as before |
| Client.APIError.Error | pkg/provider/doppler/client/client.go:384-393 | the text is the prefix and the message, then a newline and the cause if there is one, then "\nData: " and the data if non-empty; its length is the sum of those parts |
| Client.IsSuccess | pkg/provider/doppler/client/client.go:380-382 | a status counts as success exactly when it is in 200..399; through `Realizable`, only such statuses reach Download, GetSecrets, GetSecret and UpdateSecrets |
| Client.BuildQueryParams | pkg/provider/doppler/client/client.go:268-292 | each of project, config, name_transformer and format is present exactly when non-empty, with that value; secrets is present exactly when there are names, as their comma join; no other key appears |
| Client.QueryParamsUnique | pkg/provider/doppler/client/client.go:268-292 | the query of a request is determined uniquely by it |
| Client.QuerySecretsRoundTrip | pkg/provider/doppler/client/client.go:279-281 | splitting the secrets parameter at ',' gives back the requested names when none contains a comma |
| Strings.SplitJoin | pkg/provider/doppler/client/client.go:280 | splitting a non-empty separator-free list joined with that separator gives back the list |
| Strings.FieldThenRestUnique | pkg/provider/doppler/client/client.go:127 | a separator-free field followed by the separator is recovered uniquely, together with the rest |
| Strings.JoinCollides | pkg/provider/doppler/client/client.go:124 | joining with '/' maps the one name "a/b" and the two names "a", "b" to the same string |
| Client.DopplerClient.constructor | pkg/provider/doppler/client/client.go:107-113 | NewDopplerClient: the token and cache are as given, TLS verification is on and the user agent is "doppler-external-secrets" |
| Client.DopplerClient.NamesDigest | pkg/provider/doppler/client/client.go:123-126 | the hex digest of token ':' '/'-joined names has 40 characters |
| Client.DopplerClient.CacheKey | pkg/provider/doppler/client/client.go:122-128 | the key holds at least its four separators and twelve digest characters, and ends in the first twelve characters of the names digest |
| Client.DopplerClient.CacheKeyIgnoresETag | pkg/provider/doppler/client/client.go:80-87 | the request's ETag plays no part in its key |
| Client.DopplerClient.CacheKeyInjective | pkg/provider/doppler/client/client.go:122-128 | with colon-free fields, equal keys mean equal project, config, transformer and format, and equal digest prefixes |
| Client.DopplerClient.CacheKeyColonCollision | pkg/provider/doppler/client/client.go:127 | projects "a:b" and "a" with configs "c" and "b:c" are distinct requests with the same key |
| Client.DopplerClient.CacheKeyNamesCollision | pkg/provider/doppler/client/client.go:124 | the names ["a/b"] and ["a", "b"] give the same key |
| Client.DopplerClient.UpdateCache | pkg/provider/doppler/client/client.go:130-135 | the key now maps to an entry of the given ETag and data, the other keys are unchanged, and no error is returned |
| Client.DownloadHeaders | pkg/provider/doppler/client/client.go:194-206 | if-none-match is sent exactly when an entry is cached under the key with a non-empty ETag, and carries that ETag; accept: text/plain is sent exactly for a format other than "" and "json"; nothing else is sent |
| Client.Download | pkg/provider/doppler/client/client.go:209-234 | for a reply the API call can return (an error, or an answer with a success status): a transport error is returned and nothing is stored; a 304 to a cached key returns the cached payload unchanged and stores nothing; a fresh raw-format answer is stored with its ETag and body and no decoded secrets; a fresh default-format answer is stored decoded exactly when it decodes, else "unable to unmarshal secrets payload" with the decoder's error; whatever is stored is also what is returned |
| Client.Stored | pkg/provider/doppler/client/client.go:219-234 | a download changes the cache only under its own key, and only when it stores an entry |
| Client.RawFormatNeverDecodes | pkg/provider/doppler/client/client.go:219-225 | with any explicit format, the outcome does not depend on the JSON decoder |
| Client.Revalidation | pkg/provider/doppler/client/client.go:189-217 | after a fresh download with a non-empty ETag, the next request for the key sends that ETag, and a 304 to it returns the first payload without touching the cache |
| Client.DopplerClient.GetSecrets | pkg/provider/doppler/client/client.go:193-235 | sends GET to the download path with no body, the conditional headers and the request's query; the result and the new cache are those of Download and Stored; a success leaves the result cached under the key, and a failure leaves the cache unchanged |
| Client.SecretFrom | pkg/provider/doppler/client/client.go:174-186 | success exactly when the download succeeded and holds the name, with its value; a download error is passed on; a missing name gives "secret '<name>' not found" |
| Client.DopplerClient.GetSecret | pkg/provider/doppler/client/client.go:166-187 | sends GET to the download path with no body, the conditional headers of the default format, and the project, the config and the one name as its only query parameters; the answer is SecretFrom of that download, and the cache changes as for GetSecrets |
| Client.DropUnchanged | pkg/provider/doppler/client/client.go:246-252 | keeps exactly the proposed secrets whose value differs from the current one (a missing name reads as ""), with their proposed values |
| Client.DiffUnique | pkg/provider/doppler/client/client.go:246-252 | the set of secrets left to push is unique |
| Client.NothingToPush | pkg/provider/doppler/client/client.go:246-254 | nothing is left to push exactly when every proposed value is already current |
| Client.PushReachesFixpoint | pkg/provider/doppler/client/client.go:237-266 | once the pushed values are current, pushing the same proposal again leaves nothing to push |
| Client.OnlyChangedValueIsPushed | pkg/provider/doppler/client/client.go:246-252 | of A=1, B=2 against current A=1, B=9, only B=2 remains |
| Client.DopplerClient.UpdateSecrets | pkg/provider/doppler/client/client.go:240-266 | fetches all secrets of the project and config with a bodiless GET carrying the conditional headers of the default format; a fetch error is returned with no push and the proposal untouched; otherwise only the changed secrets remain, a POST of the encoded remaining request goes out exactly when something remains and it encodes, its error is returned, an encoding failure gives "unable to unmarshal update secrets payload", and nothing remaining means no error |
| Client.ChangeRequestsAloneNeverPush | pkg/provider/doppler/client/client.go:254-264 | a request with change requests but no secrets never issues a POST |

## Left out

- performRequest (client.go:294-378) is not part of this model: the URL assembly, the TLS transport, the user agent and authorization headers, the reading of the response body and the classification of error bodies are replaced by the `Reply` value it would have produced.
- Authenticate (client.go:157-164) is not modelled. It is a single performRequest of `/v3/projects`, which is outside the model.
- SetBaseURL and BaseURL (client.go:137-155), and the base-URL step of NewDopplerClient together with its error, are not modelled, since URL parsing is outside the model.
- SHA-1 itself is not modelled; `sha1Hex` is any function yielding 40 characters.
- JSON encoding and decoding are the `marshal` and `unmarshal` parameters; the wire format of Secrets and UpdateSecretsRequest is not modelled.
- The Printf logging in UpdateCache, GetSecrets and UpdateSecrets is not modelled, as it does not affect results.
- The SafeCache mutex and any concurrency are not modelled; each method is one atomic step.
- Client.DopplerClient.UpdateSecrets: the Go code deletes unchanged entries from the caller's map in place. The model returns the remaining map as `remaining` instead of modelling that aliasing.
- Sharing is not modelled. The client's `Cache` map is shared by reference with its creator, and cache entries and responses are pointers. The model's cache is a value field, and the cached response is a value copy.
- Client.DopplerClient.UpdateCache and Client.DopplerClient.GetSecrets: Go's `Cache` map may be nil (NewDopplerClient accepts one). A lookup in a nil map finds nothing, but the store at client.go:132 panics on the first fresh download. The model's cache is always a map, so it has no nil cache and no panic; it stores where the code would crash.
- A nil `Secrets` map is modelled as the empty map, which reads the same. A nil entry pointer stored in the cache is not representable.
- SafeCache's LastCheckedAt is stored as an integer timestamp. Nothing in the core reads it back, and no TTL exists in the code.
- The provider layer and the API type declarations used by the provider are not modelled.
