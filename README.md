# Integration-type self-registration, modelled in Dafny

This project models how a Gundi integration connector registers its integration type with the Gundi registry at start-up: `register_integration_in_gundi`.

The routine does three things:

1. **Picks the type slug.** It takes the explicit `type_slug` if that is truthy, else the `INTEGRATION_TYPE_SLUG` setting. If both are falsy it raises `ValueError`. Otherwise it strips and lower-cases the slug. The display name is the slug with `_` turned into spaces, title-cased the way Python's `str.title` does it.
2. **Builds the registration payload.** The payload has a `name`, a `value` and a `description`, and a `service_url` key only when a truthy service URL is given. It also has an `actions` list with one entry per entry of the action-handler table, in table order. Each entry gets:
   - a title-cased name;
   - a description;
   - the configuration model's schema;
   - a type: Authentication, PullData, PushData or Generic, tested in that order;
   - an `is_periodic_action` flag. This is the pull marker, tested on its own.
3. **Submits the payload.** It calls `register_integration_type` under a retry context. There are at most 3 attempts, and only HTTP errors are retried. The first response is returned unchanged. Any other error is raised at once. After three HTTP errors the last one is raised.

Files:

- `wrappers.dfy`: `Option` and `Result`.
- `pystr.dfy`: module `PyStr`. It holds the parts of Python's `str.strip`, `str.lower`, `str.replace` and `str.title` that the routine uses, with their properties.
- `self_registration.dfy`: module `SelfRegistration`. It holds the payload data model, the pure parts as functions, and three imperative parts as methods: the loop that builds the actions, the payload built step by step, and the retry loop over an attempt counter. It also holds the lemmas on these.

The model treats the outside world as follows:

- **The registry client** is the parameter `client: nat -> Outcome`. `client(k)` is what the k-th call does: it returns a response, raises an `httpx.HTTPError`, or raises some other exception.
- **The `INTEGRATION_TYPE_SLUG` setting** is the parameter `defaultSlug`.
- **The action-handler table** is a sequence of `(action_id, config model)` pairs, in the dict's iteration order.
- **Each configuration model** is reduced to three booleans and an opaque schema document. The booleans say whether the model is a subclass of the `AuthActionConfiguration`, `PullActionConfiguration` and `PushActionConfiguration` base classes.

Three facts about the code are worth stating outright:

- **The missing-slug error** is a plain `ValueError` with the source's message.
- **`is_periodic_action` is the pull marker alone**, not "the type is pull-data". A configuration model that is both an authentication and a pull model is typed Authentication and is still periodic (`AuthAndPullIsPeriodicAuthentication`).
- **What is retried is the whole `httpx.HTTPError` class**, not only transport failures. Whether a rejected request counts as an HTTP error depends on the client, so the model only sees each outcome's class.

## Model

| member | source | states |
|---|---|---|
| `SelfRegistration.ResolveSlug` | app/services/self_registration.py:18-20 | An error occurs exactly when both the argument and the setting are falsy, and it is `ValueError` with the source's message. A truthy argument always wins. Otherwise the setting is used. A resolved slug is never empty. |
| `SelfRegistration.NormalizeSlug` | app/services/self_registration.py:21 | `strip().lower()` leaves no whitespace at either end and no capital letter. It gives the empty string exactly when the slug is all whitespace. |
| `SelfRegistration.DisplayName` | app/services/self_registration.py:22 | `replace("_", " ").title()` keeps the length and leaves no underscore. Up to case, it equals the slug with underscores turned into spaces. |
| `SelfRegistration.WhitespaceOnlySlugAccepted` | app/services/self_registration.py:19-22 | The emptiness test runs before `strip()`. So a whitespace-only slug passes the test, and the registered value and name are both empty. |
| `SelfRegistration.NameMatchesSlug` | app/services/self_registration.py:21-26 | The lower-cased display name is exactly the registered `value` with underscores turned into spaces. |
| `SelfRegistration.NormalizeIdempotent` | app/services/self_registration.py:21 | Normalising an already normalised slug changes nothing. |
| `SelfRegistration.Classify` | app/services/self_registration.py:38-45 | The classification is total and prioritised. It is Authentication exactly for auth models, PullData for non-auth pull models, PushData for push models that are neither, and Generic otherwise. |
| `SelfRegistration.PeriodicVersusType` | app/services/self_registration.py:38-53 | A PullData action is always periodic. A periodic action is typed Authentication or PullData. Without the auth marker, "periodic" and "typed PullData" coincide. |
| `SelfRegistration.AuthAndPullIsPeriodicAuthentication` | app/services/self_registration.py:38-53 | Every action entry built for a model that is both an auth and a pull model, whether or not it is also a push model, is typed Authentication and has `is_periodic_action` set. |
| `SelfRegistration.BuildActions` | app/services/self_registration.py:33-55 | There is one entry per handler, in table order. Each entry has: `value` = the action id; `name` = the title-cased id; description = integration name + " " + action name + " action"; the model's schema; the classified type; periodic iff the model is a pull model. |
| `SelfRegistration.BuildPayload` | app/services/self_registration.py:24-56 | The payload has `name` = display name, `value` = slug, `description` = "Default type for integrations with " + name, `service_url` only when the argument is truthy, and `actions` as built by the loop. |
| `SelfRegistration.PayloadDeterminedUpToServiceUrl` | app/services/self_registration.py:24-56 | The payload is fully determined by the slug, the service URL and the table. The service URL affects nothing but the `service_url` key. |
| `SelfRegistration.ServiceUrlKey` | app/services/self_registration.py:29-31 | The `service_url` key is present exactly when the argument is truthy, and then it holds the argument. |
| `SelfRegistration.ActionValuesFollowTable` | app/services/self_registration.py:34-50 | Action values are the handler ids in table order, so distinct ids give distinct action values. |
| `SelfRegistration.RetryRun` | app/services/self_registration.py:59-61 | The reference definition of the retry context: it makes at least one and at most 3 calls, and the last call's outcome is what surfaces. `RetryRunProperties` and `RetryStopsAt` characterise it fully. |
| `SelfRegistration.RetryRunProperties` | app/services/self_registration.py:59-61 | The routine makes between 1 and 3 calls. Every call before the last raised an HTTP error. The loop stops before the third call only on an outcome that is not an HTTP error. The last call's outcome is returned or raised unchanged. |
| `SelfRegistration.RetryStopsAt` | app/services/self_registration.py:59-61 | If the calls before attempt n raised HTTP errors, and attempt n does not (or n is the third attempt), then the routine makes n+1 calls and surfaces attempt n's outcome. This covers the first success, a non-HTTP error, and three HTTP errors. |
| `SelfRegistration.TwoHttpErrorsThenSuccess` | app/services/self_registration.py:59-63 | Two HTTP errors followed by a response give exactly three calls, and that response is returned. |
| `SelfRegistration.RegisterWithRetry` | app/services/self_registration.py:59-63 | The loop's result and its number of calls are those of `RetryRun`. Every call sends the same payload. |
| `SelfRegistration.RegisterIntegrationInGundi` | app/services/self_registration.py:16-63 | If both slugs are falsy, the routine raises `ValueError` and makes no registry call. Otherwise it makes 1 to 3 calls. Each call carries the payload for the normalised chosen slug. The result is the retry loop's. |
| `PyStr.SkipSpace` | app/services/self_registration.py:21 | The left scan of `strip()` stops at the first non-whitespace character. Everything it passed is whitespace. |
| `PyStr.BackSpace` | app/services/self_registration.py:21 | The right scan of `strip()` stops after the last non-whitespace character, and never below the left scan's index. Everything it passed is whitespace. |
| `PyStr.Strip` | app/services/self_registration.py:21 | The result is trimmed at both ends. It is empty exactly when the input is all whitespace. |
| `PyStr.StripRemovesSurroundingSpace` | app/services/self_registration.py:21 | For any trimmed middle part with whitespace on both sides, stripping gives back that middle part. |
| `PyStr.StripIsInfix` | app/services/self_registration.py:21 | The input is the stripped result with whitespace before and after it. |
| `PyStr.StripIdempotent` | app/services/self_registration.py:21 | Stripping twice is stripping once. |
| `PyStr.Lower` | app/services/self_registration.py:21 | The length is kept, and every character is lower-cased. |
| `PyStr.LowerHasNoUpper` | app/services/self_registration.py:21 | A lower-cased string has no capital letter. |
| `PyStr.LowerIdempotent` | app/services/self_registration.py:21 | Lower-casing twice is lower-casing once. |
| `PyStr.LowerKeepsSpace` | app/services/self_registration.py:21 | Lower-casing keeps the whitespace at the same positions. |
| `PyStr.LowerCommutesWithStrip` | app/services/self_registration.py:21 | Stripping and lower-casing can be done in either order. |
| `PyStr.ReplaceChar` | app/services/self_registration.py:22 | Every occurrence of the old character is replaced, and nothing else changes. |
| `PyStr.ReplaceCharLeavesNoOld` | app/services/self_registration.py:22 | After the replacement, the old character does not occur. |
| `PyStr.TitleFrom` | app/services/self_registration.py:22 | In CPython's title loop, a character is lowered when the input character before it was cased, and upper-cased otherwise. |
| `PyStr.Title` | app/services/self_registration.py:22 | `str.title`: the first letter of each run of letters is upper-cased and the rest are lowered. |
| `PyStr.LowerOfTitle` | app/services/self_registration.py:22 | Title-casing changes only case. |
| `PyStr.TitleOfLower` | app/services/self_registration.py:21-22 | Lowering the slug before title-casing does not change the display name. |
| `PyStr.TitleIdempotent` | app/services/self_registration.py:22 | Title-casing twice is title-casing once. |
| `PyStr.TitleKeepsUncased` | app/services/self_registration.py:22 | Spaces, underscores and digits pass through title-casing unchanged. |
| `PyStr.TitleRestartsAfterDigit` | app/services/self_registration.py:22 | A letter after a digit starts a new word: `"2fa".title()` is `"2Fa"`. |

## Left out

- Logging (the `logger.info` calls): side effects with no behaviour to state.
- `async`/`await` and the retry wait timing (the 1 s initial wait, backoff and jitter, and stamina's global on/off switch): the model counts attempts and checks which error classes are retried, and has no notion of time.
- `SelfRegistration.RetryRun`: does not model stamina's default overall retry timeout (45 s, not overridden at line 59). That timeout can end the loop after fewer than 3 HTTP errors. `RetryRunProperties` and `RetryStopsAt` hold only when it does not fire.
- `config_model.schema_json()` and `json.loads`: this is pydantic serialisation, so each configuration model carries its schema as an opaque document.
- The real registry client and the HTTP transport: replaced by the scripted `client` parameter. The model treats the outcome as independent of the payload.
- `PyStr.IsSpace`, `PyStr.Lower` and `PyStr.Title`: only the ASCII range is modelled. Python's non-ASCII whitespace (U+0085, U+00A0, U+2000 and others) and Unicode case mapping, including title-case digraphs, are not captured.
- `PyStr.ReplaceChar`: models `str.replace` only for a one-character old and new string, which is the only use here.
- The handler function in each action-handler tuple: the routine discards it. The webhook configuration classes only declare pydantic fields. The action dispatcher and action runner are not part of this model.
