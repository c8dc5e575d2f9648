# Credential lifecycle of mail_automation, in Dafny

This project models the part of the mail_automation backend that handles
per-user Google OAuth credentials:

- **The connect router** (`routes/connect/router.py`), module `Connect`.
  The module-level dict `user_credentials` becomes the class `ConnectRouter`.
  The OAuth callback writes its record under the fixed id `"user_123"`.
  `get_emails` and `get_email_content` check it before any Gmail call.
  `revoke_access` deletes from it.
  The header loop that turns Gmail message metadata into
  `{id, snippet, from?, subject?, date?}` summaries is the method `Summarize`.
  `Summarize` is specified by `SummaryOf` and `LastValue` ("the last header with exactly
  that name wins").
- **The two repositories** (`repositories/repo.py` and `routes/gmail/repo.py`), modules
  `Repositories` and `GmailRepository`. Each holds a credentials collection and a
  profile (`user_info`) collection as two maps from `user_id` to document. Their methods
  are the upsert, point lookup, delete-reporting-existence and enumeration operations.
  `MongoRepo`'s constructor adds the URI check.
  Module `Documents` holds the document shapes (`models/user_credentials.py` plus
  `user_id`) and the cursor loop of `list_user_ids`, which both repositories share.
- **The callback payload** (`tools/oauth.py`), module `OAuth`. It covers scope normalisation
  (granted string, list or absent; the requested scope as fallback), `user_info`
  defaulting, and the payload whose `scopes` is the list joined with `''`. Module
  `PyStrings` gives the Python string operations this relies on: `str.isspace`,
  `str.split()` and `join`.

The provider is never called. The authorization-code exchange
(`flow.fetch_token`, the authorization code grant of section 4.1 of RFC 6749) is a
function from the code to `ExchangeFailed(reason)` or `Exchanged(credentials)`.
Gmail's `messages().list` and `messages().get` are functions of the credentials
rebuilt from the stored record. Every endpoint is one sequential step on the maps.

The model follows the code where it departs from the intended credential lifecycle:

- the callback stores under the hard-coded id `"user_123"`;
- it verifies no identity token;
- it ignores `state`;
- `revoke_access` in the connect router deletes only the in-memory record.

## Model

| member | source | states |
|---|---|---|
| `Connect.ConnectRouter.constructor` | routes/connect/router.py:14 | the registry starts empty |
| `Connect.ConnectRouter.OAuthCallback` | routes/connect/router.py:38-65 | a successful exchange stores `RecordOf(credentials)` under `"user_123"`, replacing any earlier record, and answers the success message with that id; a failed exchange answers 400 `"Authorization failed: " + reason` and leaves the registry unchanged; every other user's entry is unchanged in both cases |
| `Connect.RecordOf` | routes/connect/router.py:51-58 | the stored record holds exactly the six fields token, refresh_token, token_uri, client_id, client_secret and scopes: rebuilding credentials from it gives the exchanged credentials minus the id token and expiry |
| `Connect.Rebuild` | routes/connect/router.py:82-89 | credentials rebuilt from a record carry no id token and no expiry |
| `Connect.RecordRebuildRoundTrip` | routes/connect/router.py:51-58 | storing rebuilt credentials gives back the record they came from |
| `Connect.ConnectRouter.GetEmails` | routes/connect/router.py:68-137 | a user without a record gets 401 whatever the provider would answer; otherwise the reply is `EmailsReplyFor` the credentials rebuilt from that user's record; the registry is not modified |
| `Connect.EmailsReplyFor` | routes/connect/router.py:95-137 | a failed listing is 500 with its error; a missing or empty message list gives the "No emails found" reply and nothing else does; for a non-empty listing the reply succeeds iff every fetch succeeds, and is then the list of summaries: one per listed message, in list order, with `total` equal to their number; otherwise it is 500 with the error of the first failed fetch |
| `Connect.FetchSummaries` | routes/connect/router.py:106-129 | it succeeds iff every fetch succeeds, and then gives one `SummaryOf` per id in order; otherwise the error is that of the first failed fetch |
| `Connect.Summarize` | routes/connect/router.py:115-127 | the header loop builds exactly `SummaryOf(msg)`: `id` and `snippet` from the message, each of `from`/`subject`/`date` the value of the last header with exactly that name |
| `Connect.LastValueAbsent` | routes/connect/router.py:121-127 | a summary field is absent iff no header has exactly that name |
| `Connect.LastValueIsLast` | routes/connect/router.py:121-127 | when present, the field holds the value of the last header with that name |
| `Connect.SummaryIgnoresOtherHeaders` | routes/connect/router.py:121-127 | inserting a header named other than `From`, `Subject` or `Date` anywhere leaves the summary unchanged |
| `Connect.ConnectRouter.GetEmailContent` | routes/connect/router.py:140-175 | a user without a record gets 401 `"User not authorized"` whatever the provider would answer; otherwise the reply is `EmailContentFor` the rebuilt credentials; the registry is not modified |
| `Connect.EmailContentFor` | routes/connect/router.py:159-175 | the reply is the `id`, `threadId`, `snippet` and `payload` of the fetched message, or 500 with the fetch error |
| `Connect.ConnectRouter.RevokeAccess` | routes/connect/router.py:178-187 | it succeeds iff the user had a record; afterwards exactly that key is gone; an absent user gets 404 and the registry is unchanged |
| `Connect.Lifecycle` | routes/connect/router.py:38-187 | from an empty registry: `get_emails` is 401, then after a successful callback it reads mail with the exchanged tokens, revoke succeeds, `get_emails` is 401 again, and a second revoke is 404 |
| `Documents.ToDoc` | repositories/repo.py:27-29 | the stored document is the credentials' fields plus `user_id`: dropping `user_id` gives the credentials back |
| `Documents.CollectUserIds` | repositories/repo.py:53-58 | the cursor loop yields every `user_id` of the collection, nothing else, each once |
| `Repositories.Or` | repositories/repo.py:16-17 | Python `a or b`: the first operand when it is a non-empty string, else the second |
| `Repositories.ResolveConnection` | repositories/repo.py:15-19 | construction fails with the ValueError message iff neither an explicit nor a configured URI is a non-empty string; otherwise the explicit URI wins over the configured one |
| `Repositories.MongoRepo.constructor` | repositories/repo.py:21-24 | the repository wraps the two collections as they stand |
| `Repositories.MongoRepo.Create` | repositories/repo.py:15-24 | `MongoRepo(uri, db_name)` fails with the ValueError message exactly when `ResolveConnection` does (the driver's own checks are left out), else yields a fresh valid repository over the given collections |
| `Repositories.MongoRepo.SaveCredentials` | repositories/repo.py:27-30 | upsert by `user_id`: afterwards `GetCredentials(u)` is the credentials plus `user_id = u`, every other user's record is unchanged, and `user_info` is untouched |
| `Repositories.MongoRepo.GetCredentials` | repositories/repo.py:32-34 | `find_one`: a returned document is in the collection and has that `user_id`; `None` only when no document has it |
| `Repositories.MongoRepo.DeleteCredentials` | repositories/repo.py:36-38 | returns true iff a record existed; afterwards `GetCredentials(u)` is `None`, only that key is removed, and `user_info` is untouched |
| `Repositories.MongoRepo.SaveUserInfo` | repositories/repo.py:41-43 | upsert by `user_id`: afterwards `GetUserInfo(u)` is exactly `info`, other users unchanged, credentials untouched |
| `Repositories.MongoRepo.GetUserInfo` | repositories/repo.py:45-47 | the `info` of the user's document; `None` iff there is no document |
| `Repositories.MongoRepo.DeleteUserInfo` | repositories/repo.py:49-51 | returns true iff a record existed; afterwards it is gone; credentials untouched |
| `Repositories.MongoRepo.ListUserIds` | repositories/repo.py:53-58 | contains `u` iff `GetCredentials(u)` is not `None`, with no repeats and one entry per credentials document |
| `Repositories.SaveTwiceListsOnce` | repositories/repo.py:27-58 | saving twice for a user keeps one record, holding the second value, and lists the user once |
| `GmailRepository.GmailRepo.constructor` | routes/gmail/repo.py:12-15 | the repository wraps `gmail_credentials` and `gmail_user_info` as they stand |
| `GmailRepository.GmailRepo.SaveCredentials` | routes/gmail/repo.py:17-20 | upsert by `user_id`: afterwards `GetCredentials(u)` is the credentials plus `user_id = u`, other users unchanged, `gmail_user_info` untouched |
| `GmailRepository.GmailRepo.GetCredentials` | routes/gmail/repo.py:22-23 | `find_one`: a returned document is in the collection and has that `user_id`; `None` only when none has it |
| `GmailRepository.GmailRepo.DeleteCredentials` | routes/gmail/repo.py:25-27 | returns true iff a record existed; afterwards it is gone; `gmail_user_info` untouched |
| `GmailRepository.GmailRepo.SaveUserInfo` | routes/gmail/repo.py:29-31 | upsert by `user_id`: afterwards `GetUserInfo(u)` is exactly `info`; credentials untouched |
| `GmailRepository.GmailRepo.GetUserInfo` | routes/gmail/repo.py:33-35 | the saved `info`; `None` iff there is no document |
| `GmailRepository.GmailRepo.DeleteUserInfo` | routes/gmail/repo.py:37-39 | returns true iff a record existed; afterwards it is gone; credentials untouched |
| `GmailRepository.GmailRepo.ListUserIds` | routes/gmail/repo.py:41-46 | exactly the keys of `gmail_credentials`, each once |
| `GmailRepository.SaveThenDeleteCredentials` | routes/gmail/repo.py:17-46 | deleting right after saving reports true, leaves no record and no listing for the user, and leaves the profile document as it was |
| `PyStrings.Split` | tools/oauth.py:20 | no piece of `s.split()` is empty or contains whitespace |
| `PyStrings.ConcatSplit` | tools/oauth.py:20 | joining the pieces of `s.split()` with `''` gives `s` with all whitespace removed |
| `PyStrings.SplitEmptyIff` | tools/oauth.py:20 | `s.split()` is empty iff `s` is empty or all whitespace |
| `PyStrings.SplitJoin` | tools/oauth.py:20 | `' '.join(ts).split() == ts` for whitespace-free, non-empty pieces |
| `OAuth.ScopeList` | tools/oauth.py:19-29 | a string gives its whitespace-free pieces (none for `""`), a list or tuple is copied unchanged, anything else gives `[]` |
| `OAuth.NormalizeScopes` | tools/oauth.py:18-29 | the granted scope decides when it is a string or a list; an empty granted string gives `[]` without falling back; otherwise the requested scope is normalised by the same rules, and anything else gives `[]` |
| `OAuth.RequestedScopeIgnoredWhenGranted` | tools/oauth.py:18-29 | the requested scope does not matter once a string or list was granted |
| `OAuth.ScopeStringRoundTrip` | tools/oauth.py:19-20 | a space-delimited scope string normalises back to its scope names |
| `OAuth.HandleOAuthCallback` | tools/oauth.py:13-39 | a failed exchange propagates its error; otherwise `message` and `user_id` are the caller's message and the result's `user_id`, `user_info` is the result's or `{}`, and `scopes` is the normalised list joined with `''` |
| `OAuth.GrantedStringPayload` | tools/oauth.py:19-39 | with a granted scope string, the payload's `scopes` is that string with all whitespace removed |

## Left out

- The `/authorize` endpoint (routes/connect/router.py:18-35) only calls `flow.authorization_url` from the OAuth library and touches no state; it is not modelled.
- Provider calls (`flow.fetch_token`, `Credentials(...)` as a live object, `build('gmail', ...)`, `messages().list/get`) are inputs. Their exceptions are the `Failure` side of those inputs. `max_results` is handed to the listing function, which is trusted to honour it.
- A malformed provider response, such as a missing `payload` or `headers` key, raises inside the `try` of `get_emails` and gives a 500 in Python. The model's message types always carry those fields.
- Connect.Credentials: the provider's credentials object has more fields than modelled. Only the id token and expiry are kept, to show that the stored record drops them.
- OAuth.HandleOAuthCallback: the `user_info` cookie (tools/oauth.py:31-37) is HTTP I/O and is not modelled. Its failure is swallowed in the source, so the payload cannot depend on it.
- OAuth.ScopeList: a list whose elements are not strings would make `''.join` raise a TypeError in Python. Lists are modelled as lists of strings.
- Documents.Info: profile claims are a map from string to string. Python allows any JSON value.
- Repositories.MongoRepo.SaveCredentials: `$set` is modelled as a replace. This matches the source for documents written by the repository, which always have the same fields. A pre-existing document with extra fields would keep them under `$set`.
- Repositories.MongoRepo.constructor: a collection holds at most one document per `user_id`; the constructors require this of the collections they are given. The source has no unique index; uniqueness holds because every write is an upsert on `user_id`.
- Repositories.ResolveConnection: config/settings.py declares neither `MONGO_URI` nor `MONGO_DB`, so in Python the fallback would raise an AttributeError. The model takes the configured values as optional inputs.
- Repositories.MongoRepo.Create: fails only on the source's own ValueError check. The driver's own rejections at repositories/repo.py:21-22 are not modelled. These are a URI without a `mongodb` scheme, a `None` database name (TypeError) and an empty database name (InvalidName).
- GmailRepository.GmailRepo.constructor: the `MongoConnector` singleton (db/mongo_connector.py) is process plumbing. The constructor takes the collections' contents instead.
- The order of `list_user_ids` is the store's cursor order, which the source leaves unspecified. The model fixes no order.
- async/await and Motor's concurrency are not modelled. Each operation is one atomic step.
- gmail.py (pickle files, local consent flow, token refresh, `watch`), tools/google_api.py, routes/gmail/service.py, routes/gmail/router.py, routes/google/router.py, main.py, config/settings.py and dependencies/db.py are not part of this model. They are library calls, file or network I/O, or forwarding without logic of their own.
- Identity-token verification, `state` checking and deriving `user_id` from an identity are not modelled, because the source does none of them.
