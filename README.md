# Build Artifacts wagon, modelled in Dafny

`BuildArtifactsWagon` is a Maven wagon (a transport plugin) that downloads
and uploads artifacts to a cloud package repository over HTTPS. This project
models its protocol-adaptation core:

- **Locator parsing** (`GoogleRepository.parse`): the configured repository
  `buildartifacts://projects/<project_id>/repositories/<repository_id>`
  is read into a (project id, repository id) pair. The model uses Java's
  `String.split` semantics exactly (module `JavaText`). When the separator
  is absent, the whole string is the only piece. Otherwise a leading empty
  piece is kept and every trailing empty piece is dropped.
- **URL construction** (`constructURL`): scheme `https`, host
  `maven.pkg.dev/`, path parts `[projectId, repositoryId] ++ split(path, "/")`.
- **Status mapping** (`rethrowKnownStatusCodes` and the catch blocks around
  it): 401/403 become an authorization error, 404 a missing-resource error,
  any other status or an I/O failure a transfer failure. The authorization
  message carries credentials guidance exactly when no credentials were
  ever obtained.
- **Transfer lifecycle** (class `Wagon.BuildArtifactsWagon`): the connection
  state set by `openConnectionInternal`, and `get`/`getIfNewer`/`put`. These
  append listener notifications to an event log and issued requests to a
  request log, and end with a result or a thrown error. The upload's carrier
  exception (`FileTransferException`) is modelled as wrapping in `WriteTo`
  and unwrapping in `HandlePutFailure`.

Files: `outcomes.dfy` (Option/Result), `java_text.dfy` (Java split, join and
their inverse lemmas), `repository_address.dfy` (parse, URL), `status_errors.dfy`
(error taxonomy and mapping), `wagon.dfy` (the wagon class and its operations).

Behaviours of the code worth knowing:

- The code accepts an empty project id (`//repositories/R`) and any number
  of trailing slashes after the repository id, and never yields an empty
  repository id. `ParseExactly` states exactly which locators parse.
- The URL path does not always have an artifact part. For the artifact path
  `/`, Java's split yields no piece at all, so the URL names only the
  repository (`ConstructUrlOfSlash`). In general the artifact parts are the
  path's slash-separated pieces less the empty ones at its end
  (`ConstructUrlPiecesOfArtifactPath`); for a path not ending in a slash
  they join back to the path (`ConstructUrlKeepsArtifactPath`).
- `hasCredentials` is never cleared, so after a credential-less reconnect
  requests go out unsigned and a 403 carries no credentials guidance
  (`ReconnectWithoutCredentials`).

## Model

| member | source | states |
|---|---|---|
| `JavaText.JavaSplit` | src/main/java/com/google/cloud/buildartifacts/wagon/BuildArtifactsWagon.java:217 | no piece contains the separator; a separator-free string is its own only piece; otherwise the last piece, if any, is non-empty |
| `JavaText.DropTrailingEmpty` | src/main/java/com/google/cloud/buildartifacts/wagon/BuildArtifactsWagon.java:217 | the result is the longest prefix that does not end in an empty string, and only empty strings are cut |
| `JavaText.JoinPieces` | src/main/java/com/google/cloud/buildartifacts/wagon/BuildArtifactsWagon.java:217 | joining the pieces of a split gives back the original string |
| `JavaText.PiecesJoin` | src/main/java/com/google/cloud/buildartifacts/wagon/BuildArtifactsWagon.java:217 | splitting a join of separator-free pieces gives back those pieces |
| `JavaText.JavaSplitJoin` | src/main/java/com/google/cloud/buildartifacts/wagon/BuildArtifactsWagon.java:234 | a string not ending in the separator has at least one piece and is recovered by joining its pieces |
| `JavaText.JavaSplitTrailing` | src/main/java/com/google/cloud/buildartifacts/wagon/BuildArtifactsWagon.java:217 | when the separator occurs, all the pieces are Java's pieces followed by some number of empty ones |
| `JavaText.JavaSplitOfJoin` | src/main/java/com/google/cloud/buildartifacts/wagon/BuildArtifactsWagon.java:217 | a join of two or more separator-free pieces whose last piece is non-empty splits back into exactly those pieces |
| `RepositoryAddress.Parse` | src/main/java/com/google/cloud/buildartifacts/wagon/BuildArtifactsWagon.java:211-225 | succeeds iff the host is `projects` and the split base directory has 4 pieces, piece 0 empty and piece 2 `repositories`; then returns pieces 1 and 3, otherwise the fixed ConnectionException message; a parsed id never contains `/` and the repository id is never empty |
| `RepositoryAddress.ParseCanonical` | src/main/java/com/google/cloud/buildartifacts/wagon/BuildArtifactsWagon.java:214-224 | round trip: `/P/repositories/R` plus any number of trailing slashes parses to (P, R) for slash-free P and non-empty slash-free R, P possibly empty |
| `RepositoryAddress.ParseOnlyCanonical` | src/main/java/com/google/cloud/buildartifacts/wagon/BuildArtifactsWagon.java:214-224 | every successful parse comes from host `projects` and a base directory `/P/repositories/R` followed only by slashes |
| `RepositoryAddress.ParseExactly` | src/main/java/com/google/cloud/buildartifacts/wagon/BuildArtifactsWagon.java:211-225 | both directions: parse yields (P, R) iff the locator is of that canonical shape with slash-free ids and a non-empty R |
| `RepositoryAddress.DoubledLeadingSlashRejected` | src/main/java/com/google/cloud/buildartifacts/wagon/BuildArtifactsWagon.java:218-223 | an extra leading slash adds a fifth piece and the locator is rejected with the fixed message |
| `RepositoryAddress.ExampleLocator` | src/main/java/com/google/cloud/buildartifacts/wagon/BuildArtifactsWagon.java:213-224 | `/my-proj/repositories/my-repo` on host `projects` parses to (my-proj, my-repo) |
| `RepositoryAddress.ConstructUrl` | src/main/java/com/google/cloud/buildartifacts/wagon/BuildArtifactsWagon.java:227-237 | scheme `https`, host with `/` appended, path parts starting with the project and repository ids, and no later part containing `/` |
| `RepositoryAddress.ConstructUrlKeepsArtifactPath` | src/main/java/com/google/cloud/buildartifacts/wagon/BuildArtifactsWagon.java:231-235 | for an artifact path not ending in `/` there are at least 3 parts, and those after the identity pair join back to the artifact path |
| `RepositoryAddress.ConstructUrlPiecesOfArtifactPath` | src/main/java/com/google/cloud/buildartifacts/wagon/BuildArtifactsWagon.java:234 | for every artifact path, the parts after the identity pair are the path's pieces less some empty ones at the end |
| `RepositoryAddress.ConstructUrlOfSlash` | src/main/java/com/google/cloud/buildartifacts/wagon/BuildArtifactsWagon.java:234 | the artifact path `/` contributes no part: the path parts are exactly the identity pair |
| `RepositoryAddress.ArtifactPathSplit` | src/main/java/com/google/cloud/buildartifacts/wagon/BuildArtifactsWagon.java:234 | the example artifact path `com/acme/lib/1.0/lib-1.0.jar` splits into its four directories and its file name |
| `RepositoryAddress.ExampleArtifactPath` | src/main/java/com/google/cloud/buildartifacts/wagon/BuildArtifactsWagon.java:227-236 | the example artifact path `com/acme/lib/1.0/lib-1.0.jar` yields the path parts `[projectId, repositoryId, com, acme, lib, 1.0, lib-1.0.jar]` |
| `StatusErrors.AuthorizationMessage` | src/main/java/com/google/cloud/buildartifacts/wagon/BuildArtifactsWagon.java:180-188 | the authorization message always begins with the permission-denied sentence |
| `StatusErrors.AuthorizationMessageHint` | src/main/java/com/google/cloud/buildartifacts/wagon/BuildArtifactsWagon.java:182-187 | the message contains the application-default-credentials guidance iff the wagon has no credentials |
| `StatusErrors.RethrowKnownStatusCodes` | src/main/java/com/google/cloud/buildartifacts/wagon/BuildArtifactsWagon.java:176-192 | raises something iff the status is 401, 403 or 404, and never a transfer failure |
| `StatusErrors.MapTransportFailure` | src/main/java/com/google/cloud/buildartifacts/wagon/BuildArtifactsWagon.java:64-68 | total mapping: authorization iff 401/403, missing resource iff 404, otherwise transfer failure; with the fixed message of each case, "failed to send" exactly for an I/O failure |
| `StatusErrors.NoResponseIsTransferFailure` | src/main/java/com/google/cloud/buildartifacts/wagon/BuildArtifactsWagon.java:67-68 | a failure without a response is a transfer failure with the "failed to send" message, distinct from the server-error message |
| `StatusErrors.CredentialsOnlyChangeWording` | src/main/java/com/google/cloud/buildartifacts/wagon/BuildArtifactsWagon.java:178-191 | having credentials never changes the error kind; it changes only, and always, the authorization message |
| `StatusErrors.WriteTo` | src/main/java/com/google/cloud/buildartifacts/wagon/BuildArtifactsWagon.java:135-141 | a streaming error, and only that, is wrapped in the carrier |
| `StatusErrors.ExecutePut` | src/main/java/com/google/cloud/buildartifacts/wagon/BuildArtifactsWagon.java:117-143 | a streaming error aborts the request as the carrier; otherwise the request fails iff the exchange did |
| `StatusErrors.HandlePutFailure` | src/main/java/com/google/cloud/buildartifacts/wagon/BuildArtifactsWagon.java:144-158 | the carrier is unwrapped to the exception it carries; a transport failure is mapped as for a download |
| `StatusErrors.CarrierRoundTrip` | src/main/java/com/google/cloud/buildartifacts/wagon/BuildArtifactsWagon.java:136-155 | wrapping then unwrapping returns the original error whatever the exchange did |
| `StatusErrors.PutMapsLikeGet` | src/main/java/com/google/cloud/buildartifacts/wagon/BuildArtifactsWagon.java:144-146 | with a cleanly streamed body, an upload's transport failure is mapped by the same table as a download's |
| `Wagon.GetInputStream` | src/main/java/com/google/cloud/buildartifacts/wagon/BuildArtifactsWagon.java:57-70 | succeeds iff connected and the exchange delivered, reading from the constructed URL; otherwise the null-repository failure or the mapped transport failure |
| `Wagon.GetIfNewerResult` | src/main/java/com/google/cloud/buildartifacts/wagon/BuildArtifactsWagon.java:99-113 | returns true iff connected, delivered and streamed without error; when getInputStream fails its error is the result, whatever the streaming would have done; otherwise a streaming error is rethrown as is |
| `Wagon.GetEvents` | src/main/java/com/google/cloud/buildartifacts/wagon/BuildArtifactsWagon.java:101-110 | getIfNewer's own three notifications on the fresh resource: initiated, started, then completed iff success and transfer error iff failure (those fired inside the inherited streaming helper are not recorded) |
| `Wagon.HandlePutRequest` | src/main/java/com/google/cloud/buildartifacts/wagon/BuildArtifactsWagon.java:115-161 | a streaming error is what the upload throws; otherwise it fails iff the exchange did, with the mapped transport failure |
| `Wagon.PutResult` | src/main/java/com/google/cloud/buildartifacts/wagon/BuildArtifactsWagon.java:164-174 | put throws nothing iff connected, streamed cleanly and delivered; unconnected throws the null-repository failure; a streaming error is rethrown unchanged |
| `Wagon.WithMetadata` | src/main/java/com/google/cloud/buildartifacts/wagon/BuildArtifactsWagon.java:168-169 | the resource keeps its name and takes the file's length and modification time |
| `Wagon.PutEvents` | src/main/java/com/google/cloud/buildartifacts/wagon/BuildArtifactsWagon.java:166-173 | put's own notifications: initiated on the bare resource first; started once the URL is built and completed only on success, both on the resource carrying the file's metadata (those fired inside the inherited streaming helper are not recorded) |
| `Wagon.PutEventKinds` | src/main/java/com/google/cloud/buildartifacts/wagon/BuildArtifactsWagon.java:164-174 | put's own notifications never include a transfer error, and include completion iff it succeeded |
| `Wagon.NoResponseFailsBothWays` | src/main/java/com/google/cloud/buildartifacts/wagon/BuildArtifactsWagon.java:67-68 | an I/O failure ends a download (for any streaming outcome) and a cleanly streamed upload as the "failed to send" transfer failure |
| `Wagon.StatusMappedAlikeForGetAndPut` | src/main/java/com/google/cloud/buildartifacts/wagon/BuildArtifactsWagon.java:144-146 | every error status ends a download (for any streaming outcome) and a cleanly streamed upload with the same mapped error |
| `Wagon.BuildArtifactsWagon.constructor` | src/main/java/com/google/cloud/buildartifacts/wagon/BuildArtifactsWagon.java:52-54 | a new wagon has no repository, no credentials, an unsigned factory and empty logs |
| `Wagon.BuildArtifactsWagon.OpenConnectionInternal` | src/main/java/com/google/cloud/buildartifacts/wagon/BuildArtifactsWagon.java:73-85 | signing follows this lookup; hasCredentials becomes true on success and is never cleared; a malformed locator throws the ConnectionException and keeps the old repository; afterwards signing implies credentials |
| `Wagon.BuildArtifactsWagon.GetIfNewer` | src/main/java/com/google/cloud/buildartifacts/wagon/BuildArtifactsWagon.java:98-113 | result is GetIfNewerResult (independent of the timestamp); the log gains initiated, started, completed/transfer error; one signed-or-not GET to the constructed URL when connected |
| `Wagon.BuildArtifactsWagon.Get` | src/main/java/com/google/cloud/buildartifacts/wagon/BuildArtifactsWagon.java:92-96 | behaves as getIfNewer with timestamp 0: same failure, same notifications, same request |
| `Wagon.BuildArtifactsWagon.Put` | src/main/java/com/google/cloud/buildartifacts/wagon/BuildArtifactsWagon.java:163-174 | result is PutResult; notifications are PutEvents; one PUT declaring the file's length to the constructed URL when connected |
| `Wagon.ReconnectWithoutCredentials` | src/main/java/com/google/cloud/buildartifacts/wagon/BuildArtifactsWagon.java:76-84 | after a credentialed then a credential-less open, the GET goes out unsigned and a 403 reads only the permission-denied sentence |

## Left out

- HTTP transport and request execution (`NetHttpTransport`, the request factory, `execute()`): each operation takes the exchange's outcome as a parameter (delivered, an error status, or an I/O failure); the request log records what was asked of the factory.
- `GenericUrl` rendering and percent-encoding: the URL is kept as scheme, host and path parts.
- Credential acquisition (`GoogleCredentials.getApplicationDefault`, `HttpCredentialsAdapter`): a boolean "lookup succeeded" parameter of `OpenConnectionInternal`.
- Maven's decomposition of the repository URL into host and base directory: `Locator` takes both as given.
- Byte streaming in `getTransfer`/`putTransfer`, and the file's `length()`/`lastModified()`: streaming is an optional error parameter, the file two integers. Those helpers belong to Maven's base wagon (not part of this model) and fire notifications of their own, none of which is in the event log: `getTransfer` fires get-started, transfer-progress and get-completed, and transfer-error on an I/O failure; `putTransfer` fires put-started, transfer-progress and put-completed, and transfer-error when reading the file fails. In the running program a successful get therefore reports started and completed twice, and a put whose body fails reports a transfer error; the log records only `BuildArtifactsWagon`'s own `fire*` calls.
- Listener dispatch inside the base wagon (`fire*`): only the order of notifications and the resource they carry are recorded.
- `closeConnection`, which is empty.
- The upload body's content type (null) and its retry-supported flag (true): constants handed to the HTTP client, with no effect on the model's outcomes.
- The "Error uploading file." fallback in `handlePutRequest`: the carrier is only ever built around one of the three Maven exceptions, so this branch cannot be reached; the model's carrier holds a `WagonError`, which makes that structural.
- Java's `Resource` is a mutable object shared with the listeners; the model records a snapshot of it with each notification.
- Exceptions other than the three Maven kinds and the null-repository dereference (for example a runtime failure inside the HTTP client) are not modelled.
