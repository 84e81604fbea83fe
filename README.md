# person-cli: a verified model of its decision logic

`person-cli` is a command-line client for Mozilla's identity-directory APIs (the
person API, the change API and the Auth0 token endpoint). Its code also contains a
step that migrates legacy avatar pictures. This project models in Dafny the sequential logic around that
plumbing, and proves what each step does:

- **Avatar migration** (`Pictures`, `Files`). This covers which profiles are
  eligible, where the source image is read from, and the fail-fast write of the
  four renditions into the `raw`, `40`, `100` and `264` buckets. It also covers the
  minimal update profile built on success: `active` and `user_id` are copied, and
  `picture` is rewritten.
- **Paginated listing** (`Users`). The continuation-token loop of `get_users` and
  the shape check of one page.
- **Uploads to the change API** (`Change`). Single-user post and delete, with
  optional re-signing first. Bulk upload in chunks of four that stops at the first
  failing chunk.
- **New profiles** (`Create`). Metadata stamping, `create_new_user` on the null
  skeleton, and `empty_profile`.
- **Client configuration and token** (`Auth`). The ordered required-key checks, the
  token request payload, and extracting `access_token` from the reply.

Everything the code hands to another library or to the outside world is a parameter
of the model: sending HTTP requests, decoding their JSON replies, and the error text
of a reply read as `()` (`Http.Transport`),
`load_json`, `sign_profile`, `Avatars::new`, the two file-name derivations, the clock,
the file system, `Profile::default()` (`blank`), the parsed null skeleton (`skeleton`)
and pretty-printing. The effectful methods return the calls they made, in order
(`Change.Call`, the files read and written in `Pictures`). From those traces the
contracts can say what was, and was not, sent or written.

`serde_json::Value` is the datatype `Json.Json`. A read-only `v["k"]` gives `Null`
for a missing key or a non-object, and `as_str` gives a value only for a string. On
a reply that is neither an object nor `null`, the mutable indexing in
`get_single_user_batch` panics. That case is the error `Users.FetchError.Panicked`.

Three behaviours of the code shape the contracts:

- `post_lots_of_users` returns the error of the first failing chunk, and no later
  chunk is sent. A chunk fails unless its reply body is `null` (see Findings).
- `has_picture_path` does not consult the uuid at all, while `process_picture`
  needs one.
- `process_picture` sets only the publisher of the rewritten picture attribute; it
  does not sign it.

## Model

| member | source | states |
|---|---|---|
| `Auth.ConfigPath` | src/auth.rs:12 | With no file named, the configuration path is `.person-cli.json`; otherwise it is the given path |
| `Auth.ClientConfigOf` | src/auth.rs:39-58 | Keys are checked in the order client_id, client_secret, audience. The first key that is absent or not a string decides the error message. Success holds exactly when all three are strings, and the result's fields are those strings |
| `Auth.ReadClientConfig` | src/auth.rs:37-38 | A load error is returned unchanged, before any key is looked at; otherwise the result is that of the key checks |
| `Auth.NonStringIsMissing` | src/auth.rs:39-53 | A required key whose value is present but is not a string gives exactly the same result as a configuration without that key |
| `Auth.TokenPayload` | src/auth.rs:13-21 | The payload has exactly five keys. They carry the three configuration values, `grant_type = client_credentials`, and the fixed scopes string |
| `Auth.PayloadReadsBack` | src/auth.rs:13-21 | Read back as a configuration, the token payload gives the configuration it was built from |
| `Auth.TokenRequest` | src/auth.rs:22-26 | The token request is a POST to the Auth0 token URL, with no bearer token and the payload as its body |
| `Auth.ExtractToken` | src/auth.rs:31-34 | Success holds exactly when `access_token` is a string, and the result is that string; otherwise the error is `no token :/` |
| `Auth.GetAccessToken` | src/auth.rs:11-35 | A configuration error is passed through. A transport error gets the prefix `can't get token: ` and a decoding error the prefix `can't parse token: `. Otherwise the token is extracted from the decoded reply |
| `Auth.TokenComesFromReply` | src/auth.rs:23-34 | A token is only ever returned from a decoded reply to the request built from the configuration read at the chosen path |
| `Users.BatchRequest` | src/users.rs:29-34 | A page request is a GET to the users URL with the bearer token. It has a `nextPage` header, holding the token, exactly when a token is supplied |
| `Users.BatchOf` | src/users.rs:37-44 | A reply is accepted exactly when `Items` is an array; otherwise the error is `no items / next_page`. `nextPage` continues the listing only when it is a JSON string. A reply that is neither an object nor null panics |
| `Users.SingleBatch` | src/users.rs:25-45 | Transport and decoding errors keep their text; a decoded reply is then checked for its shape |
| `Users.Pages` | src/users.rs:10-23 | With no pages left the listing ends with `OutOfFuel`. An error on the first page is the result. A listing that succeeds begins with the first page's items |
| `Users.GetUsers` | src/users.rs:10-23 | The loop returns exactly the listing `Pages` from no token, within the page bound |
| `Users.ChainGivesPages` | src/users.rs:13-22 | For a complete chain of pages, the listing is the concatenation, in page order, of every page's items. The first page is fetched with the starting token (none at the start), each later one with the previous page's `nextPage`, and the listing stops at the first page without a token |
| `Users.PagesGiveChain` | src/users.rs:11-22 | Conversely, every successful listing is the concatenation of such a chain |
| `Users.PageErrorAborts` | src/users.rs:14 | An error on any page that is reached aborts the whole listing with that error, and no partial item list is returned |
| `Users.EndlessTokensExhaustFuel` | src/users.rs:13-21 | If each page the loop requests within the bound, starting from the given token and following each reply's `nextPage`, arrives and hands out another token, the listing never ends: the page bound is used up |
| `Change.SingleRequest` | src/change.rs:16-19 | A single-user request goes to the user URL with the given verb, the bearer token, and the profile as its JSON body |
| `Change.SingleReply` | src/change.rs:20-22 | A send error gets the prefix `change.api: `. A decoding error gets the prefix `change.api → json: ` and is followed by the response in parentheses. Otherwise the result is the decoded reply |
| `Change.ChangeSingleUser` | src/change.rs:7-41 | The whole call trace is fixed: the load; then the signing, exactly when `sign` is set and the load succeeded; then one request, exactly when the load and any signing succeeded, carrying the signed profile if `sign` is set and the loaded one if not. A load error or signing error is the result; otherwise the result is the reply to that request |
| `Change.PostSingleUser` | src/change.rs:7-23 | `post_single_user` is that behaviour with a POST |
| `Change.DeleteSingleUser` | src/change.rs:25-41 | `delete_single_user` is that behaviour with a DELETE |
| `Change.Chunks` | src/change.rs:50 | There are no chunks exactly when there are no profiles. The first chunk is the first four profiles, or all of them when there are fewer |
| `Change.ChunksCount` | src/change.rs:50 | `chunks(4)` of N profiles gives ceil(N/4) chunks |
| `Change.ChunksShape` | src/change.rs:50 | Every chunk holds between one and four profiles, and every chunk but the last holds exactly four |
| `Change.ChunksFlatten` | src/change.rs:50 | The chunks, concatenated, are the input in order, with nothing dropped or duplicated |
| `Change.BulkRequest` | src/change.rs:51-54 | A chunk is posted to the bulk users URL with the bearer token, and the chunk as a JSON array is the body |
| `Change.BulkReply` | src/change.rs:55-56 | As written: a chunk passes exactly when it is sent and its reply body is JSON `null`. Send and decoding errors keep their text |
| `Change.BulkReplyAsIntended` | src/change.rs:55-56 | Corrected: a chunk passes exactly when it is sent and its reply decodes as any JSON value; a failure is the send or decoding error |
| `Change.AsWrittenRejectsObjectReply` | src/change.rs:56 | Every reply that passes as written passes as intended. A reply `{"status":"all good"}` fails as written and passes as intended |
| `Change.PostLotsOfUsers` | src/change.rs:43-60 | A load error is returned after loading only. A value that is not an array sends nothing and gives `{"status":"all good"}`. Otherwise chunk requests go out in order. The first chunk that fails the as-written reply check (send error, decoding error, or a reply other than `null`) ends the upload with that error, and no later chunk is sent. Success holds exactly when every chunk passes. The `sign` flag plays no part |
| `Create.UpdateMetadata` | src/create.rs:10-14 | Both timestamps become the same `now`, the display level becomes the argument, and `verified` is unchanged |
| `Create.Printed` | src/create.rs:24-26 | A printing error gets the prefix `unable to print profile: ` |
| `Create.EmptyProfile` | src/create.rs:16-27 | Only `null`, which prints the skeleton, and `rust`, which prints the default profile, are accepted. Every other type, `create` included, gets the message that names all three. A skeleton parse error gets the prefix `error reading skeleton ` |
| `Create.CreateNewUser` | src/create.rs:29-50 | A skeleton error is passed through. Otherwise the email, user id, active (`true`) and first name are set and stamped with the single `now`. The email and first name are private; user id and active get no display level. The last name is set and stamped only when given, and is otherwise the skeleton's. uuid, picture and all other attributes, and every signature, are the skeleton's |
| `Files.Drain` | src/pictures.rs:76-78 | The bytes that reach the file are a prefix of the bytes offered. Writing stops without error exactly when all of them reached the file |
| `Files.DrainAll` | src/pictures.rs:76-78 | When every write accepts everything it is offered, all the bytes reach the file without error |
| `Files.WriteToFileAsWritten` | src/pictures.rs:73-80 | As written: a creation error is reported. Otherwise the file holds only a prefix of the buffer. A buffer under the writer's capacity is always reported as written |
| `Files.AsWrittenLosesSmallBuffer` | src/pictures.rs:76-78 | As written, a 3-byte buffer whose writes all fail is reported `Ok(())` while the file stays empty |
| `Files.AsWrittenTruncatesLargeBuffer` | src/pictures.rs:77 | As written, a buffer of 8192 bytes of which the system accepts one byte is reported as written, although the file holds one byte |
| `Files.AsWrittenStoresWhenAllAccepted` | src/pictures.rs:73-80 | As written, the whole buffer is stored when the file can be created and every write accepts all it is offered |
| `Files.WriteAll` | src/pictures.rs:73-80 | Corrected: a creation error is reported and leaves no file. Otherwise the file holds a prefix of the buffer, as the file system accepted it. The write succeeds exactly when the file holds the whole buffer |
| `Files.WriteAllOnHealthy` | src/pictures.rs:73-80 | Where every file can be created and every write accepts all it is offered, the corrected write succeeds and stores the whole buffer |
| `Files.WriteAllLoop` | src/pictures.rs:73-80 | Corrected: the loop that offers the rest of the buffer after each partial write gives exactly the corrected outcome `WriteAll`: the same result and the same file contents |
| `Pictures.Renditions` | src/pictures.rs:67-70 | The buffers written are the original bytes and the 40, 100 and 264 pixel renditions, in that order |
| `Pictures.HasPicturePath` | src/pictures.rs:14-21 | The result is present exactly when the picture and the user id are present and the picture has the prefix `https://s3.amazonaws.com/`. It is then `<user_id>.jpg`, and the uuid is not consulted |
| `Pictures.MigratableIsListedWithUuid` | src/pictures.rs:28-33 | `process_picture` proceeds exactly for the profiles `has_picture_path` lists that also have a uuid |
| `Pictures.WriteFiles` | src/pictures.rs:66-71 | Buckets are written in the order raw, 40, 100, 264, at `out_path/<bucket>/<name>`, each with the corrected write of its rendition on the file system. Writing stops at the first failing write, which gives the result. Success holds exactly when all four writes succeed |
| `Pictures.ProcessPicture` | src/pictures.rs:23-64 | A profile without picture, uuid or user id, or with the wrong prefix, gives `None` and nothing is read or written. The source image is read from `in_path/<user_id>.jpg`, and a decode failure gives `None` with no files written. Otherwise the four renditions are written under the internal name of `(uuid, "staff")`, each with the corrected write; writing stops at the first failing write, a `None` comes from that failed last write, and the result is present exactly when all four writes succeed; on a file system where every creation and write succeeds it is always present. The update is the default profile except that `active` and `user_id` are copied and `picture` is rewritten. The rewritten picture has value `/avatar/get/id/` followed by the external name of `(uuid, "staff")`, keeps the source's created timestamp, gets last_modified `now`, is marked verified, and has publisher Mozilliansorg |
| `Pictures.WriteFilesAsWritten` | src/pictures.rs:66-80 | As written, `write_files` succeeds exactly when all four as-written writes report success |
| `Pictures.AsWrittenMigratesOntoFullDisk` | src/pictures.rs:66-80 | As written, on a file system that accepts no byte, four non-empty renditions under the writer's capacity are all reported written, yet every file is empty, and the corrected write reports each failure. Read together with src/pictures.rs:37-52, where a successful `write_files` leads to the update, `process_picture` as written would then return its update |

## Left out

- Image decoding, format sniffing, the aspect-ratio check in floating point, and resizing (`src/resize.rs`) are calls into the `image` crate. `Avatars::new` is the fallible `decode` oracle. `Avatars` in `src/resize.rs:21-25` has no `raw` field, but `src/pictures.rs:67` writes `avatar.raw`; the model has the four buffers that pictures.rs writes.
- `src/name.rs` is not part of this model. `InternalFileName` and `ExternalFileName` are uninterpreted functions of `(uuid, display)`.
- Signing (`src/sign.rs`) and its secret store and environment lookups are reduced to the fallible `signer` oracle.
- Argument parsing and dispatch (`src/app.rs`), `load_json` and settings loading (`src/loader.rs`, `src/settings.rs`), and the module declarations and entry point (`src/lib.rs`, `src/main.rs`) are plumbing. `get_user` and `GetBy`, which `src/app.rs` imports from `users.rs`, are not in the users.rs modelled here.
- HTTP sending, JSON decoding and encoding, and `Utc::now()` are oracles or parameters. The `println!`/`eprintln!` logging is not modelled. JSON numbers are integers, and the key order of JSON objects is not modelled.
- `Users.GetUsers`: the Rust loop is unbounded. The model visits at most `fuel` pages and reports `OutOfFuel` when the bound is used up before a page without a token.
- `Files.WriteToFileAsWritten`: an `Interrupted` error, which `BufWriter`'s flush retries, is treated like any other write error, because a pure oracle would return it forever.
- Paths are lists of components. `PathBuf::join` with a component that is itself an absolute path, which replaces the path, is not modelled.
- A `Profile` carries only the attributes the core touches; all the others are kept as opaque JSON in `others`. Metadata has no `classification`, and a signature is only its publisher and value. Timestamps are text: `create.rs` stamps a `DateTime<Utc>`, while `pictures.rs` stores a formatted string.
- `Pictures.ProcessPicture`: uses the corrected write. The as-written consequence, an update returned while the files are empty, is shown on `write_files` only, by `Pictures.AsWrittenMigratesOntoFullDisk`.
- `Change.BulkReply`: the text of serde_json's error for a reply that is JSON but not `null` is the `unitError` oracle. A body that is not JSON at all is taken to give the same error text whatever type it is read as.

## Findings

| source | as written | input that shows it | evidently intended | confidence | as-written member | corrected member |
|---|---|---|---|---|---|---|
| src/pictures.rs:73-80 | `writer.write(buf)?` on a fresh `BufWriter`. A buffer under 8 KiB is only copied into the writer; it is flushed when the writer is dropped, and that flush's error is discarded. A buffer of 8 KiB or more goes to the file in one write whose byte count is ignored. Either way `Ok(())` can be returned while the file holds less than the buffer | A 3-byte buffer where every write fails ("No space left on device") gives `Ok(())`, and the file is empty. An 8192-byte buffer of which one byte is accepted gives `Ok(())`, and the file holds one byte | Report success only when the whole buffer is in the file (`write_all` and `flush` with `?`) | medium, not executed | `Files.WriteToFileAsWritten` | `Files.WriteAll` |
| src/change.rs:56 | `res.json().map_err(..)?;` names no type for the decoded reply, so the type falls back to `()`. serde_json reads `()` only from `null`, so a chunk fails unless the change API answers `null` | A bulk upload of five profiles whose first reply is `{"status":"all good"}` returns an error and never sends the second chunk | Accept any JSON reply (`res.json::<Value>()`), so that only send and decoding errors stop the upload | medium, not executed | `Change.BulkReply` | `Change.BulkReplyAsIntended` |

`Pictures.WriteFiles`, and therefore `Pictures.ProcessPicture`, use the corrected
`Files.WriteAll` through `Files.WriteAllLoop`. `Change.PostLotsOfUsers` keeps the
as-written reply check `Change.BulkReply`, so its contract shows the effect of the
second finding: an upload whose first reply is not `null` stops after one chunk.
