# SandboxBackend player store, in Dafny

This project models the player-record store of SandboxBackend, a small Go/Gin
backend for a game proxy and hub. Players live in one JSON file
(`players.json`). Five HTTP handlers work on it, and each runs one transaction:

1. load every record;
2. scan for the first record whose uuid matches;
3. then either create and append a default record, overwrite one field of the
   found record, or return a read-only view;
4. write the whole list back when it created a record or overwrote a field,
   even when the new value equals the old one.

Files:

- `wrappers.dfy`: the `Option` and `Result` types. `Option` stands for Go's
  nil pointers and undecodable payloads.
- `models.dfy` (module `Models`, for `models/player.go`):
  - the value types `Player`, `Inventory` and `SandboxInventory`;
  - `FileState`, what the file holds: unreadable, undecodable, or a list of
    records;
  - the class `PlayerStore`. `Load` returns the records or an error. `Save`
    replaces the whole list when the write goes through.
- `player_routes.dfy` (module `PlayerRoutes`, for `routes/player_routes.go`):
  - `IndexOf`, the first-match lookup, and `FindPlayer`, the loop that
    computes it;
  - each handler twice:
    - a pure step function from the store before the request to the store
      after it, together with the response;
    - an imperative method over a `PlayerStore`, proved to carry out exactly
      that step.
- `player_properties.dfy` (module `PlayerProperties`): lemmas about the step
  functions. They include the store invariants (at most one record per uuid;
  an inventory, once present, stays present), proved for any sequence of
  requests whose failed writes fail before they touch the file.

Responses are the `Response` datatype:

| `Response` | HTTP status |
|---|---|
| `Ok(body)` | 200 |
| `BadRequest` | 400 |
| `NotFound` | 404 |
| `ServerError(message)` | 500, with the source's message strings |
| `NilDereference` | 500 |

`NilDereference` covers one case. SetInvContents and SetArmorContents write
through `Inventory` without a nil check (`routes/player_routes.go:200`, `:247`).
On a record with no inventory that write panics. Gin's recovery middleware
(installed by `gin.Default()`) turns the panic into a 500, and the save is never
reached. The model makes this an explicit outcome that leaves the store as it
was.

Two consequences of the code are worth stating:

- GetPlayer on a hit returns the stored record exactly as stored. A record
  written without an inventory therefore comes back without one. Only the
  default-creation path guarantees that the inventory is present.
- The inventory writers never create a missing inventory and have no error
  response of their own for it. They panic; see `NilDereference` above.

Inputs that come from outside the program are parameters:

- the uuid from the path;
- the decoded JSON body, as an `Option` where `None` means the body did not
  decode;
- the outcome of the file write, as the boolean `writeOk`.

## Model

| member | source | states |
|---|---|---|
| `Models.PlayerStore.Load` | models/player.go:30-42 | returns the whole stored sequence when the file holds decoded records, and a read or decode error otherwise |
| `Models.PlayerStore.Save` | models/player.go:44-52 | on a successful write the file becomes exactly the given sequence, order kept; on a failed write it reports the error and leaves the file unchanged |
| `Models.LoadAfterSave` | models/player.go:30-52 | a load after a successful save returns exactly the sequence saved |
| `Models.SaveLoadedIsNoOp` | models/player.go:30-52 | saving what was just loaded leaves the store unchanged, for a successful write or a write that fails before it touches the file |
| `PlayerRoutes.IndexOf` | routes/player_routes.go:91-97 | the result is the first index whose uuid equals the key: it matches and no earlier record does; no result exactly when no record matches |
| `PlayerRoutes.FindPlayer` | routes/player_routes.go:45-51 | the range-and-break loop returns the first matching index, or nothing when no record matches; it agrees with IndexOf |
| `PlayerRoutes.GetPlayerStep` | routes/player_routes.go:33-76 | a load failure is a 500 with the load message and no change; on a loaded store it succeeds exactly when the uuid is found or the write goes through, and a miss whose write fails is a 500 with the save message and no change (for a write that fails before it touches the file); a success returns a record with the requested uuid; the only change it can make is appending the default record for the uuid |
| `PlayerRoutes.SetRankStep` | routes/player_routes.go:78-123 | a load failure is a 500 with the load message; a miss is NotFound; a hit with an undecodable payload is BadRequest, and BadRequest happens only on a hit, because the lookup comes before payload decoding; a hit with a decoded payload succeeds exactly when the write goes through and is otherwise a 500 with the save message; every failure leaves the store unchanged, for a failed write that fails before it touches the file |
| `PlayerRoutes.InventoryResponse` | routes/player_routes.go:125-163 | a load failure is a 500 with the load message; a miss is NotFound; it succeeds exactly when the store loads and holds the uuid, and the view carries the requested uuid |
| `PlayerRoutes.SetInvContentsStep` | routes/player_routes.go:165-210 | an undecodable payload is BadRequest before anything else; with a decoded payload, a load failure is a 500 with the load message and a miss is NotFound; a nil dereference happens exactly on a found record with no inventory; a found record with an inventory succeeds exactly when the write goes through and is otherwise a 500 with the update message; every failure leaves the store unchanged, for a failed write that fails before it touches the file |
| `PlayerRoutes.SetArmorContentsStep` | routes/player_routes.go:212-257 | the same error outcomes as SetInvContentsStep, in the same order, for the armor contents |
| `PlayerRoutes.GetPlayer` | routes/player_routes.go:33-76 | load, scan, then append and save on a miss; the new store and the response are those of GetPlayerStep |
| `PlayerRoutes.SetRank` | routes/player_routes.go:78-123 | load, scan, NotFound, then decode the payload, update in place and save; the new store and the response are those of SetRankStep |
| `PlayerRoutes.GetInvContents` | routes/player_routes.go:125-163 | changes nothing; its response is InventoryResponse of the current store |
| `PlayerRoutes.SetInvContents` | routes/player_routes.go:165-210 | decode the payload, load, scan, write the contents in place and save; the new store and the response are those of SetInvContentsStep |
| `PlayerRoutes.SetArmorContents` | routes/player_routes.go:212-257 | decode the payload, load, scan, write the armor in place and save; the new store and the response are those of SetArmorContentsStep |
| `PlayerProperties.IndexOfSameIds` | routes/player_routes.go:139-144 | the lookup depends only on the uuids, so rewriting other fields never changes which record a key finds |
| `PlayerProperties.IndexOfAppendNew` | routes/player_routes.go:46-64 | appending a record for an absent uuid makes that record the one found |
| `PlayerProperties.ShadowedNeverFound` | routes/player_routes.go:186-191 | with duplicate uuids, a later duplicate is never the record found, so it is never returned or mutated |
| `PlayerProperties.GetPlayerHit` | routes/player_routes.go:45-51 | on a hit, the stored record is returned unchanged and the store is not written |
| `PlayerProperties.GetPlayerMiss` | routes/player_routes.go:53-75 | on a miss, exactly one record {uuid, "DEFAULT", "DEFAULT", empty inventory} is appended at the end; earlier records keep their order and values; the response is that record, and it is the only one with that uuid |
| `PlayerProperties.GetPlayerIdempotent` | routes/player_routes.go:45-75 | after a successful GetPlayer, a second one returns the same record and writes nothing, whatever the write outcome |
| `PlayerProperties.SetRankUnknownUuid` | routes/player_routes.go:90-103 | an unknown uuid gives NotFound and leaves the store unchanged, even with an undecodable payload |
| `PlayerProperties.SetRankChangesOnlyRank` | routes/player_routes.go:112-122 | sets playerRank of the first matching record to any string; staffRank, inventory and all other records are unchanged; the uuid still finds that record |
| `PlayerProperties.SetRankIdempotent` | routes/player_routes.go:112-116 | applying the same rank twice gives the same store as applying it once |
| `PlayerProperties.InventoryResponseHit` | routes/player_routes.go:152-162 | a hit returns the requested uuid with the record's two blobs, or empty blobs when the inventory is absent |
| `PlayerProperties.SetContentsNilInventory` | routes/player_routes.go:199-200 | a found record with no inventory makes both inventory writers dereference nil; nothing is saved |
| `PlayerProperties.SetContentsBadPayload` | routes/player_routes.go:170-175 | an undecodable payload is BadRequest before the store is read, even for an unknown uuid or an unreadable store |
| `PlayerProperties.SetInvContentsChangesOnlyContents` | routes/player_routes.go:199-209 | only Inventory.Contents of the first matching record changes, to the payload's "invContents" (empty when missing); armor, ranks and other records are unchanged |
| `PlayerProperties.SetArmorContentsChangesOnlyArmor` | routes/player_routes.go:246-256 | only Inventory.ArmorContents of the first matching record changes, to the payload's "armorContents" (empty when missing); everything else is unchanged |
| `PlayerProperties.SetInvContentsThenGet` | routes/player_routes.go:153-209 | after a successful contents write, the inventory view shows the blob just written and the armor blob it showed before |
| `PlayerProperties.SetArmorContentsThenGet` | routes/player_routes.go:153-256 | after a successful armor write, the inventory view shows the blob just written and the contents blob it showed before |
| `PlayerProperties.ArmorAfterContents` | routes/player_routes.go:199-256 | a contents write and then an armor write to a record with an inventory leave it holding both payload values, and every other record unchanged |
| `PlayerProperties.ContentsAfterArmor` | routes/player_routes.go:199-256 | an armor write and then a contents write produce that same store |
| `PlayerProperties.InventoryWritesCommute` | routes/player_routes.go:200-247 | a contents write and an armor write give the same store in either order |
| `PlayerProperties.HandlePreservesInvariants` | routes/player_routes.go:33-257 | every handler keeps at most one record per uuid, keeps each record in place with its uuid, and never drops an inventory |
| `PlayerProperties.RunPreservesInvariants` | routes/player_routes.go:33-257 | any sequence of requests, each handled as one transaction, keeps those invariants |
| `PlayerProperties.LoadFailureIsServerError` | routes/player_routes.go:38-43 | with an unreadable or undecodable store, every handler answers 500 with the load message and changes nothing, except an inventory writer whose payload already failed to decode, which answers BadRequest; the error text is "Failed to load player data" or "Invalid request payload" |
| `PlayerProperties.FailedWriteIsServerError` | routes/player_routes.go:68-72 | a failed write never leaves the store changed; a handler that reaches the save then answers 500 with its save or update message, never 200; a handler that does not reach the save answers as if the write had succeeded |
| `PlayerProperties.SuccessfulWriteIsOk` | routes/player_routes.go:112-122 | a handler that reaches the save and whose write goes through answers 200 |
| `PlayerProperties.MissIsNotFound` | routes/player_routes.go:240-244 | an unknown uuid is NotFound with no change for SetRank, GetInvContents and, once their payload has decoded, both inventory writers; its error text is "Player not found" |
| `PlayerProperties.FailedRequestLeavesStore` | routes/player_routes.go:199-256 | in the model, where a failed write fails before it touches the file, only a 200 response can come with a changed store: 400, 404 and 500 responses never leave a partial update; a response carries no error text exactly when it is 200 or the nil-dereference panic |

## Left out

- Gin plumbing is not modelled: `c.Param`, `c.BindJSON`, `c.JSON` and the JSON text. The uuid and the decoded payload are inputs; the response is a `Response` value.
- The file system is not modelled. `os.ReadFile` and `os.WriteFile` become the `FileState` field of `PlayerStore` and the `writeOk` outcome parameter.
- `Models.PlayerStore.Save`: a failed write leaves the store as it was, that is, the model's failed write fails before it touches the file (for example when the file cannot be opened). Two other failures of `os.WriteFile` are not captured. First, it opens the file with truncation, so a write that fails partway leaves a truncated file, and every later load then fails. Second, an error from closing the file after a complete write is reported as a failure although the file already holds the new list. GetPlayer then answers 500 "Failed to save player data" after the new record was persisted, and SetRank, SetInvContents and SetArmorContents answer 500 after their change was persisted.
- PlayerProperties.FailedWriteIsServerError: holds only for a write that fails before it touches the file; a partial write leaves the store truncated, and a failed close leaves the store changed while the handler answers 500.
- PlayerProperties.FailedRequestLeavesStore: holds only for a write that fails before it touches the file; after a partial write or a failed close, a 500 response comes with a changed store.
- PlayerRoutes.SetRankStep: "every failure leaves the store unchanged" holds only for a write that fails before it touches the file, for the same reason.
- PlayerRoutes.SetInvContentsStep: "every failure leaves the store unchanged" holds only for a write that fails before it touches the file.
- PlayerRoutes.SetArmorContentsStep: "every failure leaves the store unchanged" holds only for a write that fails before it touches the file.
- PlayerRoutes.GetPlayerStep: "a miss whose write fails leaves the store unchanged" holds only for a write that fails before it touches the file.
- `json.MarshalIndent` is not modelled as a failure path. It cannot fail on records made only of strings.
- Concurrency is not modelled. No lock guards the load-modify-save cycle, so two concurrent requests can lose an update. Each handler here is one sequential transaction.
- `fmt.Println` logging is not modelled.
- The `Ranks` constants and the `SandboxPlayer` type (`routes/player_routes.go:10-26`) are not used by the handlers, so they are not modelled. A rank is a plain string. `SetRankPayload`, the body SetRank decodes, is modelled as `RankPayload`.
- `routes/server_routes.go`, `main.go` and `middleware/auth.go` are not part of this model. They hold a hard-coded server list, an outbound HTTP call, route registration and a constant API-key comparison.
- The uniqueness of uuids is a store invariant. The handlers preserve it for uuids that are valid UTF-8, but nothing enforces it on a file written from outside. With duplicates, only the first record is ever read or written.
- Go strings are byte sequences, while a Dafny `string` holds Unicode characters, so the model cannot express invalid UTF-8. A uuid taken from the decoded URL path can hold invalid bytes (for example `%FF`). `json.MarshalIndent` saves such bytes as U+FFFD, so the record read back has a different uuid. In that case `GET /players/%FF` appends another default record on every call, and the file collects duplicate uuids. The members below are therefore proved only for valid UTF-8.
- Models.LoadAfterSave: the save-then-load round trip holds only when every field is valid UTF-8.
- PlayerProperties.GetPlayerIdempotent: holds only for a uuid that is valid UTF-8; otherwise every call appends a new record.
- PlayerProperties.HandlePreservesInvariants: uniqueness of uuids is kept only for uuids that are valid UTF-8. Keeping every record in place with its uuid and inventory holds only for a write that fails before it touches the file. A partial write leaves `players.json` truncated and undecodable, and every record is gone.
- PlayerProperties.RunPreservesInvariants: uniqueness of uuids is kept only for uuids that are valid UTF-8. Keeping every record in place holds only when no write in the sequence fails partway; a partial write leaves the file undecodable and every record gone.
- Models.SaveLoadedIsNoOp: the failed-write half holds only for a write that fails before it touches the file. A partial write of the loaded list leaves the file undecodable and every record gone.
