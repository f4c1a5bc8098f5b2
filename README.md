# Playground room logic, modelled in Dafny

The playground page of the netless-app repository joins a whiteboard room.
The room SDK and the window manager do the real work. The room module
(`packages/playground/src/room.ts`) adds three small pieces of decision logic
on top of them, and this project models and proves those three:

- **`prepare`** resolves a room's `{uuid, roomToken}` pair. It tries four
  sources in order: the query string (only when both parameters are present),
  the first persisted room, the compiled-in environment defaults, and, when an
  admin token is configured and the user confirms, a freshly created room. It
  returns `undefined` unless both fields end up truthy. `Room.Prepare`
  reassigns the two locals step by step, as the source does. It is proved
  equal to a declarative reference, `Room.FirstComplete`: the first candidate
  whose two fields are both truthy. Both `undefined` and `""` count as
  missing (`Js.Truthy`).
- **`joinRoom`** (its user-id part) reuses the `"uid"` stored in
  `sessionStorage` when it is truthy. Otherwise it stores a generated id.
  `Room.SessionStorage.JoinUid` updates the storage map in place, and
  `Room.SessionUid` is its specification.
- **`reset`** (its attribute part) visits every key of the manager's
  attribute table. It deletes keys matching `/-[-_a-zA-Z0-9]{8}$/`, sets
  `"apps"` to `{}` and leaves every other key alone. The regular expression
  is modelled the way `RegExp.prototype.test` runs it: an unanchored search
  over start positions (`Room.SearchFrom`) for a `-`, eight class characters
  (`Room.RunOfIdChars`) and the end of the string.
  `Room.Manager.ClearAttributes` loops over the snapshot of keys in any
  order, calling `Room.Manager.UpdateAttribute` as the source calls
  `updateAttributes`.

Inputs that come from outside the code:

- The query string is a `map<string, string>` holding each parameter's first
  value, as `URLSearchParams.get` returns it.
- The persisted `"rooms"` list is already parsed.
- `window.confirm`'s answer and `createRoom`'s answer are parameters.
- The generated uuid is a parameter. It is required to be non-empty, as a
  generated uuid always is.

Files: `js.dfy` holds JavaScript values: `undefined` as `Option`,
truthiness, and JSON values for attributes. `room.dfy` holds the room
module.

## Model

| member | source | states |
|---|---|---|
| `Room.FirstComplete` | packages/playground/src/room.ts:20-52 | The resolved pair is undefined exactly when no candidate has two truthy fields. Otherwise it is the first such candidate, and both of its fields are non-empty, so a half-filled pair is never returned. |
| `Room.FirstCompleteAppend` | packages/playground/src/room.ts:26-46 | Later sources are consulted only when the earlier ones gave no complete pair. |
| `Room.Prepare` | packages/playground/src/room.ts:16-53 | The step-by-step reassignment returns the first complete candidate among query pair, first stored room, env defaults and created room. The user is asked exactly when the admin token is set and no source is complete. A room is created, and a reload requested, exactly when the user then confirms. |
| `Room.QueryWins` | packages/playground/src/room.ts:20-26 | A query with both parameters non-empty yields exactly that pair; stored rooms and env defaults are not consulted. |
| `Room.StoredRoomWins` | packages/playground/src/room.ts:26-31 | Without a complete query pair, a complete first stored room wins, even when the query held one of the two values. |
| `Room.EnvDefaultsWin` | packages/playground/src/room.ts:33-36 | Without a complete query pair or stored room, complete env defaults win. |
| `Room.CreatedRoomOnlyAsFallback` | packages/playground/src/room.ts:38-50 | When no source is complete, the result is the created room if the admin token is set, the user confirmed and the room is complete. Otherwise it is undefined. |
| `Room.SessionUid` | packages/playground/src/room.ts:56-60 | A truthy stored uid is reused and the storage is unchanged. Otherwise the generated uid is returned and stored under `"uid"`, and nothing else in the storage changes. |
| `Room.SecondJoinReusesUid` | packages/playground/src/room.ts:56-60 | A second join in the same session returns the first join's uid and leaves the storage as the first join left it. |
| `Room.SessionStorage.JoinUid` | packages/playground/src/room.ts:56-60 | Updates the storage in place as `SessionUid` says and returns a non-empty uid. |
| `Room.RunOfIdChars` | packages/playground/src/room.ts:90 | `[-_a-zA-Z0-9]{n}` matches at position i exactly when the next n characters exist and are all in the class. |
| `Room.SearchFrom` | packages/playground/src/room.ts:90 | The search from position i succeeds exactly when the pattern matches at some start position at or after i. |
| `Room.GeneratedKeyShape` | packages/playground/src/room.ts:89-90 | `IsGeneratedKey`, the model of `/-[-_a-zA-Z0-9]{8}$/.test(key)` that the cleanup branches on, holds of a key exactly when its length is at least 9, the character at length-9 is `-`, and each of the last 8 characters is in `[-_a-zA-Z0-9]`. |
| `Room.AppsIsNotGenerated` | packages/playground/src/room.ts:90-93 | `"apps"` never matches the pattern, so it always takes the reset-to-`{}` branch. |
| `Room.Cleaned` | packages/playground/src/room.ts:88-95 | The table after cleanup keeps exactly the original keys that do not match the pattern. `"apps"`, if present, maps to `{}`. Every other kept key keeps its value, and no key is added. |
| `Room.Manager.UpdateAttribute` | packages/playground/src/room.ts:91-93 | Setting a key to `undefined` removes it; any other value replaces the key's value; no other key changes. |
| `Room.Manager.ClearAttributes` | packages/playground/src/room.ts:88-95 | Visiting the keys in any order leaves the table equal to `Cleaned` of the original table. |

## Left out

- Closing the apps (`Promise.all` over `manager.closeApp`, room.ts:86) is left out. These are concurrent calls into the window manager. Whatever they do to the attribute table has happened before the cleanup starts, which is where the model begins.
- `moveCamera`, `cleanCurrentScene` and `location.reload` in `reset` are left out. They are rendering and page effects with no logic beyond being called, or called when a flag is set.
- The SDK instance, `sdk.joinRoom` with its fixed option bundle, `WindowManager.mount`, `switchMainViewToWriter`, restoring the drawing tool, the global `window.room`/`window.manager` handles and the `tools` list are left out. They are third-party SDK calls and plumbing.
- `clearQueryString`, `createRoom`, `window.confirm` and the faker generators are not modelled as behaviour. `createRoom`'s and `confirm`'s answers and the generated uuid are inputs.
- `JSON.parse` of the persisted `"rooms"` string is left out; the model receives the parsed list. Persisted elements that are not objects are not modelled: every element is a record whose two fields may each be missing or be a string. Stored fields holding non-string JSON values (numbers, booleans, objects) are not modelled either. The source would test those for truthiness and return them unchanged, for example `{uuid: 7, roomToken: true}`.
- `Room.Manager.UpdateAttribute`: `updateAttributes([key], undefined)` is taken to remove the key. The SDK's own storage semantics are not part of this model.
- Dafny strings here are sequences of Unicode scalar values, while JavaScript's `length` and indexing count UTF-16 code units. So the lengths and positions in `Room.GeneratedKeyShape` count characters. Whether a key matches still agrees, because the last nine characters of a matching key are all ASCII.
- Async suspension points are not modelled; each operation runs to completion.
