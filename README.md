# Chat backend handlers over a three-table document store

This is a Dafny model of the server-side handlers of a small Convex chat
application. The store has three tables, whose shapes and indexes come from
`convex/schema.ts`:

- `channels`: a name and a creator, indexed `by_name`. The index is not unique.
- `messages`: a channel id, an author id and a content string, indexed `by_channel`.
- `profiles`: a user id, a display name and an optional avatar storage id, indexed `by_user`.

The model covers five handlers:

- `messages.send`: refuses a caller without an identity. Otherwise it appends a message authored by the caller.
- `messages.list`: the channel's messages, looked up through `by_channel`, oldest first.
- `profiles.get`: a `by_user` lookup through `.unique()`. It returns no result, or the stored profile plus a derived `avatarUrl`.
- `profiles.update`: refuses a caller without an identity. Otherwise it upserts the caller's profile:
  - an existing profile is patched in place;
  - the name always overwrites;
  - the avatar overwrites only when one is supplied;
  - with no existing profile, a new one is inserted.
- `profiles.generateUploadUrl`: an authentication guard around file storage.

Layout:

- `schema.dfy` (module `Schema`): record datatypes, and `Doc` (system id plus fields). It also defines the three index keys and the table shape `TableValid`: ids ascend in insertion order and stay below the next fresh id.
- `store.dfy` (module `Store`): the document store.
  - `Query` is an index lookup. `Unique` is `.unique()`, including its throw when more than one document matches.
  - `Database` is a class holding one `seq` per table and the id counter. Its methods `InsertMessage`, `InsertProfile` and `PatchProfile` model `ctx.db.insert` and `ctx.db.patch`.
- `messages.dfy` (module `Messages`) and `profiles.dfy` (module `Profiles`): the handlers, one module per source file.
  - Each mutation is a method over a `Database`. Its postcondition ties the new table to a pure function of the old state: `AfterSend` for `send`, `AfterUpdate` for `update`.
  - The properties are proved as lemmas about those functions, and about `List` and `Get`.
  - A few scenario methods run several handlers on a fresh store and state the observable result.

External collaborators are parameters:

- the caller's identity (`getAuthUserId`) is an `Option<UserId>`;
- file storage's `getUrl` is a function `StorageId -> Option<Url>`;
- the URL returned by `generateUploadUrl` in file storage is an opaque `Url`.

The handlers check nothing beyond authentication:

- `send` checks neither that the channel exists nor that the content is non-empty.
- `update` does not reject an empty name.
- Channel names are not unique.

## Model

| member | source | states |
|---|---|---|
| `Store.Query` | convex/messages.ts:25-28 | an index equality lookup returns exactly the documents of the table whose index key equals the argument (none missing, none extra) and never more than the table holds |
| `Store.QueryKeepsOrder` | convex/schema.ts:15 | a lookup over a table in insertion order (ascending ids) is itself in insertion order |
| `Store.QueryNoMatch` | convex/profiles.ts:8-11 | a lookup for a key no document carries is empty |
| `Store.QueryAppend` | convex/messages.ts:14-18 | inserting one document extends each lookup by that document exactly when its key matches, and leaves other lookups equal |
| `Store.QueryConcat` | convex/messages.ts:25-28 | a lookup over two runs of inserts is the lookup over the first run followed by the lookup over the second |
| `Store.Unique` | convex/profiles.ts:11 | `.unique()` throws exactly when more than one document matches, finds nothing exactly when none does, and otherwise returns the single match |
| `Store.InsertKeepsTableValid` | convex/messages.ts:14-18 | inserting with the next fresh id keeps ids ascending and below the counter, whatever the fields are |
| `Store.DuplicateChannelNames` | convex/schema.ts:6-9 | a channel whose name is already taken can still be inserted, and a `by_name` lookup then returns the older channels followed by the new one |
| `Store.Database.constructor` | convex/schema.ts:5-22 | the store starts with three empty tables |
| `Store.Database.InsertMessage` | convex/messages.ts:14-18 | `insert` appends exactly one message with a fresh id, bumps the counter and leaves the other tables as they were |
| `Store.Database.InsertProfile` | convex/profiles.ts:42-46 | `insert` appends exactly one profile with a fresh id, bumps the counter and leaves the other tables as they were |
| `Store.Database.PatchProfile` | convex/profiles.ts:37-40 | `patch` of an id in the table rewrites only that document (ids unchanged). An id not in the table throws and changes nothing |
| `Messages.AfterSend` | convex/messages.ts:10-18 | `send` fails, with "Not authenticated", exactly when there is no caller. So any content and any channel id are accepted. On success it adds exactly one message: the old messages stay as a prefix, and the new one has the fresh id, the caller as author, and the given channel id and content |
| `Messages.Send` | convex/messages.ts:5-20 | the handler returns the outcome `AfterSend` gives. On success the messages table is `AfterSend`'s table. On failure nothing is written. Channels and profiles never change |
| `Messages.List` | convex/messages.ts:22-30 | `list(c)` contains exactly the stored messages whose `channelId` is `c` |
| `Messages.ListInInsertionOrder` | convex/messages.ts:25-28 | `list(c)` returns the channel's messages oldest first |
| `Messages.ListAfterSend` | convex/messages.ts:14-28 | a successful `send` to channel A extends `list(A)` by exactly the new message and leaves `list(B)` unchanged for every B ≠ A |
| `Messages.ListOfOneChannel` | convex/messages.ts:25-28 | over messages that all belong to channel `c`, `list(c)` is all of them in order |
| `Messages.SendsListInOrder` | convex/messages.ts:14-28 | messages appended by N sequential sends to `c` appear at the end of `list(c)` in send order |
| `Messages.TwoChannelsListed` | convex/messages.ts:25-28 | over "hi" to `general`, a message to another channel, then "hello" to `general`, `list(general)` shows "hi" then "hello" |
| `Messages.ChatScenario` | convex/messages.ts:5-30 | on a fresh store an anonymous send is refused with "Not authenticated" and writes nothing. After sends of "hi" (general), another message (a second channel) and "hello" (general), `list(general)` shows "hi", "hello" |
| `Profiles.OneProfilePerUser` | convex/profiles.ts:8-11 | with at most one profile per user, a `by_user` lookup finds at most one profile |
| `Profiles.SharedOwnerFoundTwice` | convex/schema.ts:21 | two profiles of the same user both appear in that user's `by_user` lookup |
| `Profiles.LookupUniqueIff` | convex/schema.ts:21 | "at most one profile per user" holds exactly when every `by_user` lookup finds at most one profile (both directions) |
| `Profiles.Get` | convex/profiles.ts:5-20 | `get` returns null exactly when no profile has the user id. Otherwise it returns that profile's `_id`, `userId`, `name` and `avatarId`, plus `avatarUrl`: null without an avatar, otherwise `getUrl(avatarId)`. It throws only on several matches |
| `Profiles.GetNeverThrows` | convex/profiles.ts:8-11 | with at most one profile per user, `get` always returns (its `.unique()` cannot throw) |
| `Profiles.AfterUpdate` | convex/profiles.ts:27-48 | `update` without a caller fails with "Not authenticated". With a caller it throws exactly when the caller's `by_user` lookup finds more than one profile (the `.unique()` throw) |
| `Profiles.UpdateInsertsWhenAbsent` | convex/profiles.ts:41-46 | a caller without a profile gets exactly one new profile appended: fresh id, `userId` = caller, the given name, and `avatarId` only if supplied. Old profiles are untouched |
| `Profiles.UpdatePatchesWhenPresent` | convex/profiles.ts:36-40 | a caller's existing profile stays in place with the same `_id` and `userId`. The name is replaced. The avatar is replaced when one is supplied and kept otherwise. Every other profile is unchanged and nothing is inserted |
| `Profiles.InsertKeepsOnePerUser` | convex/profiles.ts:41-46 | appending a profile for a user who had none keeps at most one profile per user |
| `Profiles.PatchKeepsOnePerUser` | convex/profiles.ts:37-40 | a patch changes no id and no owner, so it keeps the table shape and at most one profile per user |
| `Profiles.UpdateKeepsOneProfilePerUser` | convex/profiles.ts:31-47 | `update` preserves at most one profile per user and the table shape. Under that invariant it fails exactly when there is no caller |
| `Profiles.Update` | convex/profiles.ts:22-49 | the handler returns the outcome `AfterUpdate` gives. On success the profiles table is `AfterUpdate`'s table. On failure nothing is written. The id counter moves only when a profile is inserted. Channels and messages never change |
| `Profiles.GenerateUploadUrl` | convex/profiles.ts:51-58 | refuses, with "Not authenticated", exactly when there is no caller. Otherwise it returns the URL file storage issued |
| `Profiles.FirstUpdateScenario` | convex/profiles.ts:5-49 | a first `update` named "Ann" without an avatar creates a profile, and `get` then shows the name with a null `avatarUrl` |
| `Profiles.AnonymousUpdateScenario` | convex/profiles.ts:28-29 | an anonymous `update` throws "Not authenticated" and `get` then finds no profile |
| `Profiles.RenameKeepsAvatar` | convex/profiles.ts:36-46 | on an empty store `update("Y", avatar a)` inserts the profile with id 0. On that one-profile table `update("X")` patches the name and keeps avatar `a` |
| `Profiles.GetOnlyProfile` | convex/profiles.ts:8-19 | when the table holds only the user's profile, `get` returns that profile with `avatarUrl` resolved through `getUrl` (null without an avatar) |
| `Profiles.AvatarRetainedScenario` | convex/profiles.ts:36-40 | `update("Y", avatar a)` then `update("X")` leaves name "X", keeps avatar `a`, and `get` resolves its URL |

## Left out

- Live queries, subscriptions and change notification: the handlers contain no notifier. Re-delivery of `list` and `get` results belongs to the Convex platform. At the level of query results, `Messages.ListAfterSend` states what a send can and cannot change.
- `channels.list`, `channels.create` and `auth.loggedInUser`: no source for them is part of this model, so no channel is ever written. Only the channel record, its `by_name` index and the absence of a uniqueness rule on names are modelled.
- `getAuthUserId`, `ctx.storage.getUrl` and `ctx.storage.generateUploadUrl`: foreign calls. They are parameters: an `Option<UserId>`, a function `StorageId -> Option<Url>` and an opaque `Url`.
- `_creationTime` is not a field. Insertion time is the position in the table, which matches the ascending order of ids. Consequently the `get` result carries no `_creationTime`.
- Convex ids are opaque strings. Here they are natural numbers handed out by one counter shared by all tables.
- Argument validators (`v.id`, `v.string`, `v.optional`): they become the Dafny parameter types.
- Concurrency and transaction isolation: each handler runs as one atomic step on the `Database` object.
- The React client (the UI in `src/App.tsx`, including its empty-message guard) and `src/components/Button.tsx`: presentation only.
