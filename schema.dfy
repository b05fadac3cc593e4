/** Record shapes and indexes of the three application tables: channels,
    messages and profiles. A stored document is its system id plus the
    fields the table declares; a table is its documents in insertion order. */
module Schema {

  datatype Option<+T> = None | Some(value: T)

  /** System id of a stored document (`_id`); the store hands them out in
      ascending order, so comparing ids compares insertion times. */
  type Id = nat
  /** Id of a row of the authentication `users` table (not part of this model). */
  type UserId = nat
  /** Id of an uploaded blob in file storage (`_storage`). */
  type StorageId = nat
  type Url = string

  /** channels: a name (indexed by `by_name`, not unique) and its creator. */
  datatype Channel = Channel(name: string, createdBy: UserId)

  /** messages: indexed by `by_channel`. */
  datatype Message = Message(channelId: Id, authorId: UserId, content: string)

  /** profiles: indexed by `by_user`; a profile may have no avatar. */
  datatype Profile = Profile(userId: UserId, name: string, avatarId: Option<StorageId>)

  datatype Doc<T> = Doc(id: Id, fields: T)

  // The key each index is built on.
  function ByName(c: Channel): string { c.name }
  function ByChannel(m: Message): Id { m.channelId }
  function ByUser(p: Profile): UserId { p.userId }

  /** Ids strictly increase along the table: its order is insertion order. */
  ghost predicate IdsAscending<T>(table: seq<Doc<T>>)
  {
    forall i, j :: 0 <= i < j < |table| ==> table[i].id < table[j].id
  }

  /** The shape every table of the store keeps: insertion order and every id
      already handed out (below the next fresh id). Nothing is said about the
      fields, so in particular duplicate channel names are allowed. */
  ghost predicate TableValid<T>(table: seq<Doc<T>>, nextId: Id)
  {
    && IdsAscending(table)
    && forall i :: 0 <= i < |table| ==> table[i].id < nextId
  }
}
