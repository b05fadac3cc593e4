/** The document store the handlers run against (`ctx.db`): index lookups,
    `.unique()`, and the `insert` and `patch` writes, over tables kept in
    insertion order with ids from one ascending counter. */
module Store {
  import opened Schema

  /** What a handler throws. */
  datatype Error =
    | NotAuthenticated  // `new Error("Not authenticated")`
    | MultipleMatches   // `.unique()` met more than one document
    | NotFound          // `patch` of an id that is not in the table

  datatype Result<+T> = Ok(value: T) | Err(error: Error)
  {
    /** The outcome of a handler that returns nothing. */
    function Void(): (r: Result<()>)
      ensures r.Ok? <==> this.Ok?
      ensures r.Err? ==> r.error == this.error
    {
      match this
      case Ok(_) => Ok(())
      case Err(e) => Err(e)
    }
  }

  /** `.withIndex(index, q => q.eq(field, k)).collect()`: the documents whose
      index key is `k`, in table order. */
  function Query<T(!new), K(==)>(table: seq<Doc<T>>, key: T -> K, k: K): (r: seq<Doc<T>>)
    ensures |r| <= |table|
    ensures forall d :: d in r <==> d in table && key(d.fields) == k
    decreases |table|
  {
    if table == [] then []
    else
      var last := table[|table| - 1];
      Query(table[..|table| - 1], key, k) + (if key(last.fields) == k then [last] else [])
  }

  /** A lookup keeps insertion order: its ids ascend as the table's do. */
  lemma {:induction false} QueryKeepsOrder<T(!new), K>(table: seq<Doc<T>>, key: T -> K, k: K)
    requires IdsAscending(table)
    ensures IdsAscending(Query(table, key, k))
    decreases |table|
  {
    if table != [] {
      var prefix, last := table[..|table| - 1], table[|table| - 1];
      var front := Query(prefix, key, k);
      assert IdsAscending(prefix) by {
        forall i, j | 0 <= i < j < |prefix| ensures prefix[i].id < prefix[j].id {
          assert prefix[i] == table[i] && prefix[j] == table[j];
        }
      }
      QueryKeepsOrder(prefix, key, k);
      forall d | d in front ensures d.id < last.id {
        var i :| 0 <= i < |prefix| && prefix[i] == d;
        assert table[i] == d;
      }
      var r := front + (if key(last.fields) == k then [last] else []);
      forall i, j | 0 <= i < j < |r| ensures r[i].id < r[j].id {
        if j < |front| {
          assert r[i] == front[i] && r[j] == front[j];
        } else {
          assert r[i] in front;
        }
      }
    }
  }

  /** A lookup for a key no document carries finds nothing. */
  lemma {:induction false} QueryNoMatch<T(!new), K>(table: seq<Doc<T>>, key: T -> K, k: K)
    requires forall d :: d in table ==> key(d.fields) != k
    ensures Query(table, key, k) == []
    decreases |table|
  {
    if table != [] {
      var prefix := table[..|table| - 1];
      assert table[|table| - 1] in table;
      forall d | d in prefix ensures key(d.fields) != k {
        var i :| 0 <= i < |prefix| && prefix[i] == d;
        assert table[i] == d;
      }
      QueryNoMatch(prefix, key, k);
    }
  }

  /** Appending one document extends a lookup by that document exactly when
      its key matches, and leaves it alone otherwise. */
  lemma QueryAppend<T(!new), K>(table: seq<Doc<T>>, d: Doc<T>, key: T -> K, k: K)
    ensures Query(table + [d], key, k) == Query(table, key, k) + (if key(d.fields) == k then [d] else [])
  {
    assert (table + [d])[..|table|] == table;
  }

  /** A lookup over two runs of inserts is the lookup over the first run
      followed by the lookup over the second. */
  lemma {:induction false} QueryConcat<T(!new), K>(s: seq<Doc<T>>, t: seq<Doc<T>>, key: T -> K, k: K)
    ensures Query(s + t, key, k) == Query(s, key, k) + Query(t, key, k)
    decreases |t|
  {
    if t == [] {
      assert s + t == s;
    } else {
      var t', d := t[..|t| - 1], t[|t| - 1];
      assert s + t == (s + t') + [d];
      assert t == t' + [d];
      QueryAppend(s + t', d, key, k);
      QueryAppend(t', d, key, k);
      QueryConcat(s, t', key, k);
    }
  }

  /** `.unique()`: no document, exactly one, or a throw on more than one. */
  function Unique<T>(matches: seq<T>): (r: Result<Option<T>>)
    ensures r.Err? <==> |matches| > 1
    ensures r == Ok(None) <==> matches == []
    ensures r.Ok? && r.value.Some? ==> matches == [r.value.value]
  {
    if |matches| == 0 then Ok(None)
    else if |matches| == 1 then Ok(Some(matches[0]))
    else Err(MultipleMatches)
  }

  /** Inserting a document with the next fresh id keeps the table's shape,
      whatever its fields are. */
  lemma InsertKeepsTableValid<T>(table: seq<Doc<T>>, nextId: Id, fields: T)
    requires TableValid(table, nextId)
    ensures TableValid(table + [Doc(nextId, fields)], nextId + 1)
  {
    var t := table + [Doc(nextId, fields)];
    forall i, j | 0 <= i < j < |t| ensures t[i].id < t[j].id {
      if j < |table| { assert t[i] == table[i] && t[j] == table[j]; }
    }
  }

  /** The `by_name` index is not unique: a channel whose name is already
      taken can still be inserted, and a lookup by that name then returns
      the older channels and the new one, oldest first. */
  lemma DuplicateChannelNames(channels: seq<Doc<Channel>>, nextId: Id, c: Channel)
    requires TableValid(channels, nextId)
    ensures TableValid(channels + [Doc(nextId, c)], nextId + 1)
    ensures Query(channels + [Doc(nextId, c)], ByName, c.name)
         == Query(channels, ByName, c.name) + [Doc(nextId, c)]
  {
    InsertKeepsTableValid(channels, nextId, c);
    QueryAppend(channels, Doc(nextId, c), ByName, c.name);
  }

  /** The partial record handed to `patch` on a profile: `name` always,
      `avatarId` only when the caller supplied one (`None` = key absent). */
  datatype ProfilePatch = ProfilePatch(name: string, avatarId: Option<StorageId>)

  /** `patch` semantics: fields present in the partial record overwrite,
      absent ones keep their stored value. */
  function ApplyPatch(p: Profile, patch: ProfilePatch): Profile
  {
    Profile(p.userId, patch.name, if patch.avatarId.Some? then patch.avatarId else p.avatarId)
  }

  /** The profiles table after patching the document `id`. */
  function Patched(table: seq<Doc<Profile>>, id: Id, patch: ProfilePatch): seq<Doc<Profile>>
  {
    seq(|table|, i requires 0 <= i < |table| =>
      if table[i].id == id then Doc(id, ApplyPatch(table[i].fields, patch)) else table[i])
  }

  predicate HasId<T>(table: seq<Doc<T>>, id: Id)
  {
    exists i :: 0 <= i < |table| && table[i].id == id
  }

  /** The three application tables and the id counter. */
  class Database {
    var channels: seq<Doc<Channel>>
    var messages: seq<Doc<Message>>
    var profiles: seq<Doc<Profile>>
    var nextId: Id

    ghost predicate Valid()
      reads this
    {
      && TableValid(channels, nextId)
      && TableValid(messages, nextId)
      && TableValid(profiles, nextId)
    }

    constructor ()
      ensures Valid()
      ensures channels == [] && messages == [] && profiles == [] && nextId == 0
    {
      channels, messages, profiles, nextId := [], [], [], 0;
    }

    /** `ctx.db.insert("messages", m)`. */
    method InsertMessage(m: Message) returns (id: Id)
      requires Valid()
      modifies this
      ensures Valid()
      ensures id == old(nextId) && nextId == old(nextId) + 1
      ensures messages == old(messages) + [Doc(id, m)]
      ensures channels == old(channels) && profiles == old(profiles)
    {
      InsertKeepsTableValid(messages, nextId, m);
      id := nextId;
      messages := messages + [Doc(id, m)];
      nextId := nextId + 1;
    }

    /** `ctx.db.insert("profiles", p)`. */
    method InsertProfile(p: Profile) returns (id: Id)
      requires Valid()
      modifies this
      ensures Valid()
      ensures id == old(nextId) && nextId == old(nextId) + 1
      ensures profiles == old(profiles) + [Doc(id, p)]
      ensures channels == old(channels) && messages == old(messages)
    {
      InsertKeepsTableValid(profiles, nextId, p);
      id := nextId;
      profiles := profiles + [Doc(id, p)];
      nextId := nextId + 1;
    }

    /** `ctx.db.patch(id, patch)` on the profiles table; throws when no
      profile has that id. */
    method PatchProfile(id: Id, patch: ProfilePatch) returns (r: Result<()>)
      requires Valid()
      modifies this
      ensures Valid()
      ensures r.Ok? <==> HasId(old(profiles), id)
      ensures r.Err? ==> r.error == NotFound
      ensures profiles == if r.Ok? then Patched(old(profiles), id, patch) else old(profiles)
      ensures channels == old(channels) && messages == old(messages) && nextId == old(nextId)
    {
      if !HasId(profiles, id) {
        return Err(NotFound);
      }
      profiles := Patched(profiles, id, patch);
      r := Ok(());
    }
  }
}
