/** The `messages` handlers: `send` (a mutation) and `list` (a query). */
module Messages {
  import opened Schema
  import opened Store

  /** What `send` does to the messages table: reject a caller without an
      identity, otherwise append one message authored by the caller. Neither
      the channel's existence nor the content is checked. */
  function AfterSend(messages: seq<Doc<Message>>, nextId: Id, caller: Option<UserId>,
                     channelId: Id, content: string): (r: Result<seq<Doc<Message>>>)
    ensures r.Err? <==> caller.None?
    ensures r.Err? ==> r.error == NotAuthenticated
    ensures r.Ok? ==> && |r.value| == |messages| + 1
                      && r.value[..|messages|] == messages
                      && r.value[|messages|].id == nextId
                      && r.value[|messages|].fields.channelId == channelId
                      && r.value[|messages|].fields.authorId == caller.value
                      && r.value[|messages|].fields.content == content
  {
    match caller
    case None => Err(NotAuthenticated)
    case Some(userId) => Ok(messages + [Doc(nextId, Message(channelId, userId, content))])
  }

  /** `send`: on success the store holds the table `AfterSend` describes; on
      failure nothing was written. */
  method Send(db: Database, caller: Option<UserId>, channelId: Id, content: string) returns (r: Result<()>)
    requires db.Valid()
    modifies db
    ensures db.Valid()
    ensures r == AfterSend(old(db.messages), old(db.nextId), caller, channelId, content).Void()
    ensures db.messages == if r.Ok? then AfterSend(old(db.messages), old(db.nextId), caller, channelId, content).value
                           else old(db.messages)
    ensures db.nextId == old(db.nextId) + |db.messages| - |old(db.messages)|
    ensures db.channels == old(db.channels) && db.profiles == old(db.profiles)
  {
    if caller.None? {
      return Err(NotAuthenticated);
    }
    var _ := db.InsertMessage(Message(channelId, caller.value, content));
    r := Ok(());
  }

  /** `list`: the messages of one channel, looked up through `by_channel`. */
  function List(messages: seq<Doc<Message>>, channelId: Id): (r: seq<Doc<Message>>)
    ensures forall d :: d in r <==> d in messages && d.fields.channelId == channelId
  {
    Query(messages, ByChannel, channelId)
  }

  /** `list` returns a channel's messages oldest first. */
  lemma ListInInsertionOrder(messages: seq<Doc<Message>>, channelId: Id)
    requires IdsAscending(messages)
    ensures IdsAscending(List(messages, channelId))
  {
    QueryKeepsOrder(messages, ByChannel, channelId);
  }

  /** A successful `send` to channel `c` extends `list(c)` by exactly the new
      message and leaves `list(b)` of every other channel `b` as it was. */
  lemma ListAfterSend(messages: seq<Doc<Message>>, nextId: Id, caller: Option<UserId>,
                      c: Id, content: string, b: Id)
    requires AfterSend(messages, nextId, caller, c, content).Ok?
    ensures var after := AfterSend(messages, nextId, caller, c, content).value;
            && (b == c ==> List(after, b) == List(messages, b) + [after[|messages|]])
            && (b != c ==> List(after, b) == List(messages, b))
  {
    var after := AfterSend(messages, nextId, caller, c, content).value;
    assert after == messages + [after[|messages|]];
    QueryAppend(messages, after[|messages|], ByChannel, b);
  }

  /** Messages that all went to channel `c` are all of `list(c)` over them. */
  lemma {:induction false} ListOfOneChannel(sent: seq<Doc<Message>>, c: Id)
    requires forall i :: 0 <= i < |sent| ==> sent[i].fields.channelId == c
    ensures List(sent, c) == sent
    decreases |sent|
  {
    if sent != [] {
      var front := sent[..|sent| - 1];
      ListOfOneChannel(front, c);
      assert sent == front + [sent[|sent| - 1]];
    }
  }

  /** N sends to channel `c`, run one after the other, append N messages to
      `list(c)` in the order they were sent. */
  lemma SendsListInOrder(messages: seq<Doc<Message>>, sent: seq<Doc<Message>>, c: Id)
    requires forall i :: 0 <= i < |sent| ==> sent[i].fields.channelId == c
    ensures List(messages + sent, c) == List(messages, c) + sent
  {
    QueryConcat(messages, sent, ByChannel, c);
    ListOfOneChannel(sent, c);
  }

  function Contents(docs: seq<Doc<Message>>): seq<string>
  {
    seq(|docs|, i requires 0 <= i < |docs| => docs[i].fields.content)
  }

  /** Over "hi" to `general`, another message to a second channel, and
      "hello" to `general`, `list(general)` is "hi" then "hello". */
  lemma TwoChannelsListed(u: UserId, general: Id, random: Id)
    requires random != general
    ensures var hi, elsewhere, hello := Doc(0, Message(general, u, "hi")), Doc(1, Message(random, u, "elsewhere")),
                                        Doc(2, Message(general, u, "hello"));
            Contents(List([hi, elsewhere, hello], general)) == ["hi", "hello"]
  {
    var hi, elsewhere, hello := Doc(0, Message(general, u, "hi")), Doc(1, Message(random, u, "elsewhere")),
                                Doc(2, Message(general, u, "hello"));
    QueryAppend([], hi, ByChannel, general);
    QueryAppend([hi], elsewhere, ByChannel, general);
    assert [hi] + [elsewhere] == [hi, elsewhere];
    QueryAppend([hi, elsewhere], hello, ByChannel, general);
    assert [hi, elsewhere] + [hello] == [hi, elsewhere, hello];
    assert List([hi, elsewhere, hello], general) == [hi, hello];
  }

  /** A fresh store; an anonymous send is refused; "hi" goes to `general`,
      another message to a second channel, then "hello" to `general`:
      `list(general)` shows "hi" then "hello". */
  method ChatScenario(u: UserId, general: Id, random: Id) returns (refused: Result<()>, contents: seq<string>)
    requires random != general
    ensures refused == Err(NotAuthenticated)
    ensures contents == ["hi", "hello"]
  {
    var db := new Database();
    refused := Send(db, None, general, "spam");
    assert db.messages == [];
    var ok1 := Send(db, Some(u), general, "hi");
    var ok2 := Send(db, Some(u), random, "elsewhere");
    var ok3 := Send(db, Some(u), general, "hello");
    assert db.messages == [Doc(0, Message(general, u, "hi")), Doc(1, Message(random, u, "elsewhere")),
                           Doc(2, Message(general, u, "hello"))];
    TwoChannelsListed(u, general, random);
    contents := Contents(List(db.messages, general));
  }
}
