/** Session transcripts: truncation at a message, which keeps tool calls and their
    responses together, and the recent conversation handed to the compact loop. */
module Session {

  datatype Role = System | User | Assistant | Tool | OtherRole

  datatype Message = Message(id: int, role: Role, content: string, calls: seq<string>, callId: string)

  // ----- truncation -----

  datatype Outcome = Saved(messages: seq<Message>) | BadId | NotFound

  /** Messages numbered 1 to n in their order. */
  function Numbered(messages: seq<Message>): seq<Message> {
    seq(|messages|, i requires 0 <= i < |messages| => messages[i].(id := i + 1))
  }

  /** A message the model's service refuses at the end of a transcript. */
  predicate Dangling(m: Message) {
    m.role == Tool || (m.role == Assistant && m.calls != [])
  }

  /** The prefix without what dangles at its end. */
  function SafePrefix(messages: seq<Message>): (r: seq<Message>)
    ensures r <= messages
  {
    if messages != [] && Dangling(messages[|messages| - 1]) then SafePrefix(messages[..|messages| - 1]) else messages
  }

  function DeleteFrom(messages: seq<Message>, id: int): Outcome {
    if id <= 0 then BadId
    else if id > |messages| then NotFound
    else Saved(SafePrefix(Numbered(messages)[..id - 1]))
  }

  /** `EnsureAutoIncrementMessageIDs`: numbers the messages in place. */
  method EnsureIds(messages: array<Message>) returns (changed: bool)
    modifies messages
    ensures messages[..] == Numbered(old(messages[..]))
    ensures changed <==> messages[..] != old(messages[..])
  {
    changed := false;
    for i := 0 to messages.Length
      invariant forall k :: 0 <= k < i ==> messages[k] == old(messages[k]).(id := k + 1)
      invariant forall k :: i <= k < messages.Length ==> messages[k] == old(messages[k])
      invariant changed <==> exists k :: 0 <= k < i && old(messages[k]).id != k + 1
    {
      if messages[i].id != i + 1 {
        messages[i] := messages[i].(id := i + 1);
        changed := true;
      }
    }
    if changed {
      ghost var k :| 0 <= k < messages.Length && old(messages[k]).id != k + 1;
      assert messages[..][k] != old(messages[..])[k];
    }
  }

  /** `DeleteMessageFromSession` on the loaded messages, up to the save. */
  method DeleteMessage(loaded: array<Message>, id: int) returns (o: Outcome)
    modifies loaded
    ensures o == DeleteFrom(old(loaded[..]), id)
    ensures loaded[..] == if id <= 0 || loaded.Length == 0 then old(loaded[..]) else Numbered(old(loaded[..]))
  {
    if id <= 0 { return BadId; }
    if loaded.Length == 0 { return NotFound; }
    var _ := EnsureIds(loaded);
    assert forall k :: 0 <= k < loaded.Length ==> loaded[k] == Numbered(old(loaded[..]))[k];
    var index := -1;
    for i := 0 to loaded.Length
      invariant index == -1 && id > i
    {
      if loaded[i].id == id {
        index := i;
        break;
      }
    }
    if index == -1 { return NotFound; }
    var messages := loaded[..index];
    assert messages == Numbered(old(loaded[..]))[..id - 1];
    while messages != []
      invariant SafePrefix(messages) == SafePrefix(loaded[..index])
      decreases |messages|
    {
      if !Dangling(messages[|messages| - 1]) { break; }
      messages := messages[..|messages| - 1];
    }
    return Saved(messages);
  }

  // ----- well-paired transcripts -----

  predicate Answers(tools: seq<Message>, calls: seq<string>) {
    && |tools| == |calls|
    && forall i :: 0 <= i < |tools| ==> tools[i].role == Tool && tools[i].callId == calls[i]
  }

  /** Every assistant message with calls is followed at once by exactly its responses,
      and there are no other tool messages. */
  predicate WellPaired(messages: seq<Message>)
    decreases |messages|
  {
    messages == [] ||
    var m := messages[0];
    if Dangling(m) then
      && m.role != Tool && 1 + |m.calls| <= |messages|
      && Answers(messages[1..1 + |m.calls|], m.calls) && WellPaired(messages[1 + |m.calls|..])
    else WellPaired(messages[1..])
  }

  /** The safe prefix is the longest prefix that ends in nothing dangling. */
  lemma {:induction false} SafePrefixIsLongest(messages: seq<Message>, n: nat)
    requires n <= |messages|
    ensures var r := SafePrefix(messages);
            && (r == [] || !Dangling(r[|r| - 1]))
            && (n > 0 && !Dangling(messages[n - 1]) ==> n <= |r|)
  {
    if messages != [] && Dangling(messages[|messages| - 1]) {
      var rest := messages[..|messages| - 1];
      SafePrefixIsLongest(rest, if n < |messages| then n else n - 1);
    }
  }

  lemma {:induction false} AllDanglingVanish(messages: seq<Message>, rest: seq<Message>)
    requires forall m :: m in rest ==> Dangling(m)
    ensures SafePrefix(messages + rest) == SafePrefix(messages)
  {
    if rest == [] {
      assert messages + rest == messages;
    } else {
      var all := messages + rest;
      assert all[..|all| - 1] == messages + rest[..|rest| - 1];
      assert all[|all| - 1] in rest;
      AllDanglingVanish(messages, rest[..|rest| - 1]);
    }
  }

  lemma {:induction false} SafePrefixAfter(block: seq<Message>, rest: seq<Message>)
    ensures SafePrefix(block + rest) == if SafePrefix(rest) == [] then SafePrefix(block) else block + SafePrefix(rest)
  {
    if rest == [] {
      assert block + rest == block;
    } else if Dangling(rest[|rest| - 1]) {
      var all := block + rest;
      assert all[..|all| - 1] == block + rest[..|rest| - 1];
      SafePrefixAfter(block, rest[..|rest| - 1]);
    }
  }

  lemma PairedBlock(block: seq<Message>, rest: seq<Message>)
    requires block != [] && WellPaired(rest) && |block| == if Dangling(block[0]) then 1 + |block[0].calls| else 1
    requires Dangling(block[0]) ==> block[0].role != Tool && Answers(block[1..], block[0].calls)
    ensures WellPaired(block + rest)
  {
    var all := block + rest;
    assert all[|block|..] == rest && all[1..|block|] == block[1..];
  }

  /** Cutting a well-paired transcript anywhere and dropping what dangles leaves it
      well-paired. */
  lemma {:induction false} TruncationStaysPaired(messages: seq<Message>, n: nat)
    requires WellPaired(messages) && n <= |messages|
    ensures WellPaired(SafePrefix(messages[..n]))
    decreases |messages|
  {
    if n > 0 {
      var m := messages[0];
      var b := if Dangling(m) then 1 + |m.calls| else 1;
      var block := messages[..b];
      if n <= b && Dangling(m) {
        AllDanglingVanish([], messages[..n]);
        assert [] + messages[..n] == messages[..n];
        assert forall i :: 1 <= i < n ==> messages[1..b][i - 1] == messages[i];
      } else {
        var rest := messages[b..];
        assert messages[..n] == block + rest[..n - b];
        TruncationStaysPaired(rest, n - b);
        SafePrefixAfter(block, rest[..n - b]);
        if SafePrefix(rest[..n - b]) == [] {
          BlockAlone(block);
        } else {
          assert block[1..] == messages[1..b];
          PairedBlock(block, SafePrefix(rest[..n - b]));
        }
      }
    }
  }

  lemma BlockAlone(block: seq<Message>)
    requires block != [] && |block| == if Dangling(block[0]) then 1 + |block[0].calls| else 1
    requires Dangling(block[0]) ==> Answers(block[1..], block[0].calls)
    ensures WellPaired(SafePrefix(block))
  {
    if Dangling(block[0]) {
      assert forall i :: 1 <= i < |block| ==> block[1..][i - 1] == block[i];
      AllDanglingVanish([], block);
      assert [] + block == block;
    }
  }

  lemma {:induction false} NumberingKeepsPairs(a: seq<Message>, b: seq<Message>)
    requires |a| == |b| && forall i :: 0 <= i < |a| ==> b[i] == a[i].(id := b[i].id)
    ensures WellPaired(a) <==> WellPaired(b)
    decreases |a|
  {
    if a != [] {
      var n := if Dangling(a[0]) then 1 + |a[0].calls| else 1;
      if n <= |a| {
        NumberingKeepsPairs(a[n..], b[n..]);
        assert forall i :: 0 <= i < n - 1 ==> a[1..n][i] == a[i + 1] && b[1..n][i] == b[i + 1];
      }
    }
  }

  /** Any session, well-paired or not: which ids are refused, and how; and that what is saved is
      the part before the id, renumbered, up to its last message that is neither a tool message
      nor an answer with calls. */
  lemma DeletionOutcome(messages: seq<Message>, id: int)
    ensures DeleteFrom(messages, id) == BadId <==> id <= 0
    ensures DeleteFrom(messages, id) == NotFound <==> id > |messages| && id > 0
    ensures 1 <= id <= |messages| ==>
              && DeleteFrom(messages, id).Saved?
              && var r := DeleteFrom(messages, id).messages;
              && |r| < id
              && (forall i :: 0 <= i < |r| ==> r[i] == messages[i].(id := i + 1))
              && (r != [] ==> r[|r| - 1].role != Tool && (r[|r| - 1].role == Assistant ==> r[|r| - 1].calls == []))
              && (forall k :: |r| <= k < id - 1 ==>
                    messages[k].role == Tool || (messages[k].role == Assistant && messages[k].calls != []))
  {
    if 1 <= id <= |messages| {
      var front := Numbered(messages)[..id - 1];
      var r := SafePrefix(front);
      SafePrefixIsLongest(front, 0);
      forall k | |r| <= k < id - 1 ensures Dangling(messages[k]) {
        SafePrefixIsLongest(front, k + 1);
        assert front[k] == messages[k].(id := k + 1);
      }
    }
  }

  /** Deleting at a valid id of a well-paired session keeps it well-paired and numbered
      1 to n: the longest part before the id that ends in nothing dangling. */
  lemma DeletionIsSafe(messages: seq<Message>, id: int)
    requires WellPaired(messages) && 1 <= id <= |messages|
    ensures DeleteFrom(messages, id).Saved?
    ensures var r := DeleteFrom(messages, id).messages;
            && WellPaired(r) && r <= Numbered(messages)[..id - 1]
            && (forall i :: 0 <= i < |r| ==> r[i].id == i + 1)
            && (r != [] ==> !Dangling(r[|r| - 1]))
            && (forall k :: |r| <= k < id - 1 ==> Dangling(messages[k]))
  {
    var all := Numbered(messages);
    NumberingKeepsPairs(messages, all);
    TruncationStaysPaired(all, id - 1);
    SafePrefixIsLongest(all[..id - 1], 0);
    var r := SafePrefix(all[..id - 1]);
    forall k | |r| <= k < id - 1 ensures Dangling(messages[k]) {
      SafePrefixIsLongest(all[..id - 1], k + 1);
      assert all[..id - 1][k] == messages[k].(id := k + 1);
    }
  }
}
