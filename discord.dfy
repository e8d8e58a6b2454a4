/**
 * The message lifecycle manager of the bot's Discord side (the default
 * class of src/discord.ts): at most one status message per Twitch user,
 * recreated when the user goes online, edited in place otherwise, and
 * swept away by age.
 *
 * The channel is not called: every send, edit and delete it would
 * receive is appended to a call log, and a message is named by the
 * number of the send that created it. The clock is the parameter `now`
 * (milliseconds). The specification functions describe each operation
 * on a value `Board`; the class `Discord` performs the same steps in
 * place and is proved to end in the state they describe.
 */
module Notifications {
  import opened Strings
  import opened Helix

  /** A posted message, named by the number of the send that created it. */
  type MessageId = nat

  /** 172800000 ms: entries unchanged for two days are swept whatever their state. */
  const TwoDays: int := 172800000
  /** 21600000 ms: offline entries unchanged for six hours are swept. */
  const SixHours: int := 21600000

  /** The message content the formatter builds (`getEmbed`); an empty description means none is set. */
  datatype Embed = Embed(title: string, isOnline: bool, description: string, timestamp: int)

  /** `MessageReference`: the message posted for a user, its state and the time of its last change. */
  datatype MessageReference = MessageReference(message: MessageId, isOnline: bool, lastChange: int)

  /** What the manager asks of the channel, in order. */
  datatype ChannelCall =
    | Send(message: MessageId, content: Embed)   // channel.send(...), creating message number `message`
    | Edit(message: MessageId, content: Embed)   // message.edit(...)
    | DeleteMessage(message: MessageId)          // message.delete()

  /** The manager's state: the reference map, the number of messages sent so far, the calls so far. */
  datatype Board = Board(refs: map<UserId, MessageReference>, nextMessage: nat, calls: seq<ChannelCall>)

  // ---------------------------------------------------------------------
  // The online description

  /** The lines of an online message's description: title and game name, each only when non-empty. */
  function StreamLines(stream: Stream): seq<string>
  {
    (if stream.title != [] then [stream.title] else []) + (if stream.gameName != [] then [stream.gameName] else [])
  }

  /** The description of an online message: its lines joined with a newline. */
  function Describe(stream: Stream): string
  {
    Join(StreamLines(stream), '\n')
  }

  /** The description is empty exactly when title and game name are both empty. */
  lemma DescribeEmpty(stream: Stream)
    ensures Describe(stream) == [] <==> stream.title == [] && stream.gameName == []
  {
    var lines := StreamLines(stream);
    if |lines| == 2 {
      assert lines[1..] == [stream.gameName];
      assert Join(lines[1..], '\n') == stream.gameName;
      assert |Describe(stream)| == |stream.title| + 1 + |stream.gameName|;
    }
  }

  /**
   * The description reads back as its lines: when it is not empty, it
   * splits at newlines into the title then the game name, leaving out
   * whichever is empty.
   */
  lemma DescribeLines(stream: Stream)
    requires '\n' !in stream.title && '\n' !in stream.gameName
    ensures Describe(stream) != [] ==> Split(Describe(stream), '\n') == StreamLines(stream)
  {
    var lines := StreamLines(stream);
    if |lines| == 2 {
      assert lines == [stream.title, stream.gameName];
      assert lines[1..] == [stream.gameName];
      assert Join(lines[1..], '\n') == stream.gameName;
      assert Describe(stream) == stream.title + ['\n'] + stream.gameName;
      assert Describe(stream)[|stream.title|] == '\n';
    }
    if |lines| >= 1 {
      SplitJoin(lines, '\n');
    }
  }

  // ---------------------------------------------------------------------
  // Messages still standing

  /** The messages sent and not yet deleted. */
  function Standing(calls: seq<ChannelCall>): set<MessageId>
    decreases |calls|
  {
    if calls == [] then {}
    else
      var prev := Standing(calls[..|calls| - 1]);
      match calls[|calls| - 1]
      case Send(m, _) => prev + {m}
      case Edit(_, _) => prev
      case DeleteMessage(m) => prev - {m}
  }

  lemma StandingOne(calls: seq<ChannelCall>, c: ChannelCall)
    ensures c.Send? ==> Standing(calls + [c]) == Standing(calls) + {c.message}
    ensures c.Edit? ==> Standing(calls + [c]) == Standing(calls)
    ensures c.DeleteMessage? ==> Standing(calls + [c]) == Standing(calls) - {c.message}
  {
    assert (calls + [c])[..|calls|] == calls;
  }

  /** The messages the map refers to. */
  function Referenced(refs: map<UserId, MessageReference>): set<MessageId>
  {
    set id | id in refs :: refs[id].message
  }

  /**
   * Each entry owns its message: message numbers are below the send
   * counter and differ between users, and the messages the map refers to
   * are exactly those sent and not deleted (no leaked message, no
   * dangling reference).
   */
  ghost predicate Consistent(b: Board)
  {
    && (forall id :: id in b.refs ==> b.refs[id].message < b.nextMessage)
    && (forall a, c :: a in b.refs && c in b.refs && a != c ==> b.refs[a].message != b.refs[c].message)
    && Standing(b.calls) == Referenced(b.refs)
  }

  // ---------------------------------------------------------------------
  // The operations

  /** `delete(id)`: delete the user's message if there is an entry, and drop the entry. */
  function AfterDelete(b: Board, id: UserId): (r: Board)
    ensures id !in r.refs
    ensures id in b.refs ==> r.calls == b.calls + [DeleteMessage(b.refs[id].message)]
    ensures id !in b.refs ==> r == b
    ensures r.nextMessage == b.nextMessage
    ensures forall k :: k != id ==> (k in r.refs <==> k in b.refs) && (k in b.refs ==> r.refs[k] == b.refs[k])
  {
    if id in b.refs then Board(b.refs - {id}, b.nextMessage, b.calls + [DeleteMessage(b.refs[id].message)])
    else b
  }

  lemma AfterDeleteConsistent(b: Board, id: UserId)
    requires Consistent(b)
    ensures Consistent(AfterDelete(b, id))
  {
    if id in b.refs {
      var r := AfterDelete(b, id);
      var m := b.refs[id].message;
      StandingOne(b.calls, DeleteMessage(m));
      forall x ensures x in Referenced(r.refs) <==> x in Referenced(b.refs) - {m} {
        if x in Referenced(r.refs) {
          var k :| k in r.refs && r.refs[k].message == x;
          assert k in b.refs && b.refs[k].message == x;
        }
        if x in Referenced(b.refs) - {m} {
          var k :| k in b.refs && b.refs[k].message == x;
          assert k != id && k in r.refs;
        }
      }
    }
  }

  /**
   * `message(id, content, isOnline)`. Going online first deletes any
   * entry and its message, then sends a new message; otherwise an
   * existing entry's message is edited in place and its state and time
   * updated, and without an entry a new message is sent.
   */
  function AfterMessage(b: Board, id: UserId, content: Embed, isOnline: bool, now: int): (r: Board)
    ensures id in r.refs && r.refs[id].isOnline == isOnline && r.refs[id].lastChange == now
    ensures isOnline ==>
              r.calls == b.calls + (if id in b.refs then [DeleteMessage(b.refs[id].message)] else [])
                                 + [Send(b.nextMessage, content)]
              && r.refs[id].message == b.nextMessage && r.nextMessage == b.nextMessage + 1
    ensures !isOnline && id in b.refs ==>
              r.calls == b.calls + [Edit(b.refs[id].message, content)]
              && r.refs[id].message == b.refs[id].message && r.nextMessage == b.nextMessage
    ensures !isOnline && id !in b.refs ==>
              r.calls == b.calls + [Send(b.nextMessage, content)]
              && r.refs[id].message == b.nextMessage && r.nextMessage == b.nextMessage + 1
    ensures forall k :: k != id ==> (k in r.refs <==> k in b.refs) && (k in b.refs ==> r.refs[k] == b.refs[k])
  {
    var b1 := if isOnline then AfterDelete(b, id) else b;
    if id in b1.refs then
      var ref := b1.refs[id];
      Board(b1.refs[id := ref.(isOnline := isOnline, lastChange := now)], b1.nextMessage,
            b1.calls + [Edit(ref.message, content)])
    else
      Board(b1.refs[id := MessageReference(b1.nextMessage, isOnline, now)], b1.nextMessage + 1,
            b1.calls + [Send(b1.nextMessage, content)])
  }

  lemma AfterMessageConsistent(b: Board, id: UserId, content: Embed, isOnline: bool, now: int)
    requires Consistent(b)
    ensures Consistent(AfterMessage(b, id, content, isOnline, now))
  {
    var b1 := if isOnline then AfterDelete(b, id) else b;
    if isOnline { AfterDeleteConsistent(b, id); }
    if id in b1.refs {
      EditConsistent(b1, id, content, isOnline, now);
    } else {
      SendConsistent(b1, id, content, isOnline, now);
    }
  }

  /** Editing an entry's message in place keeps the invariant. */
  lemma EditConsistent(b: Board, id: UserId, content: Embed, isOnline: bool, now: int)
    requires Consistent(b) && id in b.refs
    ensures Consistent(Board(b.refs[id := b.refs[id].(isOnline := isOnline, lastChange := now)], b.nextMessage,
                             b.calls + [Edit(b.refs[id].message, content)]))
  {
    var r := Board(b.refs[id := b.refs[id].(isOnline := isOnline, lastChange := now)], b.nextMessage,
                   b.calls + [Edit(b.refs[id].message, content)]);
    StandingOne(b.calls, Edit(b.refs[id].message, content));
    forall x ensures x in Referenced(r.refs) <==> x in Referenced(b.refs) {
      if x in Referenced(r.refs) {
        var k :| k in r.refs && r.refs[k].message == x;
        assert k in b.refs && b.refs[k].message == x;
      }
      if x in Referenced(b.refs) {
        var k :| k in b.refs && b.refs[k].message == x;
        assert k in r.refs && r.refs[k].message == x;
      }
    }
  }

  /** Sending a new message for a user without an entry keeps the invariant. */
  lemma SendConsistent(b: Board, id: UserId, content: Embed, isOnline: bool, now: int)
    requires Consistent(b) && id !in b.refs
    ensures Consistent(Board(b.refs[id := MessageReference(b.nextMessage, isOnline, now)], b.nextMessage + 1,
                             b.calls + [Send(b.nextMessage, content)]))
  {
    var m := b.nextMessage;
    var r := Board(b.refs[id := MessageReference(m, isOnline, now)], m + 1, b.calls + [Send(m, content)]);
    StandingOne(b.calls, Send(m, content));
    forall x ensures x in Referenced(r.refs) <==> x in Referenced(b.refs) + {m} {
      if x in Referenced(r.refs) {
        var k :| k in r.refs && r.refs[k].message == x;
        if k != id { assert k in b.refs && b.refs[k].message == x; }
      }
      if x in Referenced(b.refs) {
        var k :| k in b.refs && b.refs[k].message == x;
        assert k in r.refs && r.refs[k].message == x;
      }
      if x == m {
        assert r.refs[id].message == x;
      }
    }
  }

  /** `online(event)`: recreate the user's message with the stream's description, dated at the stream start. */
  function AfterOnline(b: Board, user: User, stream: Stream, now: int): Board
  {
    AfterMessage(b, user.id, Embed(user.displayName, true, Describe(stream), stream.startDate), true, now)
  }

  /** `offline(event)`: mark the user's message as ended, dated now. */
  function AfterOffline(b: Board, user: User, now: int): Board
  {
    AfterMessage(b, user.id, Embed(user.displayName, false, [], now), false, now)
  }

  /**
   * There is no same-session guard: a repeated online event for a user
   * already online deletes the message just posted and posts another.
   */
  lemma RepeatedOnlineReposts(b: Board, user: User, stream: Stream, now: int, later: int)
    ensures var b1 := AfterOnline(b, user, stream, now);
            var b2 := AfterOnline(b1, user, stream, later);
            b2.calls == b1.calls + [DeleteMessage(b.nextMessage), Send(b.nextMessage + 1, b1.calls[|b1.calls| - 1].content)]
  {
  }

  /** Going offline after online edits the one message in place: one edit, no delete, no send. */
  lemma OnlineThenOfflineEdits(b: Board, user: User, stream: Stream, now: int, later: int)
    ensures var b1 := AfterOnline(b, user, stream, now);
            var b2 := AfterOffline(b1, user, later);
            && b2.calls == b1.calls + [Edit(b.nextMessage, Embed(user.displayName, false, [], later))]
            && b2.nextMessage == b1.nextMessage
            && b2.refs[user.id] == MessageReference(b.nextMessage, false, later)
  {
  }

  // ---------------------------------------------------------------------
  // The sweep

  /** The age rules of `cleanup`: everything when `immediately`, anything older than two days, offline entries older than six hours. */
  predicate Expired(ref: MessageReference, immediately: bool, now: int)
  {
    immediately || ref.lastChange < now - TwoDays || (!ref.isOnline && ref.lastChange < now - SixHours)
  }

  /** The entries a sweep keeps. */
  function Survivors(refs: map<UserId, MessageReference>, immediately: bool, now: int): map<UserId, MessageReference>
  {
    map id | id in refs && !Expired(refs[id], immediately, now) :: refs[id]
  }

  /** Deleting the entries of `ids`, one after the other. */
  function AfterDeleteAll(b: Board, ids: seq<UserId>): Board
    decreases |ids|
  {
    if ids == [] then b else AfterDelete(AfterDeleteAll(b, ids[..|ids| - 1]), ids[|ids| - 1])
  }

  predicate Distinct(ids: seq<UserId>)
  {
    forall i, j :: 0 <= i < j < |ids| ==> ids[i] != ids[j]
  }

  /** The deletes issued for `ids`, in order. */
  function DeletesFor(refs: map<UserId, MessageReference>, ids: seq<UserId>): seq<ChannelCall>
    requires forall k :: 0 <= k < |ids| ==> ids[k] in refs
  {
    seq(|ids|, k requires 0 <= k < |ids| => DeleteMessage(refs[ids[k]].message))
  }

  /**
   * Deleting distinct entries one after the other removes exactly those
   * entries, keeps the others unchanged and issues one message delete per
   * entry, in the same order.
   */
  lemma {:induction false} AfterDeleteAllEffect(b: Board, ids: seq<UserId>)
    requires Distinct(ids) && forall k :: 0 <= k < |ids| ==> ids[k] in b.refs
    ensures var r := AfterDeleteAll(b, ids);
            && (forall id :: id in r.refs <==> id in b.refs && id !in ids)
            && (forall id :: id in r.refs ==> r.refs[id] == b.refs[id])
            && r.nextMessage == b.nextMessage
            && r.calls == b.calls + DeletesFor(b.refs, ids)
    decreases |ids|
  {
    if ids != [] {
      var init := ids[..|ids| - 1];
      var last := ids[|ids| - 1];
      AfterDeleteAllEffect(b, init);
      var r0 := AfterDeleteAll(b, init);
      assert last !in init by {
        forall k | 0 <= k < |init| ensures init[k] != last {
          assert ids[k] != ids[|ids| - 1];
        }
      }
      assert last in r0.refs;
      assert forall id :: id in ids <==> id in init || id == last;
      assert DeletesFor(b.refs, ids) == DeletesFor(b.refs, init) + [DeleteMessage(b.refs[last].message)];
    }
  }

  lemma {:induction false} AfterDeleteAllConsistent(b: Board, ids: seq<UserId>)
    requires Consistent(b)
    ensures Consistent(AfterDeleteAll(b, ids))
    decreases |ids|
  {
    if ids != [] {
      AfterDeleteAllConsistent(b, ids[..|ids| - 1]);
      AfterDeleteConsistent(AfterDeleteAll(b, ids[..|ids| - 1]), ids[|ids| - 1]);
    }
  }

  /**
   * A sweep that deletes the expired entries, in any order, leaves exactly
   * the survivors and issues one message delete per expired entry.
   */
  lemma CleanupOutcome(b: Board, immediately: bool, now: int, reaped: seq<UserId>)
    requires Distinct(reaped)
    requires forall id :: id in reaped <==> id in b.refs && Expired(b.refs[id], immediately, now)
    ensures var r := AfterDeleteAll(b, reaped);
            && r.refs == Survivors(b.refs, immediately, now)
            && r.nextMessage == b.nextMessage
            && r.calls == b.calls + DeletesFor(b.refs, reaped)
  {
    AfterDeleteAllEffect(b, reaped);
  }

  /** `cleanup(true)` empties the map and deletes one message per entry it had. */
  lemma CleanupImmediatelyEmpties(b: Board, now: int, reaped: seq<UserId>)
    requires Distinct(reaped)
    requires forall id :: id in reaped <==> id in b.refs && Expired(b.refs[id], true, now)
    ensures AfterDeleteAll(b, reaped).refs == map[]
    ensures |reaped| == |b.refs|
    ensures AfterDeleteAll(b, reaped).calls == b.calls + DeletesFor(b.refs, reaped)
  {
    CleanupOutcome(b, true, now, reaped);
    DistinctCard(reaped);
    assert (set k | 0 <= k < |reaped| :: reaped[k]) == b.refs.Keys;
  }

  lemma {:induction false} DistinctCard(ids: seq<UserId>)
    requires Distinct(ids)
    ensures |set k | 0 <= k < |ids| :: ids[k]| == |ids|
    decreases |ids|
  {
    if ids != [] {
      var init := ids[..|ids| - 1];
      DistinctCard(init);
      var s0 := set k | 0 <= k < |init| :: init[k];
      var s := set k | 0 <= k < |ids| :: ids[k];
      assert s == s0 + {ids[|ids| - 1]};
      assert ids[|ids| - 1] !in s0 by {
        forall k | 0 <= k < |init| ensures init[k] != ids[|ids| - 1] {
          assert ids[k] != ids[|ids| - 1];
        }
      }
    }
  }

  /**
   * Without `immediately`, a sweep keeps an online entry unless it is older
   * than two days, and an offline entry unless it is older than six hours.
   */
  lemma SweepAgeRules(refs: map<UserId, MessageReference>, now: int, id: UserId)
    requires id in refs
    ensures refs[id].isOnline ==> (id in Survivors(refs, false, now) <==> refs[id].lastChange >= now - TwoDays)
    ensures !refs[id].isOnline ==> (id in Survivors(refs, false, now) <==> refs[id].lastChange >= now - SixHours)
    ensures id in Survivors(refs, false, now) ==> Survivors(refs, false, now)[id] == refs[id]
  {
  }

  /**
   * An entry last changed 50 hours ago while online is swept; one last
   * changed 3 hours ago while offline is kept, and swept once it is 7 hours old.
   */
  lemma SweepScenario(c: UserId, d: UserId, mc: MessageId, md: MessageId, now: int)
    requires c != d
    ensures var hour := 3600000;
            var refs := map[c := MessageReference(mc, true, now - 50 * hour), d := MessageReference(md, false, now - 3 * hour)];
            && Survivors(refs, false, now) == map[d := refs[d]]
            && Survivors(refs, false, now + 4 * hour) == map[]
  {
  }

  // ---------------------------------------------------------------------
  // The class

  class Discord {
    var userMessageReferences: map<UserId, MessageReference>
    var nextMessage: nat
    var calls: seq<ChannelCall>

    function State(): Board
      reads this
    {
      Board(userMessageReferences, nextMessage, calls)
    }

    constructor ()
      ensures State() == Board(map[], 0, []) && Consistent(State())
    {
      userMessageReferences := map[];
      nextMessage := 0;
      calls := [];
    }

    method Online(user: User, stream: Stream, now: int)
      modifies this
      ensures State() == AfterOnline(old(State()), user, stream, now)
    {
      var lines: seq<string> := [];
      if stream.title != [] {
        lines := lines + [stream.title];
      }
      if stream.gameName != [] {
        lines := lines + [stream.gameName];
      }
      Message(user.id, Embed(user.displayName, true, Join(lines, '\n'), stream.startDate), true, now);
    }

    method Offline(user: User, now: int)
      modifies this
      ensures State() == AfterOffline(old(State()), user, now)
    {
      Message(user.id, Embed(user.displayName, false, [], now), false, now);
    }

    method Delete(twitchUserId: UserId)
      modifies this
      ensures State() == AfterDelete(old(State()), twitchUserId)
    {
      if twitchUserId in userMessageReferences {
        calls := calls + [DeleteMessage(userMessageReferences[twitchUserId].message)];
      }
      userMessageReferences := userMessageReferences - {twitchUserId};
    }

    /** Visits every entry once, in an order the model leaves open, and deletes the expired ones. */
    method Cleanup(immediately: bool, now: int) returns (ghost reaped: seq<UserId>)
      modifies this
      ensures State() == AfterDeleteAll(old(State()), reaped)
      ensures Distinct(reaped)
      ensures forall id :: id in reaped <==>
                (id in old(userMessageReferences) && Expired(old(userMessageReferences)[id], immediately, now))
    {
      ghost var b0 := State();
      var pending := userMessageReferences.Keys;
      reaped := [];
      while pending != {}
        invariant pending <= b0.refs.Keys
        invariant State() == AfterDeleteAll(b0, reaped)
        invariant Distinct(reaped)
        invariant forall id :: id in reaped <==> id in b0.refs && id !in pending && Expired(b0.refs[id], immediately, now)
        invariant forall id :: id in pending ==> id in userMessageReferences && userMessageReferences[id] == b0.refs[id]
        decreases pending
      {
        var twitchUserId :| twitchUserId in pending;
        var messageReference := userMessageReferences[twitchUserId];
        if immediately || messageReference.lastChange < now - TwoDays {
          Delete(twitchUserId);
          reaped := reaped + [twitchUserId];
        } else if !messageReference.isOnline && messageReference.lastChange < now - SixHours {
          Delete(twitchUserId);
          reaped := reaped + [twitchUserId];
        }
        pending := pending - {twitchUserId};
      }
    }

    method Message(twitchUserId: UserId, content: Embed, isOnline: bool, now: int)
      modifies this
      ensures State() == AfterMessage(old(State()), twitchUserId, content, isOnline, now)
    {
      if isOnline {
        Delete(twitchUserId);
      }
      if twitchUserId in userMessageReferences {
        var messageReference := userMessageReferences[twitchUserId];
        calls := calls + [Edit(messageReference.message, content)];
        userMessageReferences := userMessageReferences[twitchUserId :=
          messageReference.(isOnline := isOnline, lastChange := now)];
      } else {
        var message := nextMessage;
        nextMessage := nextMessage + 1;
        calls := calls + [Send(message, content)];
        userMessageReferences := userMessageReferences[twitchUserId := MessageReference(message, isOnline, now)];
      }
    }
  }
}
