/**
 * The poll cache: a manager object holding the two dictionaries keyed by poll
 * id, and the poll objects it shares with the rest of the client and updates
 * in place.
 */
module PollsManager {
  import opened Wrappers
  import opened Polls
  import opened PollRequests

  /** A poll object. Its fields are updated in place by the cache; `View` is its current value. */
  class Poll {
    var id: string
    var question: string
    var answers: seq<PollAnswer>
    var closePeriod: Option<int>
    var closeDate: Option<int>
    var pFlags: Option<PollFlags>
    var rQuestion: Option<string>
    var rReply: Option<string>
    var chosenIndexes: Option<seq<nat>>

    /** A fresh object holding `r`, as decoded from the server. */
    constructor (r: PollRecord)
      ensures View() == r
    {
      id, question, answers := r.id, r.question, r.answers;
      closePeriod, closeDate, pFlags := r.closePeriod, r.closeDate, r.pFlags;
      rQuestion, rReply, chosenIndexes := r.rQuestion, r.rReply, r.chosenIndexes;
    }

    function View(): PollRecord
      reads this
    {
      PollRecord(id, question, answers, closePeriod, closeDate, pFlags, rQuestion, rReply, chosenIndexes)
    }

    /** `Object.assign(this, from)`: copies every field `from` has; `from` may be this object. */
    method AssignFrom(from: Poll)
      modifies this
      ensures View() == Assign(old(View()), old(from.View()))
    {
      // read the source first, as it may alias this object
      var src := from.View();
      id, question, answers := src.id, src.question, src.answers;
      if src.closePeriod.Some? { closePeriod := src.closePeriod; }
      if src.closeDate.Some? { closeDate := src.closeDate; }
      if src.pFlags.Some? { pFlags := src.pFlags; }
      if src.rQuestion.Some? { rQuestion := src.rQuestion; }
      if src.rReply.Some? { rReply := src.rReply; }
      if src.chosenIndexes.Some? { chosenIndexes := src.chosenIndexes; }
    }
  }

  /** What `getPoll` returns; either half is `undefined` when the id is not cached. */
  datatype PollLookup = PollLookup(poll: Option<Poll>, results: Option<PollResults>)

  /** An update from the server. Only `updateMessagePoll` is described; any other kind is opaque. */
  datatype Update =
    | UpdateMessagePoll(pollId: string, poll: Option<Poll>, results: PollResults)
    | OtherUpdate(kind: string)

  /** The payload of a broadcast `poll_update` event. */
  datatype PollUpdateEvent = PollUpdateEvent(poll: Poll, results: PollResults)

  class AppPollsManager {
    var polls: map<string, Poll>
    var results: map<string, PollResults>
    /** The `poll_update` events broadcast so far, oldest first. */
    ghost var events: seq<PollUpdateEvent>
    /** The emoji renderer, injected: its source is not part of this model. */
    const wrapEmojiText: string -> string
    /** The markdown parser, injected: its source is not part of this model. */
    const parseMarkdown: string -> (string, seq<MessageEntity>)

    /**
     * Both dictionaries have the same ids; each cached poll is stored under
     * its own id and carries a `chosenIndexes` list.
     */
    ghost predicate Valid()
      reads this, polls.Values
    {
      && polls.Keys == results.Keys
      && forall id :: id in polls ==> polls[id].id == id && polls[id].chosenIndexes.Some?
    }

    /** The cached poll object under `id`, as a set (empty when not cached). */
    ghost function Cached(id: string): set<Poll>
      reads this
    {
      if id in polls then {polls[id]} else {}
    }

    /** The value of the cached poll under `id`, if any. */
    ghost function CachedView(id: string): Option<PollRecord>
      reads this, polls.Values
    {
      if id in polls then Some(polls[id].View()) else None
    }

    constructor (wrapEmojiText: string -> string, parseMarkdown: string -> (string, seq<MessageEntity>))
      ensures Valid()
      ensures polls == map[] && results == map[] && events == []
      ensures this.wrapEmojiText == wrapEmojiText && this.parseMarkdown == parseMarkdown
    {
      polls, results, events := map[], map[], [];
      this.wrapEmojiText, this.parseMarkdown := wrapEmojiText, parseMarkdown;
    }

    /**
     * `saveResults`: stores the snapshot under the poll's id whatever it is,
     * and, for a full snapshot only, empties `chosenIndexes` in place and
     * pushes the position of every result flagged as chosen.
     */
    method SaveResults(poll: Poll, snap: PollResults)
      requires snap.min || poll.chosenIndexes.Some?
      modifies this`results, poll`chosenIndexes
      ensures results == old(results)[poll.id := snap]
      ensures poll.View() == ApplyResults(old(poll.View()), snap)
    {
      results := results[poll.id := snap];
      if !snap.min {
        poll.chosenIndexes := Some([]);
        if snap.results.Some? && |snap.results.value| > 0 {
          var rs := snap.results.value;
          var idx := 0;
          while idx < |rs|
            invariant 0 <= idx <= |rs|
            invariant results == old(results)[poll.id := snap]
            invariant poll.chosenIndexes == Some(ChosenPositions(rs[..idx]))
            invariant poll.View() == old(poll.View()).(chosenIndexes := poll.chosenIndexes)
          {
            assert rs[..idx + 1][..idx] == rs[..idx] && rs[..idx + 1][idx] == rs[idx];
            ghost var before := poll.chosenIndexes.value;
            if Chosen(rs[idx]) {
              poll.chosenIndexes := Some(poll.chosenIndexes.value + [idx]);
              assert ChosenPositions(rs[..idx + 1]) == before + [idx];
            } else {
              assert ChosenPositions(rs[..idx + 1]) == before;
            }
            idx := idx + 1;
          }
          assert rs[..idx] == rs;
        }
      }
    }

    /**
     * `savePoll`: a poll seen for the first time is stored as it is and given
     * its labels and an empty `chosenIndexes`; a poll already cached has the
     * incoming fields merged into the cached object. Either way the snapshot
     * is then saved, and the cached object is returned.
     */
    method SavePoll(poll: Poll, snap: PollResults) returns (saved: Poll)
      requires Valid()
      modifies this, poll, Cached(poll.id)
      ensures Valid()
      ensures saved == if old(poll.id) in old(polls) then old(polls[poll.id]) else poll
      ensures polls == old(polls)[old(poll.id) := saved]
      ensures results == old(results)[old(poll.id) := snap]
      ensures saved.View() == SavedRecord(wrapEmojiText, old(poll.View()), old(CachedView(poll.id)), snap)
      ensures saved != poll ==> poll.View() == old(poll.View())
      ensures forall id :: id in old(polls) && id != old(poll.id) ==> unchanged(polls[id])
      ensures events == old(events)
    {
      var id := poll.id;
      ghost var incoming := poll.View();
      if id in polls {
        saved := polls[id];
        ghost var merged := Assign(saved.View(), incoming);
        saved.AssignFrom(poll);
        assert saved.View() == merged;
        SaveResults(saved, snap);
        assert saved.View() == ApplyResults(merged, snap);
        return;
      }
      // no cached object is this one, since each is stored under its own id
      assert forall k :: k in polls ==> polls[k] != poll;
      polls := polls[id := poll];
      var rQuestion := wrapEmojiText(poll.question);
      poll.rQuestion := Some(rQuestion);
      poll.rReply := Some(ReplyLabel(wrapEmojiText, rQuestion));
      poll.chosenIndexes := Some([]);
      assert poll.View() == Initialise(wrapEmojiText, incoming);
      SaveResults(poll, snap);
      saved := poll;
    }

    /** The embedded poll of an update, as a set (empty when there is none). */
    ghost function Embedded(update: Update): set<Poll> {
      if update.UpdateMessagePoll? && update.poll.Some? then {update.poll.value} else {}
    }

    /** The poll an update resolves to: the embedded one first, then the cached one. */
    ghost function Resolve(update: Update): Option<Poll>
      reads this
    {
      match update
      case OtherUpdate(_) => None
      case UpdateMessagePoll(pollId, poll, _) =>
        if poll.Some? then poll else if pollId in polls then Some(polls[pollId]) else None
    }

    /**
     * `handleUpdate`: only `updateMessagePoll` is acted on. An update whose
     * poll resolves neither from its payload nor from the cache is dropped;
     * otherwise the poll is saved and one `poll_update` event is broadcast.
     */
    method HandleUpdate(update: Update)
      requires Valid()
      modifies this, polls.Values, Embedded(update)
      ensures Valid()
      ensures old(Resolve(update)).None? ==>
        && polls == old(polls) && results == old(results) && events == old(events)
        && unchanged(polls.Values)
      ensures old(Resolve(update)).Some? ==>
        var p := old(Resolve(update)).value;
        var id := old(p.id);
        var saved := if id in old(polls) then old(polls[id]) else p;
        && polls == old(polls)[id := saved]
        && results == old(results)[id := update.results]
        && saved.View() == SavedRecord(wrapEmojiText, old(p.View()), old(CachedView(p.id)), update.results)
        && (saved != p ==> p.View() == old(p.View()))
        && (forall k :: k in old(polls) && k != id ==> unchanged(polls[k]))
        && events == old(events) + [PollUpdateEvent(saved, update.results)]
    {
      if update.OtherUpdate? {
        return;
      }
      var poll: Poll;
      if update.poll.Some? {
        poll := update.poll.value;
      } else if update.pollId in polls {
        poll := polls[update.pollId];
      } else {
        return;
      }
      assert Resolve(update) == Some(poll);
      ghost var id := poll.id;
      ghost var target := if id in polls then polls[id] else poll;
      var saved := SavePoll(poll, update.results);
      assert saved == target;
      events := events + [PollUpdateEvent(saved, update.results)];
    }

    /** `getPoll`: the cached pair under `pollId`; a missing id is a normal answer, not an error. */
    function GetPoll(pollId: string): (r: PollLookup)
      reads this, polls.Values
      ensures Valid() ==> (r.poll.Some? <==> r.results.Some?)
      ensures Valid() && r.poll.Some? ==> r.poll.value.id == pollId
      ensures r.poll.Some? <==> pollId in polls
      ensures r.results.Some? <==> pollId in results
      ensures pollId in polls ==> r.poll == Some(polls[pollId])
      ensures pollId in results ==> r.results == Some(results[pollId])
    {
      PollLookup(if pollId in polls then Some(polls[pollId]) else None,
                 if pollId in results then Some(results[pollId]) else None)
    }

    /**
     * The decision `stopPoll` makes about the poll of a message: no edit when
     * it is already closed, otherwise an edit whose media is a closed copy.
     * The poll object itself is left as it is.
     */
    method StopPoll(poll: Poll) returns (edit: Option<InputMediaPoll>)
      requires poll.pFlags.Some?
      ensures edit.None? <==> poll.pFlags.value.closed
      ensures edit.Some? ==> edit.value == GetInputMediaPoll(parseMarkdown, ClosedCopy(poll.View()).value, None, None)
    {
      if poll.pFlags.value.closed {
        return None;
      }
      var newPoll := ClosedCopy(poll.View());
      edit := Some(GetInputMediaPoll(parseMarkdown, newPoll.value, None, None));
    }
  }
}

/**
 * A client of the cache: a full snapshot records the user's choice, and a
 * later partial snapshot updates the counts without touching that choice.
 */
module PollsScenario {
  import opened Wrappers
  import opened Polls
  import opened PollsManager

  method FullThenPartialSnapshot(wrap: string -> string, parse: string -> (string, seq<MessageEntity>))
  {
    var m := new AppPollsManager(wrap, parse);
    var optA: OptionKey := [0x30];
    var optB: OptionKey := [0x31];
    var p := new Poll(PollRecord("p1", "Lunch?", [PollAnswer("A", optA), PollAnswer("B", optB)],
                                 None, None, Some(PollFlags(false, false, false, false)), None, None, None));
    var votes := [PollResult(optA, 3, Some(AnswerFlags(true, false))), PollResult(optB, 1, Some(AnswerFlags(false, false)))];
    var full := PollResults(false, Some(votes), Some(4), None, None, None);
    assert ChosenPositions(votes) == [0] by {
      assert votes[..1][..0] == [] && votes[..|votes| - 1] == votes[..1];
      assert ChosenPositions(votes[..1]) == [0];
    }
    m.HandleUpdate(UpdateMessagePoll("p1", Some(p), full));
    assert m.polls["p1"] == p;
    assert p.chosenIndexes == Some([0]);
    assert p.rReply == Some(wrap(ChartEmoji) + " " + (if wrap("Lunch?") == "" then "poll" else wrap("Lunch?")));

    var counts := [PollResult(optA, 4, None), PollResult(optB, 1, None)];
    var partial := PollResults(true, Some(counts), Some(5), None, None, None);
    m.HandleUpdate(UpdateMessagePoll("p1", None, partial));
    assert m.polls["p1"] == p;
    assert p.chosenIndexes == Some([0]);
    assert m.results["p1"].results.value[0].voters == 4;
    assert |m.events| == 2;

    // an update about a poll this client has never seen is dropped
    m.HandleUpdate(UpdateMessagePoll("p2", None, full));
    assert "p2" !in m.polls && |m.events| == 2;
  }
}
