/**
 * The pure pieces of the three outbound requests: the option keys of a vote,
 * the closed copy of a poll that stopping it hands to the message editor, and
 * the flag word of a voter-list query. The requests themselves are not sent.
 */
module PollRequests {
  import opened Wrappers
  import opened Polls

  datatype VoteError = IndexOutOfRange(index: int)

  /** Whether `index` names an answer of `answers`; any other index reads `undefined`. */
  predicate ValidAnswerIndex(answers: seq<PollAnswer>, index: int) {
    0 <= index < |answers|
  }

  /** `k` is the first position of `optionIDs` whose index names no answer. */
  ghost predicate FirstInvalidAt(answers: seq<PollAnswer>, optionIDs: seq<int>, k: int) {
    && 0 <= k < |optionIDs|
    && !ValidAnswerIndex(answers, optionIDs[k])
    && forall j :: 0 <= j < k ==> ValidAnswerIndex(answers, optionIDs[j])
  }

  /**
   * `optionIDs.map(index => poll.answers[index].option)`: the option keys of
   * the selected answers, in the order given. The first index that names no
   * answer makes the mapping throw, before any request is made.
   */
  function OptionsFor(answers: seq<PollAnswer>, optionIDs: seq<int>): (r: Result<seq<OptionKey>, VoteError>)
    ensures r.Ok? <==> forall k :: 0 <= k < |optionIDs| ==> ValidAnswerIndex(answers, optionIDs[k])
    ensures r.Ok? ==> |r.value| == |optionIDs|
    ensures r.Ok? ==> forall k :: 0 <= k < |optionIDs| ==> r.value[k] == answers[optionIDs[k]].option
    ensures r.Err? ==> exists k :: FirstInvalidAt(answers, optionIDs, k) && r.error == IndexOutOfRange(optionIDs[k])
    decreases |optionIDs|
  {
    if optionIDs == [] then Ok([])
    else if !ValidAnswerIndex(answers, optionIDs[0]) then
      assert FirstInvalidAt(answers, optionIDs, 0);
      Err(IndexOutOfRange(optionIDs[0]))
    else
      var tail := optionIDs[1..];
      assert forall k :: 1 <= k < |optionIDs| ==> optionIDs[k] == tail[k - 1];
      match OptionsFor(answers, tail)
      case Ok(rest) => Ok([answers[optionIDs[0]].option] + rest)
      case Err(e) =>
        assert exists k :: FirstInvalidAt(answers, optionIDs, k) && e == IndexOutOfRange(optionIDs[k]) by {
          var k :| FirstInvalidAt(answers, tail, k) && e == IndexOutOfRange(tail[k]);
          assert FirstInvalidAt(answers, optionIDs, k + 1);
        }
        Err(e)
  }

  /**
   * The `stopPoll` short-circuit and its deep copy with `closed` set: `None`
   * when the poll is already closed (no edit is made), otherwise the copy to
   * send. The poll's `pFlags` are read unconditionally, so they must exist.
   */
  function ClosedCopy(p: PollRecord): (r: Option<PollRecord>)
    requires p.pFlags.Some?
    ensures r.None? <==> p.pFlags.value.closed
    ensures r.Some? ==> r.value.pFlags.Some? && r.value.pFlags.value.closed
    ensures r.Some? ==> r.value.(pFlags := p.pFlags) == p
    ensures r.Some? ==> r.value.pFlags.value.(closed := false) == p.pFlags.value
  {
    if p.pFlags.value.closed then None
    else Some(p.(pFlags := Some(p.pFlags.value.(closed := true))))
  }

  /** Closing is idempotent: the copy that is sent would itself short-circuit. */
  lemma ClosingTwiceIsNoOp(p: PollRecord)
    requires p.pFlags.Some? && ClosedCopy(p).Some?
    ensures ClosedCopy(ClosedCopy(p).value).None?
  {
  }

  /** The `inputMediaPoll` record handed to the message editor. */
  datatype InputMediaPoll = InputMediaPoll(
    poll: PollRecord,
    correctAnswers: Option<seq<OptionKey>>,
    solution: Option<string>,
    solutionEntities: Option<seq<MessageEntity>>)

  /**
   * `getInputMediaPoll`: a non-empty solution is run through the markdown
   * parser `parse`, which yields the plain text and its entities; an absent or
   * empty one is passed on as it is, without entities.
   */
  function GetInputMediaPoll(parse: string -> (string, seq<MessageEntity>), poll: PollRecord,
                             correctAnswers: Option<seq<OptionKey>>, solution: Option<string>): (m: InputMediaPoll)
    ensures m.poll == poll && m.correctAnswers == correctAnswers
    ensures m.solutionEntities.Some? <==> solution.Some? && solution.value != ""
    ensures m.solutionEntities.Some? ==> m.solution == Some(parse(solution.value).0)
    ensures m.solutionEntities.Some? ==> m.solutionEntities.value == parse(solution.value).1
    ensures m.solutionEntities.None? ==> m.solution == solution
  {
    if solution.Some? && solution.value != "" then
      var parsed := parse(solution.value);
      InputMediaPoll(poll, correctAnswers, Some(parsed.0), Some(parsed.1))
    else
      InputMediaPoll(poll, correctAnswers, solution, None)
  }

  /**
   * The `flags` word of `messages.getPollVotes`: bit 0 when an option key is
   * given (any array, even an empty one, is truthy), bit 1 when a non-empty
   * offset is given, and no other bit.
   */
  function VotesFlags(option: Option<OptionKey>, offset: Option<string>): (flags: bv32)
    ensures (flags & 1 != 0) <==> option.Some?
    ensures (flags & 2 != 0) <==> offset.Some? && offset.value != ""
    ensures flags & !(3 as bv32) == 0
  {
    var withOption: bv32 := if option.Some? then 0 | (1 << 0) else 0;
    if offset.Some? && offset.value != "" then withOption | (1 << 1) else withOption
  }

  /** The parameters of `messages.getPollVotes` (the peer comes from the peer resolver and is not modelled). */
  datatype GetPollVotes = GetPollVotes(flags: bv32, id: int, option: Option<OptionKey>, offset: Option<string>, limit: int)

  /**
   * `getVotes`' request: the flag bits agree with the optional parameters
   * that are set, and an omitted limit defaults to 20.
   */
  function GetVotesRequest(messageId: int, option: Option<OptionKey>, offset: Option<string>,
                           limit: Option<int>): (q: GetPollVotes)
    ensures q.id == messageId && q.option == option && q.offset == offset
    ensures (q.flags & 1 != 0) <==> q.option.Some?
    ensures (q.flags & 2 != 0) <==> q.offset.Some? && q.offset.value != ""
    ensures q.flags & !(3 as bv32) == 0
    ensures q.limit == if limit.Some? then limit.value else 20
  {
    GetPollVotes(VotesFlags(option, offset), messageId, option, offset,
                 match limit case Some(l) => l case None => 20)
  }
}
