/**
 * The poll entities of the cache and the pure part of the reconciler: the
 * shallow field merge performed by `Object.assign`, the first-sighting
 * initialisation, and the rebuild of `chosenIndexes` from a result snapshot.
 */
module Polls {
  import opened Wrappers

  /** An opaque option key (`Uint8Array` on the wire). */
  type OptionKey = seq<bv8>

  /** One answer of a poll: its display text and its option key. */
  datatype PollAnswer = PollAnswer(text: string, option: OptionKey)

  /** The `pFlags` object of a poll; a flag that is absent counts as false. */
  datatype PollFlags = PollFlags(closed: bool, publicVoters: bool, multipleChoice: bool, quiz: bool)

  /** The `pFlags` object of one per-answer result. */
  datatype AnswerFlags = AnswerFlags(chosen: bool, correct: bool)

  /** One per-answer result (`pollAnswerVoters`); its `pFlags` may be missing. */
  datatype PollResult = PollResult(option: OptionKey, voters: int, pFlags: Option<AnswerFlags>)

  /** A formatting entity of a quiz solution, kept opaque. */
  datatype MessageEntity = MessageEntity(kind: string, offset: int, length: int)

  /**
   * A result snapshot (`pollResults`). `min` is the constructor's `min` flag:
   * a partial snapshot that carries no reliable information about the
   * current user's own votes.
   */
  datatype PollResults = PollResults(
    min: bool,
    results: Option<seq<PollResult>>,
    totalVoters: Option<int>,
    recentVoters: Option<seq<int>>,
    solution: Option<string>,
    solutionEntities: Option<seq<MessageEntity>>)

  /**
   * The value of a poll object at one moment. `id`, `question` and `answers`
   * are always present; every other field is present exactly when it is
   * `Some`. `rQuestion`, `rReply` and `chosenIndexes` are owned by the cache.
   */
  datatype PollRecord = PollRecord(
    id: string,
    question: string,
    answers: seq<PollAnswer>,
    closePeriod: Option<int>,
    closeDate: Option<int>,
    pFlags: Option<PollFlags>,
    rQuestion: Option<string>,
    rReply: Option<string>,
    chosenIndexes: Option<seq<nat>>)

  /** `answer.pFlags?.chosen`: a result whose flags are missing is not chosen. */
  predicate Chosen(r: PollResult) {
    r.pFlags.Some? && r.pFlags.value.chosen
  }

  /**
   * The positions, in visiting order, that the `forEach`/`push` loop over a
   * result list collects: the positions of the results flagged as chosen.
   * The positions index the RESULT list, not the poll's answers.
   */
  function ChosenPositions(rs: seq<PollResult>): seq<nat>
    decreases |rs|
  {
    if rs == [] then []
    else ChosenPositions(rs[..|rs| - 1]) + (if Chosen(rs[|rs| - 1]) then [|rs| - 1] else [])
  }

  /** What a full snapshot rebuilds `chosenIndexes` to; an absent result list gives []. */
  function ChosenIndexesOf(snap: PollResults): seq<nat> {
    match snap.results
    case None => []
    case Some(rs) => ChosenPositions(rs)
  }

  /** The result-merge step on a poll value: only a full snapshot touches `chosenIndexes`. */
  function ApplyResults(p: PollRecord, snap: PollResults): PollRecord {
    if snap.min then p else p.(chosenIndexes := Some(ChosenIndexesOf(snap)))
  }

  /** `Object.assign(cached, incoming)` on poll values: incoming fields win, cached-only fields survive. */
  function Assign(cached: PollRecord, incoming: PollRecord): PollRecord {
    PollRecord(
      incoming.id,
      incoming.question,
      incoming.answers,
      if incoming.closePeriod.Some? then incoming.closePeriod else cached.closePeriod,
      if incoming.closeDate.Some? then incoming.closeDate else cached.closeDate,
      if incoming.pFlags.Some? then incoming.pFlags else cached.pFlags,
      if incoming.rQuestion.Some? then incoming.rQuestion else cached.rQuestion,
      if incoming.rReply.Some? then incoming.rReply else cached.rReply,
      if incoming.chosenIndexes.Some? then incoming.chosenIndexes else cached.chosenIndexes)
  }

  /** The bar-chart emoji that prefixes the reply label. */
  const ChartEmoji: string := "\U{1F4CA}"

  /** `wrapEmojiText('📊') + ' ' + (rQuestion || 'poll')`: an empty rendered question falls back to "poll". */
  function ReplyLabel(wrap: string -> string, rQuestion: string): string {
    wrap(ChartEmoji) + " " + (if rQuestion == "" then "poll" else rQuestion)
  }

  /** The first-sighting initialisation, applied before the result merge. */
  function Initialise(wrap: string -> string, p: PollRecord): PollRecord {
    p.(rQuestion := Some(wrap(p.question)),
       rReply := Some(ReplyLabel(wrap, wrap(p.question))),
       chosenIndexes := Some([]))
  }

  /**
   * The value of the poll `savePoll` returns, given the incoming poll, the
   * cached poll under the same id (if any), and the snapshot.
   */
  function SavedRecord(wrap: string -> string, incoming: PollRecord, cached: Option<PollRecord>,
                       snap: PollResults): PollRecord
  {
    match cached
    case None => ApplyResults(Initialise(wrap, incoming), snap)
    case Some(c) => ApplyResults(Assign(c, incoming), snap)
  }

  // ---------------------------------------------------------------------
  // The positions collected from a full snapshot

  ghost predicate StrictlyIncreasing(s: seq<nat>) {
    forall i, j :: 0 <= i < j < |s| ==> s[i] < s[j]
  }

  /** Every collected position is a valid position in the result list. */
  lemma {:induction false} ChosenPositionsBounded(rs: seq<PollResult>)
    ensures forall i :: 0 <= i < |ChosenPositions(rs)| ==> ChosenPositions(rs)[i] < |rs|
  {
    if rs != [] {
      ChosenPositionsBounded(rs[..|rs| - 1]);
    }
  }

  /** A position is collected exactly when the result there is flagged as chosen. */
  lemma {:induction false} ChosenPositionsMembership(rs: seq<PollResult>, j: int)
    ensures j in ChosenPositions(rs) <==> 0 <= j < |rs| && Chosen(rs[j])
  {
    if rs != [] {
      var init := rs[..|rs| - 1];
      ChosenPositionsMembership(init, j);
      ChosenPositionsBounded(init);
      if 0 <= j < |init| {
        assert rs[j] == init[j];
      }
    }
  }

  /** The positions come out in ascending order, so none is repeated. */
  lemma {:induction false} ChosenPositionsAscending(rs: seq<PollResult>)
    ensures StrictlyIncreasing(ChosenPositions(rs))
  {
    if rs != [] {
      ChosenPositionsAscending(rs[..|rs| - 1]);
      ChosenPositionsBounded(rs[..|rs| - 1]);
    }
  }

  /** The head of an ascending list is its least element. */
  lemma HeadIsLeast(s: seq<nat>, x: nat)
    requires StrictlyIncreasing(s) && x in s
    ensures s[0] <= x
  {
  }

  /** Two ascending lists with the same elements are the same list. */
  lemma {:induction false} StrictlyIncreasingUnique(a: seq<nat>, b: seq<nat>)
    requires StrictlyIncreasing(a) && StrictlyIncreasing(b)
    requires forall x :: x in a <==> x in b
    ensures a == b
  {
    assert a != [] ==> a[0] in b;
    assert b != [] ==> b[0] in a;
    if a != [] && b != [] {
      // the heads are both the least element
      HeadIsLeast(a, b[0]);
      HeadIsLeast(b, a[0]);
      forall x
        ensures x in a[1..] <==> x in b[1..]
      {
        TailMembership(a, x);
        TailMembership(b, x);
      }
      StrictlyIncreasingUnique(a[1..], b[1..]);
      assert a == [a[0]] + a[1..] && b == [b[0]] + b[1..];
    }
  }

  /** Past the head of an ascending list lie exactly its elements other than the head. */
  lemma TailMembership(s: seq<nat>, x: nat)
    requires StrictlyIncreasing(s) && s != []
    ensures StrictlyIncreasing(s[1..])
    ensures x in s[1..] <==> x in s && x != s[0]
  {
  }

  /**
   * The rebuilt list is THE ascending list of chosen positions: any ascending
   * list holding exactly the positions of chosen results equals it.
   */
  lemma ChosenPositionsCharacterised(rs: seq<PollResult>, s: seq<nat>)
    requires StrictlyIncreasing(s)
    requires forall j :: j in s <==> 0 <= j < |rs| && Chosen(rs[j])
    ensures s == ChosenPositions(rs)
  {
    ChosenPositionsAscending(rs);
    forall x ensures x in s <==> x in ChosenPositions(rs) {
      ChosenPositionsMembership(rs, x);
    }
    StrictlyIncreasingUnique(s, ChosenPositions(rs));
  }

  /** A snapshot with no per-answer results, or an empty list of them, rebuilds to []. */
  lemma ChosenIndexesOfEmpty(snap: PollResults)
    requires snap.results.None? || snap.results == Some([])
    ensures ChosenIndexesOf(snap) == []
  {
  }

  /**
   * Every rebuilt index is a valid answer index, denoting the answer whose
   * option key the chosen result carries, PROVIDED the result list is aligned
   * with the answers (same length, same option keys in the same order).
   * Nothing in the reconciler checks this alignment.
   */
  lemma ChosenIndexesDenoteAnswers(answers: seq<PollAnswer>, snap: PollResults)
    requires snap.results.Some?
    requires |snap.results.value| == |answers|
    requires forall i :: 0 <= i < |answers| ==> snap.results.value[i].option == answers[i].option
    ensures forall k :: 0 <= k < |ChosenIndexesOf(snap)| ==>
      var i := ChosenIndexesOf(snap)[k];
      i < |answers| && Chosen(snap.results.value[i]) && snap.results.value[i].option == answers[i].option
  {
    var rs := snap.results.value;
    ChosenPositionsBounded(rs);
    forall k | 0 <= k < |ChosenPositions(rs)|
      ensures Chosen(rs[ChosenPositions(rs)[k]])
    {
      ChosenPositionsMembership(rs, ChosenPositions(rs)[k]);
    }
  }

  // ---------------------------------------------------------------------
  // The result-merge step

  /** A partial snapshot leaves the chosen state exactly as it was, and nothing else changes. */
  lemma MinSnapshotPreservesChoice(p: PollRecord, snap: PollResults)
    requires snap.min
    ensures ApplyResults(p, snap) == p
  {
  }

  /** A full snapshot replaces the chosen state whatever it was, and only it. */
  lemma FullSnapshotRebuildsChoice(p: PollRecord, q: PollRecord, snap: PollResults)
    requires !snap.min
    requires p.(chosenIndexes := None) == q.(chosenIndexes := None)
    ensures ApplyResults(p, snap) == ApplyResults(q, snap)
    ensures ApplyResults(p, snap).chosenIndexes == Some(ChosenIndexesOf(snap))
    ensures ApplyResults(p, snap).(chosenIndexes := None) == p.(chosenIndexes := None)
  {
  }

  /** Snapshots applied one after another, in arrival order. */
  function ApplyAll(p: PollRecord, snaps: seq<PollResults>): PollRecord
    decreases |snaps|
  {
    if snaps == [] then p else ApplyResults(ApplyAll(p, snaps[..|snaps| - 1]), snaps[|snaps| - 1])
  }

  /** The latest full snapshot of a sequence, if there is one. */
  function LastFull(snaps: seq<PollResults>): Option<PollResults>
    decreases |snaps|
  {
    if snaps == [] then None
    else if !snaps[|snaps| - 1].min then Some(snaps[|snaps| - 1])
    else LastFull(snaps[..|snaps| - 1])
  }

  /**
   * However many partial snapshots arrive, the chosen state is the one the
   * latest full snapshot determined, or the initial one when none was full.
   */
  lemma {:induction false} ChosenStateFollowsLastFullSnapshot(p: PollRecord, snaps: seq<PollResults>)
    ensures ApplyAll(p, snaps).chosenIndexes ==
      match LastFull(snaps)
      case None => p.chosenIndexes
      case Some(s) => Some(ChosenIndexesOf(s))
    ensures ApplyAll(p, snaps).(chosenIndexes := None) == p.(chosenIndexes := None)
  {
    if snaps != [] {
      ChosenStateFollowsLastFullSnapshot(p, snaps[..|snaps| - 1]);
    }
  }

  // ---------------------------------------------------------------------
  // The shallow merge

  /** Every field the incoming poll has takes the incoming value. */
  lemma AssignIncomingWins(cached: PollRecord, incoming: PollRecord)
    ensures var m := Assign(cached, incoming);
      && m.id == incoming.id && m.question == incoming.question && m.answers == incoming.answers
      && (incoming.closePeriod.Some? ==> m.closePeriod == incoming.closePeriod)
      && (incoming.closeDate.Some? ==> m.closeDate == incoming.closeDate)
      && (incoming.pFlags.Some? ==> m.pFlags == incoming.pFlags)
      && (incoming.rQuestion.Some? ==> m.rQuestion == incoming.rQuestion)
      && (incoming.rReply.Some? ==> m.rReply == incoming.rReply)
      && (incoming.chosenIndexes.Some? ==> m.chosenIndexes == incoming.chosenIndexes)
  {
  }

  /** Every field the incoming poll lacks keeps its cached value. */
  lemma AssignCachedSurvives(cached: PollRecord, incoming: PollRecord)
    ensures var m := Assign(cached, incoming);
      && (incoming.closePeriod.None? ==> m.closePeriod == cached.closePeriod)
      && (incoming.closeDate.None? ==> m.closeDate == cached.closeDate)
      && (incoming.pFlags.None? ==> m.pFlags == cached.pFlags)
      && (incoming.rQuestion.None? ==> m.rQuestion == cached.rQuestion)
      && (incoming.rReply.None? ==> m.rReply == cached.rReply)
      && (incoming.chosenIndexes.None? ==> m.chosenIndexes == cached.chosenIndexes)
  {
  }

  /** Merging a poll into itself changes nothing (the cache fallback of an update). */
  lemma AssignSelf(p: PollRecord)
    ensures Assign(p, p) == p
  {
  }

  /** Merging the same incoming poll twice is the same as merging it once. */
  lemma AssignIdempotent(cached: PollRecord, incoming: PollRecord)
    ensures Assign(Assign(cached, incoming), incoming) == Assign(cached, incoming)
  {
  }

  /** A field the cache owns survives a server copy of the poll, which never carries it. */
  lemma AssignKeepsCacheOwnedFields(cached: PollRecord, incoming: PollRecord)
    requires incoming.rQuestion.None? && incoming.rReply.None? && incoming.chosenIndexes.None?
    ensures var m := Assign(cached, incoming);
      m.rQuestion == cached.rQuestion && m.rReply == cached.rReply && m.chosenIndexes == cached.chosenIndexes
  {
  }

  // ---------------------------------------------------------------------
  // savePoll on values

  /** First sighting: cached labels derived from the question, and a partial first snapshot leaves no choice. */
  lemma FirstSightingInitialises(wrap: string -> string, incoming: PollRecord, snap: PollResults)
    ensures var r := SavedRecord(wrap, incoming, None, snap);
      && r.id == incoming.id && r.question == incoming.question && r.answers == incoming.answers
      && r.pFlags == incoming.pFlags
      && r.rQuestion == Some(wrap(incoming.question))
      && r.rReply == Some(wrap(ChartEmoji) + " " + (if wrap(incoming.question) == "" then "poll" else wrap(incoming.question)))
      && r.chosenIndexes == Some(if snap.min then [] else ChosenIndexesOf(snap))
  {
  }

  /** Already cached: a partial snapshot leaves the merged poll's chosen state as cached. */
  lemma CachedMinKeepsChoice(wrap: string -> string, cached: PollRecord, incoming: PollRecord, snap: PollResults)
    requires snap.min && incoming.chosenIndexes.None?
    ensures SavedRecord(wrap, incoming, Some(cached), snap).chosenIndexes == cached.chosenIndexes
  {
  }
}
