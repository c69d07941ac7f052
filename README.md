# Poll cache and reconciler

A Dafny model of the poll cache kept by the web client's `AppPollsManager`
(`src/lib/appManagers/appPollsManager.ts`). The manager keeps two dictionaries
keyed by poll id: `polls`, the poll objects it shares with the rest of the
client, and `results`, the latest result snapshot of each poll. Server updates
and message loads are merged into it by `savePoll`/`saveResults`: a poll seen
for the first time is stored and given its rendered labels and an empty
`chosenIndexes`; a poll already cached has the incoming fields copied onto the
cached object (`Object.assign`). The snapshot then replaces the stored one,
and `chosenIndexes`, the positions the current user voted for, is rebuilt only
from a full snapshot: a snapshot with the `min` flag of the `pollResults`
constructor carries no reliable information about the user's own vote.

Files:

- `wrappers.dfy` (module `Wrappers`): `Option` for absent optional fields, `Result` for errors.
- `polls.dfy` (module `Polls`): the entities as datatypes, and the reconciler on values:
  the shallow merge `Assign`, the first-sighting `Initialise`, the rebuild
  `ChosenPositions`/`ChosenIndexesOf`, the result-merge step `ApplyResults`, and the
  value `SavedRecord` that `savePoll` produces. Lemmas state what these promise.
- `requests.dfy` (module `PollRequests`): the pure pieces of the outbound requests: the
  option keys of a vote, the closed copy that stopping a poll sends, the `inputMediaPoll`
  record, and the flag word of a voter-list query.
- `manager.dfy` (modules `PollsManager` and `PollsScenario`): the poll object as a class
  `Poll` whose fields are updated in place, and the manager as a class
  `AppPollsManager` with the two dictionaries as `map` fields, a ghost log of the
  `poll_update` events it broadcasts, and the rendering and markdown functions
  injected as constants. Its methods are proved against the functions of `Polls`.
  `PollsScenario.FullThenPartialSnapshot` is a client that walks through a full snapshot
  followed by a partial one and proves the outcome from the contracts alone.

The positions in `chosenIndexes` are positions in the snapshot's result list,
not in the poll's answers (lines 130-132). That they denote answers is proved
only under an explicit alignment assumption (`Polls.ChosenIndexesDenoteAnswers`).
Nothing in the code makes these positions answer indexes, so the model states
the alignment as a hypothesis.

## Model

| member | source | states |
|---|---|---|
| `Polls.ChosenPositionsMembership` | src/lib/appManagers/appPollsManager.ts:129-135 | a position is collected exactly when it is a position of the result list whose `pFlags.chosen` is set (missing `pFlags` count as not chosen) |
| `Polls.ChosenPositionsBounded` | src/lib/appManagers/appPollsManager.ts:130-134 | every collected position is less than the length of the result list |
| `Polls.ChosenPositionsAscending` | src/lib/appManagers/appPollsManager.ts:130-134 | the collected positions are strictly ascending, hence free of duplicates |
| `Polls.ChosenPositionsCharacterised` | src/lib/appManagers/appPollsManager.ts:128-135 | any ascending list holding exactly the chosen positions equals the rebuilt list, so the rebuild is THE ascending list of chosen positions |
| `Polls.ChosenIndexesOfEmpty` | src/lib/appManagers/appPollsManager.ts:128-129 | a snapshot whose result list is absent or empty rebuilds `chosenIndexes` to the empty list |
| `Polls.ChosenIndexesDenoteAnswers` | src/lib/appManagers/appPollsManager.ts:130-132 | if the result list is aligned with the answers, every rebuilt index is an answer index whose option key is that of a chosen result |
| `Polls.MinSnapshotPreservesChoice` | src/lib/appManagers/appPollsManager.ts:127 | a `min` snapshot leaves the poll, `chosenIndexes` included, exactly as it was |
| `Polls.FullSnapshotRebuildsChoice` | src/lib/appManagers/appPollsManager.ts:127-135 | a full snapshot sets `chosenIndexes` to the rebuilt list whatever it held before, and changes no other field |
| `Polls.ChosenStateFollowsLastFullSnapshot` | src/lib/appManagers/appPollsManager.ts:124-137 | after any sequence of snapshots, `chosenIndexes` is the one the latest full snapshot determines, or the initial one if none was full; no other field changes |
| `Polls.AssignIncomingWins` | src/lib/appManagers/appPollsManager.ts:109-110 | after the merge, every field present on the incoming poll has the incoming value |
| `Polls.AssignCachedSurvives` | src/lib/appManagers/appPollsManager.ts:109-110 | after the merge, every optional field absent from the incoming poll keeps its cached value |
| `Polls.AssignSelf` | src/lib/appManagers/appPollsManager.ts:92-110 | merging a poll into itself (an update that falls back to the cached poll) changes nothing |
| `Polls.AssignIdempotent` | src/lib/appManagers/appPollsManager.ts:110 | merging the same incoming poll twice gives the same result as merging it once |
| `Polls.AssignKeepsCacheOwnedFields` | src/lib/appManagers/appPollsManager.ts:110-121 | a server copy, which lacks `rQuestion`, `rReply` and `chosenIndexes`, leaves those cached fields as they were |
| `Polls.FirstSightingInitialises` | src/lib/appManagers/appPollsManager.ts:115-121 | first sighting: `rQuestion` is the rendered question, `rReply` is the rendered chart emoji, a space, and the rendered question or "poll" when that is empty; `chosenIndexes` is empty after a `min` snapshot and the rebuilt list after a full one |
| `Polls.CachedMinKeepsChoice` | src/lib/appManagers/appPollsManager.ts:109-127 | a cached poll merged with a server copy and a `min` snapshot keeps its cached `chosenIndexes` |
| `PollsManager.Poll.AssignFrom` | src/lib/appManagers/appPollsManager.ts:110 | `Object.assign` in place: the object's new value is the merge of its old value with the source's, also when the source is the object itself |
| `PollsManager.AppPollsManager.constructor` | src/lib/appManagers/appPollsManager.ts:74-75 | the cache starts with both dictionaries empty and no event broadcast |
| `PollsManager.AppPollsManager.SaveResults` | src/lib/appManagers/appPollsManager.ts:124-137 | stores the snapshot under the poll's id whether `min` is set or not, leaves the other ids and all other objects alone, and changes the poll's `chosenIndexes` only for a full snapshot, to the rebuilt list |
| `PollsManager.AppPollsManager.SavePoll` | src/lib/appManagers/appPollsManager.ts:107-122 | returns the cached object when the id was cached (the incoming object is then untouched) and the incoming object otherwise; only that id's entries change in both dictionaries; the returned poll's value is the first-sighting or merged value with the snapshot applied; the cache invariant is kept |
| `PollsManager.AppPollsManager.HandleUpdate` | src/lib/appManagers/appPollsManager.ts:87-105 | other update kinds and an unresolvable `updateMessagePoll` change nothing and broadcast nothing; otherwise the embedded poll is preferred over the cached one, it is saved as `SavePoll` states (an embedded poll merged into a cached one stays unchanged), and exactly one `poll_update` event with the saved poll and the raw snapshot is broadcast |
| `PollsManager.AppPollsManager.GetPoll` | src/lib/appManagers/appPollsManager.ts:139-144 | finds exactly the cached ids and returns the cached poll object and snapshot for them; under the cache invariant either both halves are present or neither, and a present poll carries the requested id |
| `PollsManager.AppPollsManager.StopPoll` | src/lib/appManagers/appPollsManager.ts:234-243 | no edit when the poll is already closed; otherwise an edit whose media is the closed copy with no solution and no correct answers; the poll object is not changed |
| `PollRequests.ClosedCopy` | src/lib/appManagers/appPollsManager.ts:238-241 | no copy exactly when `closed` is set; a copy has `closed` set and differs from the poll in that flag alone |
| `PollRequests.ClosingTwiceIsNoOp` | src/lib/appManagers/appPollsManager.ts:238-241 | stopping the closed copy would itself short-circuit: closing is idempotent |
| `PollRequests.OptionsFor` | src/lib/appManagers/appPollsManager.ts:166-168 | succeeds exactly when every selected index is an answer index, and then yields one option key per index, in order, the key of that answer; otherwise fails with the first out-of-range index |
| `PollRequests.GetInputMediaPoll` | src/lib/appManagers/appPollsManager.ts:146-160 | the record carries the poll and correct answers unchanged; a non-empty solution is replaced by its parsed text and entities, an absent or empty one is passed on without entities |
| `PollRequests.VotesFlags` | src/lib/appManagers/appPollsManager.ts:209-216 | bit 0 is set exactly when an option key is given, bit 1 exactly when a non-empty offset is given, and no other bit is set |
| `PollRequests.GetVotesRequest` | src/lib/appManagers/appPollsManager.ts:204-224 | the voter-list request carries the given id, option and offset, flag bits that agree with them, and a limit of 20 when none is given |

## Left out

- The RPC calls (`invokeApi` for `messages.sendVote`, `messages.getPollResults`, `messages.getPollVotes`) and the routing of their answers through `processUpdateMessage`: network I/O and promises. `getResults` is therefore not modelled at all; `sendVote`, `getVotes` and `stopPoll` are modelled up to the request they would send.
- The message store (`getMessage`, `editMessage`), the peer resolver (`getInputPeerByID`) and the user cache (`saveApiUsers`): collaborators whose source is not part of this model. The poll of a message is a parameter of `StopPoll`, and its answers list a parameter of `OptionsFor`; the peer is not modelled.
- The deferred re-send of a vote on a message with a negative (not yet sent) id: scheduling owned by the message store.
- The `rootScope.on('apiUpdate')` subscription and the `rootScope.broadcast` event bus: the update is a parameter of `HandleUpdate`, and a broadcast is an event appended to the ghost `events` log.
- `wrapEmojiText` and `parseMarkdown`: text rendering whose source is not part of this model; both are injected function values, so every property holds for any renderer and parser.
- `copy` from `helpers/object`: its source is not part of this model; it is taken to be a deep copy, so the closed copy is a value (`View()`), and the original poll's flags cannot be affected.
- The logger, the `_` constructor tags and the numeric wire `flags` of polls and results (the `pFlags` objects carry the same information).
- Sharing of one `chosenIndexes` array between two poll objects: the array is a value field of the poll object, so if `Object.assign` copied an incoming `chosenIndexes` array reference, later in-place rebuilds of one object would not be seen through the other. Server copies of a poll never carry this field.
- `Object.assign` of own properties whose value is `undefined`: a field is either present with a value or absent.
- JavaScript numbers: indexes, counts and dates are unbounded integers; a fractional vote index, which reads `undefined` like an out-of-range one, is not represented.
- PollsManager.AppPollsManager.SaveResults: requires `chosenIndexes` to be present for a full snapshot, because the code would throw a `TypeError` on `chosenIndexes.length = 0` otherwise; every poll the cache holds has it.
- PollsManager.AppPollsManager.StopPoll: requires the poll's `pFlags` to be present, because the code reads `poll.pFlags.closed` unconditionally and would throw otherwise.
- PollRequests.ClosedCopy: requires `pFlags` to be present, for the same reason.
