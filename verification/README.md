# Reddit-style persona chat, modelled in Dafny

The application simulates a Reddit thread. A user writes comments and
replies. Personas, which are personalities voiced by a language model, answer
them. This project models the logic of the application's React components:

- **Choosing which persona answers** (`persona_selector.dfy`, module
  `PersonaSelector`).
  - A direct `@name` or `u/name` mention wins outright.
  - Otherwise the model's free-text analysis is decoded. That gives whether
    the conversation continues, who spoke before, and a 1-based persona
    number, read by three strategies in turn.
  - A continued conversation with a known previous speaker overrides the
    number. Anything unusable falls back to a random persona.
- **The comment thread as a value** (`comment_tree.dfy`, module
  `CommentTree`).
  - Nodes and the thread's three-tier shape.
  - The nesting level, toggling reply boxes and voting.
  - Inserting user and persona replies.
  - Streaming text into a root comment.
  - The history handed to the selector and the targets of a follow-up reply.
- **The chat component** (`chat.dfy`, module `Chat`, class `ChatView`).
  - The thread, the error banner, the streaming flags and the comment box.
  - `generateResponse`: its guards, the casting of author and typing
    indicator, the three ways of writing the comment, the error path and the
    follow-up reply (`generateRandomReply`).
  - The submit handlers.
  - A turn reads the thread as it was when its handler ran (`view`). It
    writes through updater functions into the thread as it is now
    (`messages`).
- **The comment box with `@` completion** (`comment_input.dfy`, module
  `CommentInput`, class `MentionBox`).
- **The thread list** (`thread_builder.dfy`, module `Threads`, class
  `ThreadBuilder`): create, delete and clear-comments.
- **The thread search box** (`thread_search.dfy`, module `ThreadSearch`,
  class `SearchBox`).
- **The relative-time labels** used in the thread, the thread list and the
  user popup (`relative_time.dfy`).

Supporting modules hold the pieces of JavaScript these rely on:

- `wrappers.dfy` has `Option`.
- `seqs.dfy` has `filter`, `findIndex` and `join`.
- `js_text.dfy` has `trim`, `toLowerCase`, `includes`, `split`,
  `startsWith`, `replace` on a first occurrence, and decimal digits.

Everything outside the program's own logic is a parameter of the model:

- the language model's answers, and whether a completion call fails;
- the streamed fragments;
- `Math.random()` draws, which are reals in [0, 1);
- the clock: `Date.now()` and the timestamps;
- the browser's `confirm` answers;
- what `localStorage` holds. `None` stands for absent or unparsable.

Ids are JavaScript numbers, modelled as `int`. An id given as `null` or `0`
counts as "not given" (`CommentTree.Given`), as JavaScript truthiness does.

## Model

| member | source | states |
|---|---|---|
| PersonaSelector.FirstMention | src/components/Chat.js:28-41 | the index of the first roster persona that the message mentions as `@name` or `u/name` (any case, followed by a word boundary); -1 exactly when no persona is mentioned |
| PersonaSelector.Mentions | src/components/Chat.js:28-30 | a mention needs the name and at least its `@` in the text |
| PersonaSelector.MentionDetected | src/components/Chat.js:28-30 | `@NAME` anywhere in the message, with a name ending in a word character and followed by the end or a non-word character, is a mention |
| PersonaSelector.FindMention | src/components/Chat.js:28-41 | the roster scan finds exactly that first mentioned persona |
| PersonaSelector.AnswerLines | src/components/Chat.js:115 | no kept line of the answer is blank |
| PersonaSelector.SpeakerValue | src/components/Chat.js:127-129 | a "Previous Speaker:" line always has a second colon-separated field; the speaker is that field trimmed, with its first `u/` removed |
| PersonaSelector.PreviousSpeaker | src/components/Chat.js:124-129 | there is no previous speaker exactly when no line starts with "Previous Speaker:" |
| PersonaSelector.SelectedNumberFrom | src/components/Chat.js:137 | the pattern `Selected Persona:\s*(\d+)` fails exactly when it matches at no position; otherwise the number is the one captured at a match |
| PersonaSelector.LastNumberLine | src/components/Chat.js:153-163 | the last line that is a bare number once trimmed; no later line is one |
| PersonaSelector.ScanForNumber | src/components/Chat.js:153-163 | the backward loop yields the last bare-number line's number minus one, or -1 |
| PersonaSelector.DecodeIndex | src/components/Chat.js:131-163 | decoding fails (reading the last line throws) exactly when the answer has no lines; otherwise the index is at least -1 |
| PersonaSelector.LastLineDecodes | src/components/Chat.js:144-151 | with no "Selected Persona:" line, a last line that is the bare number N decodes to N - 1 whatever the lines above say |
| PersonaSelector.BackwardScanDecodes | src/components/Chat.js:153-163 | with no "Selected Persona:" line and a last line that is not a bare number, the last bare-number line N decodes to N - 1 |
| PersonaSelector.DecodeSelectedIndex | src/components/Chat.js:131-163 | the three strategies as run in turn agree with `DecodeIndex` |
| PersonaSelector.RandomIndex | src/components/Chat.js:211 | `Math.floor(Math.random() * n)` is a valid index |
| PersonaSelector.RandomPick | src/components/Chat.js:210-223 | the random fallback is a roster member with no continuation, no previous speaker and no mention |
| PersonaSelector.IndexOfUsername | src/components/Chat.js:172 | the first roster index with exactly that username, or -1 when there is none |
| PersonaSelector.Decide | src/components/Chat.js:169-224 | once the model has answered, the pick is a roster member and is never flagged as a direct mention |
| PersonaSelector.DecideFromAnswer | src/components/Chat.js:169-224 | the override and fallback ladder as run agree with `Decide` |
| PersonaSelector.Select | src/components/Chat.js:20-239 | no result exactly when the roster is empty; otherwise the pick is always a roster member |
| PersonaSelector.SelectBestPersona | src/components/Chat.js:20-239 | the selector as run agrees with `Select` |
| PersonaSelector.DirectMentionShortCircuits | src/components/Chat.js:28-41 | the result is flagged as a direct mention exactly when some persona is mentioned; then the first one mentioned is chosen, whatever the model answers and whatever the draw |
| PersonaSelector.ContinuityOverridesIndex | src/components/Chat.js:169-177 | a continued conversation whose previous speaker is on the roster selects that speaker, whatever number the answer gives |
| PersonaSelector.OutOfRangeFallsBackToRandom | src/components/Chat.js:192-223 | an index out of range always ends in the random pick; the previous-speaker fallback can never apply |
| PersonaSelector.BlankAnswerFallsBack | src/components/Chat.js:226-237 | an answer of white space only leaves no lines, and the persona is random |
| PersonaSelector.PlainAnswerPicks | src/components/Chat.js:180-191 | a single plain line that decodes to `k` picks persona `k` with an empty analysis |
| PersonaSelector.SelectedLineDecodes | src/components/Chat.js:134-142 | the answer "Selected Persona: N" picks the N-th persona, counting from one |
| PersonaSelector.BareNumberDecodes | src/components/Chat.js:144-151 | the answer "N" also picks the N-th persona |
| RelativeTime.ElapsedMinutes | src/components/Chat.js:729 | whole minutes rounded down, negative differences included |
| RelativeTime.Bucket | src/components/ThreadBuilder.js:116-125 | the four buckets (under 1 minute, under 60, under 1440, beyond) and the figure each shows: hours and days rounded down |
| RelativeTime.RenderRoundTrip | src/components/Chat.js:731-734 | every label reads back as the bucket it came from, so no two buckets share a label |
| RelativeTime.FormatTimestamp | src/components/Chat.js:726-735 | the label reads back as the bucket of the elapsed minutes; it is "just now" exactly below one minute |
| RelativeTime.FormatLastActive | src/components/UserInfoPopup.js:5-14 | the same bucketing with "Just now"; equal to the comment label from one minute on |
| JsText.TrimSpec | src/components/ThreadSearch.js:25 | a trimmed text is empty exactly when the text is all white space, and otherwise has no white space at either end |
| CommentTree.Locate | src/components/Chat.js:352 | `find` by id: the first node with the id, or -1 exactly when none has it |
| CommentTree.NestingLevel | src/components/Chat.js:349-361 | the level is between 0 and 3; it is 0 exactly when no parent is given or the parent is not in the thread |
| CommentTree.LevelsInThreeTiers | src/components/Chat.js:355-360 | in a thread the application built, level 2 never occurs; level 3 exactly when both ids are given and the reply is found under the parent, because an empty reply list is truthy |
| CommentTree.ToggleAmong | src/components/Chat.js:311-313 | only the reply-box flags change; a box is open exactly when it is the target's box and was closed |
| CommentTree.AtMostOneEditorOpen | src/components/Chat.js:311-313 | with distinct ids, at most one reply box is open after a toggle |
| CommentTree.ToggleReply | src/components/Chat.js:295-315 | without a reply id it is `ToggleAmong` of the top level; with one, only the message's replies change, and they become `ToggleAmong` of the old replies; the other top-level nodes are unchanged |
| CommentTree.ToggleKeepsThreeTiers | src/components/Chat.js:295-315 | toggling keeps the thread's three-tier shape |
| CommentTree.Bump | src/components/Chat.js:326-330 | a vote adds exactly one to exactly one counter and changes nothing else |
| CommentTree.VoteAmong | src/components/Chat.js:337-345 | the nodes with the id get exactly one more vote (`Bump`); every other node is unchanged |
| CommentTree.Vote | src/components/Chat.js:317-347 | a top-level vote is `VoteAmong` of the list; a reply vote changes only the nodes with the parent id, and in them only the replies, which become `VoteAmong` of the old replies |
| CommentTree.ReplyVoteAddsOne | src/components/Chat.js:319-336 | with distinct ids, a vote on a reply raises its parent's reply tally by exactly one and leaves the top-level tally and every other top-level node unchanged |
| CommentTree.VoteAddsOne | src/components/Chat.js:337-345 | with distinct ids, a vote on a present node raises the total vote count by exactly one |
| CommentTree.VoteKeepsThreeTiers | src/components/Chat.js:317-347 | voting keeps the three-tier shape |
| CommentTree.AppendReply | src/components/Chat.js:647-665 | the node is appended to the reply list of each node with the parent id; every other node is unchanged |
| CommentTree.NestUnder | src/components/Chat.js:615-633 | the node is appended under each reply with the reply id (a missing list counts as empty); other replies are unchanged |
| CommentTree.AppendNested | src/components/Chat.js:611-636 | each top-level node with the parent id changes only in its replies, which become `NestUnder` of the old ones; every other top-level node is unchanged |
| CommentTree.InsertUserReply | src/components/Chat.js:748-796 | with a reply id the user's node goes under that reply of the message (`AppendNested`), otherwise into the message's own replies (`AppendReply`); either way the box typed in closes and all other nodes are unchanged |
| CommentTree.SlotFor | src/components/Chat.js:463-472 | the reply id is kept exactly when given and the level is below 3; otherwise the comment goes under the parent, or at the root when no parent is given |
| CommentTree.Place | src/components/Chat.js:602-693 | a root comment is appended at the end; under a parent it is `AppendReply` of that parent; under a reply it is `AppendNested` of that reply; no editor is closed |
| CommentTree.PersonaNeverNests | src/components/Chat.js:602-636 | in a thread the application built, a placement that keeps the reply id finds no reply to nest under, so the comment is lost |
| CommentTree.ReplyToReplyIsFlattened | src/components/Chat.js:463-472 | an answer to a reply that is found goes into the parent's reply list, one tier up |
| CommentTree.PlaceKeepsThreeTiers | src/components/Chat.js:602-693 | placing a new leaf keeps the three-tier shape |
| CommentTree.UserReplyKeepsThreeTiers | src/components/Chat.js:748-796 | inserting the user's reply keeps the three-tier shape |
| CommentTree.StreamFillsRoot | src/components/Chat.js:670-692 | streaming into a freshly appended root with a new id leaves that root holding all fragments joined, and the rest of the thread unchanged |
| CommentTree.LastThree | src/components/Chat.js:505 | `slice(-3)`: the last three messages, or all of them when fewer |
| CommentTree.History | src/components/Chat.js:479-506 | with no ids, the last three messages; otherwise empty exactly when the parent is missing, and else it starts with the parent; with a reply id it is the parent, then the reply and its own replies when the reply is found, or the parent alone when it is not; with only the parent it is the parent and all its replies |
| CommentTree.FollowUpFor | src/components/Chat.js:370-421 | there is no follow-up exactly when the message replied to is missing; its targets are the ids given; when both ids are truthy, a found reply is both the last responder and the immediate parent (the "last nested reply" case cannot occur, since such a reply is level 3), and a missing reply excludes nobody; otherwise the immediate parent is the message found and the last responder its last reply, or itself when it has none |
| CommentTree.FreshReplyExcludesNobody | src/components/Chat.js:399-411 | for a reply just written, not yet in the earlier thread, no persona is excluded |
| Chat.ErrorText | src/components/Chat.js:702 | the error text is never empty, and is the failure's own message when that is non-empty |
| Chat.Others | src/components/Chat.js:530-533 | exactly the roster personas that would not answer themselves |
| Chat.ChooseAuthor | src/components/Chat.js:509-550 | the turn is silent exactly when the roster is empty, or when the first pick is neither a mention nor a continuation, would answer itself, and no other persona is left |
| Chat.AuthorIsFirstPick | src/components/Chat.js:515-550 | the comment is always written by the selector's first pick, a roster member; a different persona is only announced as typing, and only when the pick would answer itself |
| Chat.Deliver | src/components/Chat.js:599-719 | the error banner shows the failure's text exactly when the stream fails, and is cleared otherwise |
| Chat.Turn | src/components/Chat.js:474-693 | a silent casting leaves the thread as it is; the error shows exactly when someone was cast and the stream failed |
| Chat.Respond | src/components/Chat.js:449-461 | without a client the error is the service message and the thread is untouched; a follow-up from the second step on changes nothing |
| Chat.StreamKeepsThreeTiers | src/components/Chat.js:683-692 | streaming fragments keeps the three-tier shape |
| Chat.DeliverKeepsThreeTiers | src/components/Chat.js:599-719 | writing a comment, failed or not, keeps the three-tier shape |
| Chat.TurnKeepsThreeTiers | src/components/Chat.js:449-724 | a whole `generateResponse` keeps the three-tier shape |
| Chat.FailedReplyIsDropped | src/components/Chat.js:700-719 | when a parent was given and the stream fails, the thread is unchanged: the text gathered is lost |
| Chat.CompletedRootComment | src/components/Chat.js:667-693 | a completed root comment is appended at the end with the whole text and the id `viewSize + 2`, and no error |
| Chat.FailedRootKeepsPartialText | src/components/Chat.js:700-719 | a root comment that fails part-way keeps its partial text and is followed by the apology, which carries the same id |
| Chat.Available | src/components/Chat.js:423-427 | every persona left is neither the last responder nor the immediate parent |
| Chat.FollowUpRequest | src/components/Chat.js:363-447 | a follow-up is scheduled only below the chain limit, for a message found, with some persona left and a draw below 0.7; it is a random reply one step further, quoting the comment |
| Chat.ChainStopsAfterOneStep | src/components/Chat.js:457-461 | a scheduled follow-up stops at the guard of `generateResponse` without touching the thread or the error, and would schedule nothing further |
| Chat.ChatView.constructor | src/components/Chat.js:255-285 | the thread starts as the welcome message; the error is the start-up failure; the client is ready exactly when there is none |
| Chat.ChatView.ToggleReply | src/components/Chat.js:295-315 | the thread becomes `ToggleReply` of the old thread; nothing else changes and the shape is kept |
| Chat.ChatView.HandleVote | src/components/Chat.js:317-347 | the thread becomes `Vote` of the old thread; nothing else changes |
| Chat.ChatView.HandleAddComment | src/components/Chat.js:737-739 | the top-level comment box opens; nothing else changes |
| Chat.ChatView.SetReplyText | src/components/Chat.js:899 | the box text becomes the typed text; nothing else changes |
| Chat.ChatView.ClearMessages | src/components/Chat.js:841-856 | after confirmation the thread is the welcome message alone; otherwise it is unchanged |
| Chat.ChatView.CastTurn | src/components/Chat.js:515-550 | returns `ChooseAuthor`'s casting and announces its typing persona |
| Chat.ChatView.Gather | src/components/Chat.js:639-643 | the accumulation loop yields all fragments joined |
| Chat.ChatView.StreamInto | src/components/Chat.js:683-692 | the per-fragment update loop leaves the thread equal to `StreamChunks` of the old thread, and returns the whole text |
| Chat.ChatView.DeliverTurn | src/components/Chat.js:599-719 | the thread and the error become `Deliver`'s; the comment completes exactly when the stream does, with the whole text and its new id |
| Chat.ChatView.Speak | src/components/Chat.js:474-693 | the thread and the error become `Turn`'s; a completed comment implies someone was cast |
| Chat.ChatView.GenerateRandomReply | src/components/Chat.js:363-447 | the follow-up it schedules changes neither the thread nor the error nor the flags |
| Chat.ChatView.GenerateResponse | src/components/Chat.js:449-724 | the thread and the error become `Respond`'s; a turn that started ends with streaming off and no typing persona |
| Chat.ChatView.HandleSubmitReply | src/components/Chat.js:741-800 | a blank text, or a turn in progress, changes nothing; otherwise the box empties, the user's reply is inserted, and the turn answers it while reading the thread as it was before |
| Chat.ChatView.HandleSubmitComment | src/components/Chat.js:802-838 | the same for a top-level comment appended at the end; the box closes |
| CommentInput.CurrentWord | src/components/CommentInput.js:59-61 | the word is the longest space-free suffix of the text before the cursor |
| CommentInput.Suggest | src/components/CommentInput.js:64-68 | the usernames of the matching personas in roster order: each listed name contains the term once lower-cased, and every matching persona is listed |
| CommentInput.SuggestAppend | src/components/CommentInput.js:64-68 | suggesting over two rosters in a row lists the first one's matches first, then the second one's |
| CommentInput.BareAtListsEveryone | src/components/CommentInput.js:64-68 | a bare `@` lists every persona, in roster order |
| CommentInput.InsertName | src/components/CommentInput.js:109-117 | the cursor lands right after the inserted `@`, name and space; what precedes them is a prefix of the text before the cursor; the text after the cursor follows unchanged |
| CommentInput.InsertKeepsSurroundings | src/components/CommentInput.js:109-117 | inserting a name keeps the text before the word and after the cursor; the cursor lands after the inserted space |
| CommentInput.EmptyWordDropsText | src/components/CommentInput.js:114 | with an empty word, `slice(0, -0)` drops all text before the cursor |
| CommentInput.MentionBox.constructor | src/components/CommentInput.js:4-7 | the cursor is at 0, the list is hidden and empty, and the first entry is highlighted |
| CommentInput.MentionBox.HandleInputChange | src/components/CommentInput.js:54-86 | an `@` word recomputes the list, shows it exactly when it is non-empty, and highlights its first entry; any other word hides it |
| CommentInput.MentionBox.InsertSuggestion | src/components/CommentInput.js:109-122 | the text and cursor become `InsertName`'s, and the list closes |
| CommentInput.MentionBox.HandleKeyDown | src/components/CommentInput.js:88-107 | a hidden list ignores keys; the arrows move the highlight within bounds; Enter inserts the highlighted name; Escape hides the list; any other key changes nothing; the list itself never changes |
| CommentInput.MentionBox.MoveHighlight | src/components/CommentInput.js:91-100 | the highlight moves one entry and stops at either end |
| CommentInput.ShownListHasWord | src/components/CommentInput.js:101-103 | while the list shows, the word before the cursor is never empty, so the component's own keys never reach the `slice(0, -0)` case |
| Threads.WithoutThread | src/components/ThreadBuilder.js:79 | no thread with the id remains, and every other thread does |
| Threads.DeleteKeepsOrder | src/components/ThreadBuilder.js:79 | deletion keeps the order of the other threads |
| Threads.DeleteAbsentId | src/components/ThreadBuilder.js:77-81 | deleting an id that no thread has changes nothing |
| Threads.ClearComments | src/components/ThreadBuilder.js:91-99 | the comment count of each thread with the id becomes 0; every other field, and every other thread, is unchanged |
| Threads.DeleteUndoesSubmit | src/components/ThreadBuilder.js:53-81 | deleting a thread just created under a fresh id gives back the earlier list |
| Threads.ClearIsIdempotent | src/components/ThreadBuilder.js:93-101 | clearing twice is clearing once |
| Threads.ClearTouchesOnlyItsThread | src/components/ThreadBuilder.js:93-101 | the list without the cleared thread is the same before and after |
| Threads.ThreadBuilder.constructor | src/components/ThreadBuilder.js:8-19 | the list is the saved one, or empty when that is absent or unreadable |
| Threads.ThreadBuilder.Refresh | src/components/ThreadBuilder.js:22-35 | a readable saved list replaces the list; otherwise nothing changes |
| Threads.ThreadBuilder.HandleCreateThread | src/components/ThreadBuilder.js:49-51 | the form opens; nothing else changes |
| Threads.ThreadBuilder.EditDraft | src/components/ThreadBuilder.js:197-217 | the form holds the typed fields |
| Threads.ThreadBuilder.HandleSubmit | src/components/ThreadBuilder.js:53-75 | the new thread is appended after the others; the form is emptied and closed |
| Threads.ThreadBuilder.HandleDelete | src/components/ThreadBuilder.js:77-81 | after confirmation the list becomes `WithoutThread`; otherwise it is unchanged |
| Threads.ThreadBuilder.HandleClearThread | src/components/ThreadBuilder.js:83-114 | after confirmation, a readable saved list becomes the list with the comment count cleared; otherwise nothing changes |
| ThreadSearch.SearchResults | src/components/ThreadSearch.js:34-40 | exactly the saved threads whose lower-cased title, subreddit or description contains the query |
| ThreadSearch.SearchKeepsOrder | src/components/ThreadSearch.js:36-40 | the results keep the saved order |
| ThreadSearch.ListedIffSomeMatch | src/components/ThreadSearch.js:36-41 | something is listed exactly when some saved thread matches |
| ThreadSearch.SearchBox.constructor | src/components/ThreadSearch.js:5-18 | an empty query and the saved list, or nothing |
| ThreadSearch.SearchBox.HandleSearch | src/components/ThreadSearch.js:20-46 | the query is stored as typed; a blank one empties the list; otherwise a readable saved list is filtered by the lower-cased, untrimmed query and the panel shows exactly when something matches; an unreadable one leaves the list as it was |
| ThreadSearch.SearchBox.HandleThreadSelect | src/components/ThreadSearch.js:48-52 | the query and the list are cleared, so the panel hides |

## Left out

- The language-model client is modelled only as inputs. That covers its construction (`Chat.js:6-18`), the prompts and the request options. Only the answer text and the stream outcome are modelled; a failing constructor is a start-up failure message.
- Timers, `await` interleavings and the 2-5 second delays are not modelled. Each turn runs to completion as one step; the thread it reads (`view`) is a parameter.
- Persistence is not modelled: `localStorage` writes, the messages saved per thread, and the thread restored on load. A stored list is an input, and `None` means absent or unparsable. `ChatView` always starts from the welcome message.
- Browser concerns are left out:
  - the `confirm` dialogs, which are boolean inputs;
  - the `threadCleared` event;
  - scrolling;
  - the dropdown position (`getCaretCoordinates`);
  - the textarea's caret effect;
  - all rendering except the search panel's visibility.
- The `onSearch`, `onThreadSelect` and `onChange` callbacks to parent components are not modelled.
- CommentInput.MentionBox: the box's `value` is owned by the parent. A parent that rewrites it while the list is open is not modelled.
- Timestamps are modelled as millisecond integers; `createdAt`'s ISO string form is not. Invalid dates are not modelled.
- `toLowerCase` folds ASCII letters only. Unicode case mapping is not modelled.
- PersonaSelector.Mentions: a username containing regular-expression metacharacters is matched literally. The source would interpret them.
- Chat.ChatView.GenerateResponse requires a chain count of at least 1. Every call site passes 1 or one more than a count of at least 1.
- The persona roster is a sequence, so an absent (`undefined`) roster is not modelled; the empty roster is.
- The previous-speaker fallback at `Chat.js:195-208` is unreachable. It has no member of its own; `PersonaSelector.OutOfRangeFallsBackToRandom` proves it never applies.
- Console logging is not modelled.
- Strings are sequences of code points. The cursor position, `.length` and `slice` in `CommentInput.js:56,110-117` count UTF-16 code units, so text outside the Basic Multilingual Plane is not modelled.
