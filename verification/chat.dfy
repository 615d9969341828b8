/**
 * One persona turn of the chat view and the component that holds the thread.
 *
 * A turn reads the thread as it was when the handler that started it ran
 * (`view`), but writes through updater functions, so it writes into the
 * thread as it is now (`messages`). Model answers, random draws, the clock
 * and the streamed completion are inputs.
 */
module Chat {
  import opened Wrappers
  import opened Seqs
  import opened JsText
  import opened PersonaSelector
  import opened CommentTree

  const ServiceUnavailable: string := "Chat service is not available. Please check your API key configuration."
  const MissingKey: string := "Together AI API key is not configured"
  const GenericFailure: string := "Failed to generate response. Please try again."

  /** The streamed completion: refused outright, or some fragments delivered and then possibly a failure. */
  datatype Stream = Refused(reason: string) | Delivered(chunks: seq<string>, failure: Option<string>)

  /** What a turn takes from outside the program. */
  datatype TurnInputs = TurnInputs(
    answer: Option<string>,   // the selection call's reply, `None` when the call fails
    rnd: real,                // the draw of the selector's random fallback
    reanswer: Option<string>, // the same two for the re-selection that avoids a self-reply
    rerandom: real,
    stream: Stream,
    now: int,                 // the clock, for new ids and timestamps
    chainCoin: real)          // the draw that gates a follow-up reply

  /** `Math.random()` draws lie in [0, 1). */
  predicate Draws(inputs: TurnInputs)
  {
    0.0 <= inputs.rnd < 1.0 && 0.0 <= inputs.rerandom < 1.0 && 0.0 <= inputs.chainCoin < 1.0
  }

  /** The failure a stream ends with, if any. */
  function Failure(stream: Stream): (f: Option<string>)
    ensures stream.Refused? ==> f == Some(stream.reason)
    ensures stream.Delivered? ==> f == stream.failure
  {
    match stream
    case Refused(reason) => Some(reason)
    case Delivered(_, failure) => failure
  }

  /** `error.message || fallback`: the text shown for a failure, never empty. */
  function ErrorText(reason: string): (t: string)
    ensures t != ""
    ensures reason != "" ==> t == reason
  {
    if reason == "" then GenericFailure else reason
  }

  // ---------------------------------------------------------------------------
  // Who speaks
  // ---------------------------------------------------------------------------

  /** The persona would answer itself: it wrote the last or the first message of the history. */
  predicate SelfReply(p: Persona, history: seq<Message>)
  {
    Some(p.username) == LastResponder(history) || Some(p.username) == ImmediateParent(history)
  }

  /** The personas that would not answer themselves. */
  function Others(roster: seq<Persona>, history: seq<Message>): (r: seq<Persona>)
    ensures forall i :: 0 <= i < |r| ==> r[i] in roster && !SelfReply(r[i], history)
    ensures forall i :: 0 <= i < |roster| && !SelfReply(roster[i], history) ==> roster[i] in r
  {
    Filter(roster, (p: Persona) => !SelfReply(p, history))
  }

  /** No persona speaks, or `author` writes the comment while `shown` is announced as typing. */
  datatype Casting = Silent | Cast(author: Persona, shown: Persona)

  /**
   * The casting of a turn: the selector's pick writes the comment. On a new
   * topic, a pick that would answer itself is replaced, for the typing
   * indicator only, by a pick among the other personas; with none left the
   * turn is silent.
   */
  function ChooseAuthor(roster: seq<Persona>, message: string, history: seq<Message>, inputs: TurnInputs): (c: Casting)
    requires Draws(inputs)
    ensures c.Silent? <==> (roster == [] ||
      (var s := Select(message, roster, inputs.answer, inputs.rnd).value;
       !s.analysis.directMention && !s.analysis.isConversationContinuation &&
       SelfReply(s.persona, history) && Others(roster, history) == []))
  {
    match Select(message, roster, inputs.answer, inputs.rnd)
    case None => Silent
    case Some(s) =>
      if s.analysis.directMention || s.analysis.isConversationContinuation then Cast(s.persona, s.persona)
      else if SelfReply(s.persona, history) then
        var others := Others(roster, history);
        if others == [] then Silent
        else
          match Select(message, others, inputs.reanswer, inputs.rerandom)
          case None => Silent
          case Some(again) => Cast(s.persona, again.persona)
      else Cast(s.persona, s.persona)
  }

  /**
   * The comment is always written by the selector's first pick, a member of
   * the roster; only when that pick would answer itself on a new topic is a
   * different persona announced, and that one would not answer itself.
   */
  lemma AuthorIsFirstPick(roster: seq<Persona>, message: string, history: seq<Message>, inputs: TurnInputs)
    requires Draws(inputs)
    requires ChooseAuthor(roster, message, history, inputs).Cast?
    ensures var c := ChooseAuthor(roster, message, history, inputs);
      var s := Select(message, roster, inputs.answer, inputs.rnd).value;
      && c.author == s.persona && c.author in roster && c.shown in roster
      && (c.shown != c.author ==> SelfReply(c.author, history) && !SelfReply(c.shown, history))
  {
    var c := ChooseAuthor(roster, message, history, inputs);
    var s := Select(message, roster, inputs.answer, inputs.rnd).value;
    if c.shown != c.author {
      var others := Others(roster, history);
      var again := Select(message, others, inputs.reanswer, inputs.rerandom).value;
      assert again.persona in others;
      var k :| 0 <= k < |others| && others[k] == again.persona;
      assert !SelfReply(others[k], history);
    }
  }

  // ---------------------------------------------------------------------------
  // The turn
  // ---------------------------------------------------------------------------

  /** The thread and the error banner after a turn. */
  datatype TurnResult = TurnResult(messages: seq<Message>, error: Option<string>)

  /**
   * Writing the author's comment: a reply is built from the whole stream and
   * inserted at its slot only when the stream completes; a root comment is
   * appended empty (with id `viewSize + 2`) and filled fragment by fragment.
   * A failure shows its text and, when no parent was given, appends the
   * apology with that same id.
   */
  function Deliver(ms: seq<Message>, viewSize: nat, slot: Slot, hasParent: bool, author: Persona, stream: Stream, now: int): (t: TurnResult)
    requires Rooted(ms)
    ensures t.error == if Failure(stream).Some? then Some(ErrorText(Failure(stream).value)) else None
  {
    var failure := Failure(stream);
    var written :=
      if slot.AtRoot? then
        if stream.Refused? then ms
        else StreamChunks(ms + [PersonaComment(viewSize + 2, author.username, author.karma, "", now)], viewSize + 2, stream.chunks)
      else if failure.None? then Place(ms, slot, PersonaComment(now, author.username, author.karma, Concat(stream.chunks), now))
      else ms;
    match failure
    case None => TurnResult(written, None)
    case Some(reason) =>
      TurnResult(if hasParent then written else written + [Apology(viewSize + 2, now)], Some(ErrorText(reason)))
  }

  /**
   * A turn past the guards of `generateResponse`: the history and the slot are
   * read from `view`, the casting decides the author, and the comment is
   * written into `ms`. A silent turn only clears the error.
   */
  function Turn(ms: seq<Message>, view: seq<Message>, roster: seq<Persona>, message: string,
                parentId: Option<int>, replyId: Option<int>, inputs: TurnInputs): (t: TurnResult)
    requires Rooted(ms) && Rooted(view) && Draws(inputs)
    ensures ChooseAuthor(roster, message, History(view, parentId, replyId), inputs).Silent? ==> t.messages == ms
    ensures t.error.Some? <==>
      ChooseAuthor(roster, message, History(view, parentId, replyId), inputs).Cast? && Failure(inputs.stream).Some?
  {
    match ChooseAuthor(roster, message, History(view, parentId, replyId), inputs)
    case Silent => TurnResult(ms, None)
    case Cast(author, _) => Deliver(ms, |view|, SlotFor(view, parentId, replyId), Given(parentId), author, inputs.stream, inputs.now)
  }

  /** The guards come first: no client, or a follow-up beyond the first, and the turn does not start. */
  predicate Starts(ready: bool, isRandomReply: bool, count: int)
  {
    ready && !(isRandomReply && count >= 2)
  }

  /** `generateResponse` as a whole: its two guards, then the turn. */
  function Respond(ms: seq<Message>, error: Option<string>, view: seq<Message>, ready: bool, roster: seq<Persona>,
                   message: string, parentId: Option<int>, replyId: Option<int>, isRandomReply: bool, count: int,
                   inputs: TurnInputs): (t: TurnResult)
    requires Rooted(ms) && Rooted(view) && Draws(inputs)
    ensures !ready ==> t == TurnResult(ms, Some(ServiceUnavailable))
    ensures ready && !Starts(ready, isRandomReply, count) ==> t == TurnResult(ms, error)
  {
    if !ready then TurnResult(ms, Some(ServiceUnavailable))
    else if isRandomReply && count >= 2 then TurnResult(ms, error)
    else Turn(ms, view, roster, message, parentId, replyId, inputs)
  }

  lemma {:induction false} StreamKeepsThreeTiers(ms: seq<Message>, id: int, chunks: seq<string>)
    requires ThreeTiers(ms)
    ensures ThreeTiers(StreamChunks(ms, id, chunks))
  {
    if chunks != [] {
      StreamKeepsThreeTiers(ms, id, chunks[..|chunks| - 1]);
      var before := StreamChunks(ms, id, chunks[..|chunks| - 1]);
      var after := AppendContent(before, id, chunks[|chunks| - 1]);
      assert forall i :: 0 <= i < |after| ==> after[i].replies == before[i].replies;
      forall i | 0 <= i < |after| ensures Top(after[i]) {
        assert Top(before[i]);
      }
    }
  }

  /** Writing a comment keeps the shape of the thread. */
  lemma DeliverKeepsThreeTiers(ms: seq<Message>, viewSize: nat, slot: Slot, hasParent: bool, author: Persona, stream: Stream, now: int)
    requires ThreeTiers(ms)
    ensures ThreeTiers(Deliver(ms, viewSize, slot, hasParent, author, stream, now).messages)
  {
    if slot.AtRoot? {
      if stream.Delivered? {
        StreamKeepsThreeTiers(ms + [PersonaComment(viewSize + 2, author.username, author.karma, "", now)], viewSize + 2, stream.chunks);
      }
    } else if Failure(stream).None? {
      PlaceKeepsThreeTiers(ms, slot, PersonaComment(now, author.username, author.karma, Concat(stream.chunks), now));
    }
  }

  /** A turn keeps the shape of the thread: three tiers, every node with a list. */
  lemma TurnKeepsThreeTiers(ms: seq<Message>, error: Option<string>, view: seq<Message>, ready: bool, roster: seq<Persona>,
                            message: string, parentId: Option<int>, replyId: Option<int>, isRandomReply: bool, count: int,
                            inputs: TurnInputs)
    requires ThreeTiers(ms) && ThreeTiers(view) && Draws(inputs)
    ensures ThreeTiers(Respond(ms, error, view, ready, roster, message, parentId, replyId, isRandomReply, count, inputs).messages)
  {
    if Starts(ready, isRandomReply, count) {
      var c := ChooseAuthor(roster, message, History(view, parentId, replyId), inputs);
      if c.Cast? {
        DeliverKeepsThreeTiers(ms, |view|, SlotFor(view, parentId, replyId), Given(parentId), c.author, inputs.stream, inputs.now);
      }
    }
  }

  /**
   * A reply (a parent was given) whose stream fails leaves the thread as it
   * was: the text gathered so far is dropped, and the error is shown.
   */
  lemma FailedReplyIsDropped(ms: seq<Message>, view: seq<Message>, roster: seq<Persona>, message: string,
                             parentId: Option<int>, replyId: Option<int>, inputs: TurnInputs)
    requires Rooted(ms) && Rooted(view) && Draws(inputs)
    requires Given(parentId) && Failure(inputs.stream).Some?
    ensures Turn(ms, view, roster, message, parentId, replyId, inputs).messages == ms
  {
  }

  /**
   * A root comment that completes is appended at the end with the whole text
   * and the id `viewSize + 2`, provided no message has that id yet.
   */
  lemma CompletedRootComment(ms: seq<Message>, viewSize: nat, author: Persona, chunks: seq<string>, now: int)
    requires Rooted(ms)
    requires forall i :: 0 <= i < |ms| ==> ms[i].id != viewSize + 2
    ensures Deliver(ms, viewSize, AtRoot, false, author, Delivered(chunks, None), now) ==
      TurnResult(ms + [PersonaComment(viewSize + 2, author.username, author.karma, Concat(chunks), now)], None)
  {
    var root := PersonaComment(viewSize + 2, author.username, author.karma, "", now);
    StreamFillsRoot(ms, root, chunks);
    assert root.(content := root.content + Concat(chunks)) == PersonaComment(viewSize + 2, author.username, author.karma, Concat(chunks), now);
  }

  /**
   * A root comment whose stream fails part-way stays in the thread with the
   * text received so far, followed by the apology, which carries the same id.
   */
  lemma FailedRootKeepsPartialText(ms: seq<Message>, viewSize: nat, author: Persona, chunks: seq<string>, reason: string, now: int)
    requires Rooted(ms)
    requires forall i :: 0 <= i < |ms| ==> ms[i].id != viewSize + 2
    ensures var t := Deliver(ms, viewSize, AtRoot, false, author, Delivered(chunks, Some(reason)), now);
      && t.messages == ms + [PersonaComment(viewSize + 2, author.username, author.karma, Concat(chunks), now), Apology(viewSize + 2, now)]
      && t.messages[|ms|].id == t.messages[|ms| + 1].id
      && t.error == Some(ErrorText(reason))
  {
    var root := PersonaComment(viewSize + 2, author.username, author.karma, "", now);
    StreamFillsRoot(ms, root, chunks);
    assert root.(content := root.content + Concat(chunks)) == PersonaComment(viewSize + 2, author.username, author.karma, Concat(chunks), now);
  }

  // ---------------------------------------------------------------------------
  // Follow-up replies
  // ---------------------------------------------------------------------------

  /** A call of `generateResponse`. */
  datatype Request = Request(message: string, parentId: Option<int>, replyId: Option<int>, isRandomReply: bool, count: int)

  const FollowUpLead: string := "You are participating in a Reddit thread. Reply to this message in a way that encourages further discussion: \""

  /** The prompt of a follow-up reply, quoting the comment it answers. */
  function FollowUpPrompt(content: string): string
  {
    FollowUpLead + content + "\""
  }

  /** The personas a follow-up may come from: neither the last responder nor the immediate parent. */
  function Available(roster: seq<Persona>, f: FollowUp): (r: seq<Persona>)
    ensures forall i :: 0 <= i < |r| ==> r[i] in roster && Some(r[i].username) != f.lastResponder && Some(r[i].username) != f.immediateParent
  {
    Filter(roster, (p: Persona) => Some(p.username) != f.lastResponder && Some(p.username) != f.immediateParent)
  }

  /**
   * `generateRandomReply`: after a comment `messageId` written under
   * `parentId`, the follow-up call it schedules, if any. It schedules one only
   * below the chain limit, when the message replied to is found, when some
   * persona is neither the last responder nor the immediate parent, and when
   * the draw falls below 0.7; the call is a random reply one step further.
   */
  function FollowUpRequest(view: seq<Message>, roster: seq<Persona>, content: string, messageId: int,
                           parentId: Option<int>, count: int, coin: real): (r: Option<Request>)
    requires Rooted(view)
    ensures r.Some? ==> (count < 2 && coin < 0.7 && FollowUpFor(view, messageId, parentId).Some? &&
      Available(roster, FollowUpFor(view, messageId, parentId).value) != [])
    ensures r.Some? ==> r.value.isRandomReply && r.value.count == count + 1 && r.value.message == FollowUpPrompt(content)
  {
    if count >= 2 then None
    else
      match FollowUpFor(view, messageId, parentId)
      case None => None
      case Some(f) =>
        if Available(roster, f) != [] && coin < 0.7 then
          if Given(f.parentId) then Some(Request(FollowUpPrompt(content), f.parentId, Some(f.messageId), true, count + 1))
          else Some(Request(FollowUpPrompt(content), Some(f.messageId), None, true, count + 1))
        else None
  }

  /**
   * Chaining stops after one step: a scheduled follow-up is a random reply
   * with count at least 2, so `generateResponse` returns at its guard without
   * touching the thread or the error, and it would schedule nothing further.
   */
  lemma ChainStopsAfterOneStep(view: seq<Message>, roster: seq<Persona>, content: string, messageId: int,
                               parentId: Option<int>, count: int, coin: real,
                               ms: seq<Message>, error: Option<string>, inputs: TurnInputs, nextId: int, nextContent: string)
    requires Rooted(view) && Rooted(ms) && Draws(inputs) && count >= 1
    requires FollowUpRequest(view, roster, content, messageId, parentId, count, coin).Some?
    ensures var q := FollowUpRequest(view, roster, content, messageId, parentId, count, coin).value;
      && !Starts(true, q.isRandomReply, q.count)
      && Respond(ms, error, view, true, roster, q.message, q.parentId, q.replyId, q.isRandomReply, q.count, inputs) == TurnResult(ms, error)
      && FollowUpRequest(view, roster, nextContent, nextId, q.parentId, q.count, coin).None?
  {
  }

  // ---------------------------------------------------------------------------
  // The component
  // ---------------------------------------------------------------------------

  /** The chat view: the thread, the error banner, the streaming flags and the comment box. */
  class ChatView {
    const roster: seq<Persona>
    const clientReady: bool
    var messages: seq<Message>
    var error: Option<string>
    var isStreaming: bool
    var generatingPersona: Option<Persona>
    var isReplying: bool
    var replyText: string

    /** The thread keeps its three-tier shape. */
    predicate Valid()
      reads this
    {
      ThreeTiers(messages)
    }

    /**
     * A fresh view: the welcome message, and the client's start-up failure (a
     * missing key, or the failure the client constructor reports) as the error.
     */
    constructor(personas: seq<Persona>, hasApiKey: bool, clientFailure: Option<string>, stamp: int)
      ensures Valid()
      ensures roster == personas && messages == [Welcome(stamp)]
      ensures error == (if !hasApiKey then Some(MissingKey) else clientFailure)
      ensures clientReady <==> error.None?
      ensures !isStreaming && generatingPersona.None? && !isReplying && replyText == ""
    {
      var initError := if !hasApiKey then Some(MissingKey) else clientFailure;
      roster := personas;
      clientReady := initError.None?;
      messages := [Welcome(stamp)];
      error := initError;
      isStreaming := false;
      generatingPersona := None;
      isReplying := false;
      replyText := "";
    }

    /** `toggleReply`. */
    method ToggleReply(messageId: int, replyId: Option<int>)
      requires Valid()
      modifies this
      ensures Valid()
      ensures messages == CommentTree.ToggleReply(old(messages), messageId, replyId)
      ensures error == old(error) && isStreaming == old(isStreaming) && generatingPersona == old(generatingPersona)
      ensures isReplying == old(isReplying) && replyText == old(replyText)
    {
      ToggleKeepsThreeTiers(messages, messageId, replyId);
      messages := CommentTree.ToggleReply(messages, messageId, replyId);
    }

    /** `handleVote`. */
    method HandleVote(messageId: int, isUpvote: bool, isReply: bool, parentId: Option<int>)
      requires Valid()
      modifies this
      ensures Valid()
      ensures messages == Vote(old(messages), messageId, isUpvote, isReply, parentId)
      ensures error == old(error) && isStreaming == old(isStreaming) && generatingPersona == old(generatingPersona)
      ensures isReplying == old(isReplying) && replyText == old(replyText)
    {
      VoteKeepsThreeTiers(messages, messageId, isUpvote, isReply, parentId);
      messages := Vote(messages, messageId, isUpvote, isReply, parentId);
    }

    /** `handleAddComment`: opens the top-level comment box. */
    method HandleAddComment()
      modifies this
      ensures isReplying
      ensures messages == old(messages) && error == old(error) && replyText == old(replyText)
      ensures isStreaming == old(isStreaming) && generatingPersona == old(generatingPersona)
    {
      isReplying := true;
    }

    /** The comment box's text changes. */
    method SetReplyText(text: string)
      modifies this
      ensures replyText == text
      ensures messages == old(messages) && error == old(error) && isReplying == old(isReplying)
      ensures isStreaming == old(isStreaming) && generatingPersona == old(generatingPersona)
    {
      replyText := text;
    }

    /** `clearMessages`: after confirmation the thread is back to the welcome message. */
    method ClearMessages(confirmed: bool, stamp: int)
      requires Valid()
      modifies this
      ensures Valid()
      ensures messages == if confirmed then [Welcome(stamp)] else old(messages)
      ensures error == old(error) && isStreaming == old(isStreaming) && generatingPersona == old(generatingPersona)
      ensures isReplying == old(isReplying) && replyText == old(replyText)
    {
      if confirmed {
        messages := [Welcome(stamp)];
      }
    }

    /** Announces who is typing; the comment itself is written by `c.author`. */
    method CastTurn(message: string, history: seq<Message>, inputs: TurnInputs) returns (c: Casting)
      requires Draws(inputs)
      modifies this
      ensures c == ChooseAuthor(roster, message, history, inputs)
      ensures c.Cast? ==> generatingPersona == Some(c.shown)
      ensures c.Silent? ==> generatingPersona == old(generatingPersona)
      ensures messages == old(messages) && error == old(error) && isStreaming == old(isStreaming)
      ensures isReplying == old(isReplying) && replyText == old(replyText)
    {
      var first := SelectBestPersona(message, roster, inputs.answer, inputs.rnd);
      if first.None? {
        return Silent;
      }
      var s := first.value;
      if s.analysis.directMention || s.analysis.isConversationContinuation {
        generatingPersona := Some(s.persona);
        return Cast(s.persona, s.persona);
      }
      if SelfReply(s.persona, history) {
        var others := Others(roster, history);
        if others == [] {
          return Silent;
        }
        var again := SelectBestPersona(message, others, inputs.reanswer, inputs.rerandom);
        if again.None? {
          return Silent;
        }
        generatingPersona := Some(again.value.persona);
        return Cast(s.persona, again.value.persona);
      }
      generatingPersona := Some(s.persona);
      return Cast(s.persona, s.persona);
    }

    /** Gathers a whole stream before a reply is inserted. */
    static method Gather(chunks: seq<string>) returns (content: string)
      ensures content == Concat(chunks)
    {
      content := "";
      var i := 0;
      while i < |chunks|
        invariant 0 <= i <= |chunks|
        invariant content == Concat(chunks[..i])
      {
        ConcatSnoc(chunks, i);
        content := content + chunks[i];
        i := i + 1;
      }
      assert chunks[..|chunks|] == chunks;
    }

    /** Streams the fragments into the root comment `id`, one update per fragment. */
    method StreamInto(id: int, chunks: seq<string>) returns (content: string)
      requires Valid()
      modifies this
      ensures Valid()
      ensures messages == StreamChunks(old(messages), id, chunks)
      ensures content == Concat(chunks)
      ensures error == old(error) && isStreaming == old(isStreaming) && generatingPersona == old(generatingPersona)
      ensures isReplying == old(isReplying) && replyText == old(replyText)
    {
      StreamKeepsThreeTiers(messages, id, chunks);
      ghost var start := messages;
      content := "";
      var i := 0;
      while i < |chunks|
        invariant 0 <= i <= |chunks|
        invariant messages == StreamChunks(start, id, chunks[..i])
        invariant content == Concat(chunks[..i])
        invariant error == old(error) && isStreaming == old(isStreaming) && generatingPersona == old(generatingPersona)
        invariant isReplying == old(isReplying) && replyText == old(replyText)
      {
        ConcatSnoc(chunks, i);
        assert chunks[..i + 1][..i] == chunks[..i];
        messages := AppendContent(messages, id, chunks[i]);
        content := content + chunks[i];
        i := i + 1;
      }
      assert chunks[..|chunks|] == chunks;
    }

    /**
     * Writes the author's comment from the stream; on a failure shows the
     * error and, without a parent, appends the apology. Returns the text
     * received, the new comment's id and whether the stream completed.
     */
    method DeliverTurn(viewSize: nat, slot: Slot, hasParent: bool, author: Persona, stream: Stream, now: int)
      returns (content: string, newId: int, completed: bool)
      requires Valid() && error.None?
      modifies this
      ensures Valid()
      ensures TurnResult(messages, error) == Deliver(old(messages), viewSize, slot, hasParent, author, stream, now)
      ensures completed <==> Failure(stream).None?
      ensures completed ==> content == Concat(stream.chunks) && newId == if slot.AtRoot? then viewSize + 2 else now
      ensures isStreaming == old(isStreaming) && generatingPersona == old(generatingPersona)
      ensures isReplying == old(isReplying) && replyText == old(replyText)
    {
      content, newId := "", now;
      ghost var ms := messages;
      if stream.Delivered? {
        if slot.AtRoot? {
          newId := viewSize + 2;
          var root := PersonaComment(newId, author.username, author.karma, "", now);
          messages := messages + [root];
          content := StreamInto(newId, stream.chunks);
        } else {
          content := Gather(stream.chunks);
          if stream.failure.None? {
            var node := PersonaComment(now, author.username, author.karma, content, now);
            PlaceKeepsThreeTiers(messages, slot, node);
            messages := Place(messages, slot, node);
          }
        }
      }
      completed := Failure(stream).None?;
      if !completed {
        error := Some(ErrorText(Failure(stream).value));
        if !hasParent {
          messages := messages + [Apology(viewSize + 2, now)];
        }
      }
    }

    /**
     * The body of a turn that started: the history and the slot are read from
     * the earlier thread, the casting picks the author, and the comment is
     * written. Returns the casting, the text received, the new comment's id
     * and whether a comment was completed.
     */
    method Speak(view: seq<Message>, message: string, parentId: Option<int>, replyId: Option<int>, inputs: TurnInputs)
      returns (casting: Casting, content: string, newId: int, completed: bool)
      requires Valid() && ThreeTiers(view) && Draws(inputs) && error.None?
      modifies this
      ensures Valid()
      ensures TurnResult(messages, error) == Turn(old(messages), view, roster, message, parentId, replyId, inputs)
      ensures completed ==> casting.Cast?
      ensures isStreaming == old(isStreaming) && isReplying == old(isReplying) && replyText == old(replyText)
    {
      content, newId, completed := "", 0, false;
      var slot := SlotFor(view, parentId, replyId);
      var history := History(view, parentId, replyId);
      casting := CastTurn(message, history, inputs);
      if casting.Cast? {
        content, newId, completed := DeliverTurn(|view|, slot, Given(parentId), casting.author, inputs.stream, inputs.now);
      }
    }

    /**
     * `generateRandomReply`: schedules the follow-up call, if any, which stops
     * at the guard of `generateResponse`; so the follow-up changes nothing.
     */
    method GenerateRandomReply(view: seq<Message>, content: string, messageId: int, parentId: Option<int>, count: int, inputs: TurnInputs)
      requires Valid() && ThreeTiers(view) && Draws(inputs) && count >= 1 && clientReady
      modifies this
      ensures messages == old(messages) && error == old(error)
      ensures isStreaming == old(isStreaming) && generatingPersona == old(generatingPersona)
      ensures isReplying == old(isReplying) && replyText == old(replyText)
      decreases 1
    {
      var request := FollowUpRequest(view, roster, content, messageId, parentId, count, inputs.chainCoin);
      if request.Some? {
        var q := request.value;
        GenerateResponse(view, q.message, q.parentId, q.replyId, q.isRandomReply, q.count, inputs);
      }
    }

    /**
     * `generateResponse`: the guards, then the turn, then (unless the author
     * is the moderator) the follow-up reply it may schedule; the streaming
     * flag and the typing indicator are reset at the end of a turn that
     * started.
     */
    method GenerateResponse(view: seq<Message>, message: string, parentId: Option<int>, replyId: Option<int>,
                            isRandomReply: bool, count: int, inputs: TurnInputs)
      requires Valid() && ThreeTiers(view) && Draws(inputs) && count >= 1
      modifies this
      ensures Valid()
      ensures TurnResult(messages, error) ==
        Respond(old(messages), old(error), view, clientReady, roster, message, parentId, replyId, isRandomReply, count, inputs)
      ensures Starts(clientReady, isRandomReply, count) ==> !isStreaming && generatingPersona.None?
      ensures !Starts(clientReady, isRandomReply, count) ==> isStreaming == old(isStreaming) && generatingPersona == old(generatingPersona)
      ensures isReplying == old(isReplying) && replyText == old(replyText)
      decreases if isRandomReply && count >= 2 then 0 else 2
    {
      if !clientReady {
        error := Some(ServiceUnavailable);
        return;
      }
      if isRandomReply && count >= 2 {
        return;
      }
      isStreaming := true;
      error := None;
      var casting, content, newId, completed := Speak(view, message, parentId, replyId, inputs);
      if completed && casting.author.username != Moderator {
        GenerateRandomReply(view, content, newId, parentId, count, inputs);
      }
      isStreaming := false;
      generatingPersona := None;
    }

    /**
     * `handleSubmitReply`: a non-blank text, while no turn streams, is added
     * as the user's reply and answered; the turn reads the thread as it was
     * before the reply was added.
     */
    method HandleSubmitReply(messageId: int, replyId: Option<int>, stamp: int, inputs: TurnInputs)
      requires Valid() && Draws(inputs)
      modifies this
      ensures Valid()
      ensures IsBlank(old(replyText)) || old(isStreaming) ==>
        messages == old(messages) && error == old(error) && replyText == old(replyText) && isStreaming == old(isStreaming)
      ensures !(IsBlank(old(replyText)) || old(isStreaming)) ==>
        && replyText == ""
        && TurnResult(messages, error) ==
           Respond(InsertUserReply(old(messages), messageId, replyId, UserComment(stamp, old(replyText), stamp)), None,
                   old(messages), clientReady, roster, old(replyText), Some(messageId), replyId, false, 1, inputs)
      ensures isReplying == old(isReplying)
    {
      if IsBlank(replyText) || isStreaming {
        return;
      }
      var text := replyText;
      replyText := "";
      error := None;
      var view := messages;
      var node := UserComment(stamp, text, stamp);
      UserReplyKeepsThreeTiers(messages, messageId, replyId, node);
      messages := InsertUserReply(messages, messageId, replyId, node);
      GenerateResponse(view, text, Some(messageId), replyId, false, 1, inputs);
    }

    /**
     * `handleSubmitComment`: a non-blank text, while no turn streams, is
     * appended as a top-level comment and answered in the main thread; the
     * coin only decides whether the answer counts as a random reply, which a
     * first answer never stops at.
     */
    method HandleSubmitComment(stamp: int, coin: real, inputs: TurnInputs)
      requires Valid() && Draws(inputs)
      modifies this
      ensures Valid()
      ensures IsBlank(old(replyText)) || old(isStreaming) ==>
        messages == old(messages) && error == old(error) && replyText == old(replyText) && isReplying == old(isReplying)
      ensures !(IsBlank(old(replyText)) || old(isStreaming)) ==>
        && replyText == "" && !isReplying
        && TurnResult(messages, error) ==
           Respond(old(messages) + [UserComment(stamp, old(replyText), stamp)], None,
                   old(messages), clientReady, roster, old(replyText), None, None, false, 1, inputs)
    {
      if IsBlank(replyText) || isStreaming {
        return;
      }
      var text := replyText;
      replyText := "";
      error := None;
      isReplying := false;
      var view := messages;
      messages := messages + [UserComment(stamp, text, stamp)];
      if coin < 0.5 {
        GenerateResponse(view, text, None, None, false, 1, inputs);
      } else {
        GenerateResponse(view, text, None, None, true, 1, inputs);
      }
    }
  }
}
