/**
 * The comment thread of the chat view: top-level messages, their replies and
 * the replies to those replies. Every update is a copy-and-replace map over
 * the top-level list, so each function below returns the new list.
 *
 * Handler arguments that may be `null` are `Option<int>`. Lookups compare ids
 * exactly (`m.id === id`), while the branches test the argument's
 * truthiness, under which a missing id and the id 0 are alike (`Given`).
 */
module CommentTree {
  import opened Wrappers
  import opened Seqs

  datatype Role = User | Assistant

  /** A comment; `replies` is `None` when the object has no `replies` field. */
  datatype Message = Message(
    id: int, role: Role, content: string, username: string, karma: int, timestamp: int,
    replies: Option<seq<Message>>, isReplyOpen: bool, upvotes: int, downvotes: int)

  const WelcomeText: string := "Welcome to the thread! Feel free to start a discussion, and one of our community members will respond."
  const ApologyText: string := "I apologize, but I encountered an error. Please try again."
  const Moderator: string := "AutoModerator"
  const ModeratorKarma: int := 1000000
  const UserName: string := "You"

  /** The single message of a fresh or cleared thread. */
  function Welcome(stamp: int): Message
  {
    Message(1, Assistant, WelcomeText, Moderator, ModeratorKarma, stamp, Some([]), false, 1, 0)
  }

  /** A comment typed by the user. */
  function UserComment(id: int, text: string, stamp: int): Message
  {
    Message(id, User, text, UserName, 1, stamp, Some([]), false, 0, 0)
  }

  /** A comment written by a persona. */
  function PersonaComment(id: int, username: string, karma: int, content: string, stamp: int): Message
  {
    Message(id, Assistant, content, username, karma, stamp, Some([]), false, 0, 0)
  }

  /** The moderator's apology appended to the main thread after a failed turn. */
  function Apology(id: int, stamp: int): Message
  {
    PersonaComment(id, Moderator, ModeratorKarma, ApologyText, stamp)
  }

  /** The truthiness of an optional id: present and not 0. */
  predicate Given(id: Option<int>) { id.Some? && id.value != 0 }

  /** `m.id === id`. */
  predicate HasId(m: Message, id: Option<int>) { id == Some(m.id) }

  /** `list.findIndex(m => m.id === id)`; `find` is the element at that index. */
  function Locate(ms: seq<Message>, id: Option<int>): (k: int)
    ensures -1 <= k < |ms|
    ensures k >= 0 ==> HasId(ms[k], id) && forall j :: 0 <= j < k ==> !HasId(ms[j], id)
    ensures k == -1 <==> forall j :: 0 <= j < |ms| ==> !HasId(ms[j], id)
  {
    FindIndex(ms, (m: Message) => HasId(m, id))
  }

  /** `reply.replies || []`. */
  function OrEmpty(replies: Option<seq<Message>>): seq<Message>
  {
    if replies.Some? then replies.value else []
  }

  /** At most one message of the list has the id. */
  predicate Unique(ms: seq<Message>, id: Option<int>)
  {
    forall i, j :: 0 <= i < |ms| && 0 <= j < |ms| && HasId(ms[i], id) && HasId(ms[j], id) ==> i == j
  }

  /** No two messages of the list share an id. */
  predicate DistinctIds(ms: seq<Message>)
  {
    forall i, j :: 0 <= i < j < |ms| ==> ms[i].id != ms[j].id
  }

  // ---------------------------------------------------------------------------
  // Shape of the thread
  // ---------------------------------------------------------------------------

  /** Every top-level message has a reply list, which the handlers index into. */
  predicate Rooted(ms: seq<Message>)
  {
    forall i :: 0 <= i < |ms| ==> ms[i].replies.Some?
  }

  /** A third-tier comment: an empty reply list. */
  predicate Leaf(m: Message) { m.replies == Some([]) }

  /** A second-tier comment: a list of third-tier comments. */
  predicate Middle(m: Message)
  {
    m.replies.Some? && forall j :: 0 <= j < |m.replies.value| ==> Leaf(m.replies.value[j])
  }

  /** A top-level comment: a list of second-tier comments. */
  predicate Top(m: Message)
  {
    m.replies.Some? && forall j :: 0 <= j < |m.replies.value| ==> Middle(m.replies.value[j])
  }

  /** The shape every handler keeps: three tiers, each node with a list, the third tier childless. */
  predicate ThreeTiers(ms: seq<Message>)
  {
    forall i :: 0 <= i < |ms| ==> Top(ms[i])
  }

  lemma ThreeTiersRooted(ms: seq<Message>)
    requires ThreeTiers(ms)
    ensures Rooted(ms)
  {
  }

  // ---------------------------------------------------------------------------
  // Nesting level
  // ---------------------------------------------------------------------------

  /**
   * `getNestingLevel`: 0 for the main thread or an unknown parent, 1 for a
   * reply to a top-level message (or to a reply that is not found), and for a
   * found reply 3 when it has a `replies` field, 2 otherwise.
   */
  function NestingLevel(ms: seq<Message>, parentId: Option<int>, replyId: Option<int>): (level: int)
    requires Rooted(ms)
    ensures 0 <= level <= 3
    ensures level == 0 <==> !Given(parentId) || forall i :: 0 <= i < |ms| ==> !HasId(ms[i], parentId)
  {
    if !Given(parentId) then 0
    else
      var k := Locate(ms, parentId);
      if k == -1 then 0
      else if !Given(replyId) then 1
      else
        var rs := ms[k].replies.value;
        var j := Locate(rs, replyId);
        if j == -1 then 1
        else if rs[j].replies.Some? then 3
        else 2
  }

  /** The reply `replyId` under the first top-level message `parentId` exists. */
  predicate ReplyFound(ms: seq<Message>, parentId: Option<int>, replyId: Option<int>)
    requires Rooted(ms)
  {
    var k := Locate(ms, parentId);
    k >= 0 && exists j :: 0 <= j < |ms[k].replies.value| && HasId(ms[k].replies.value[j], replyId)
  }

  /**
   * In a thread of the shape the handlers keep, level 2 never arises: every
   * reply carries a list (even an empty one), so a found reply is level 3.
   */
  lemma LevelsInThreeTiers(ms: seq<Message>, parentId: Option<int>, replyId: Option<int>)
    requires ThreeTiers(ms)
    ensures var level := NestingLevel(ms, parentId, replyId);
      && level != 2
      && (level == 3 <==> Given(parentId) && Given(replyId) && ReplyFound(ms, parentId, replyId))
      && (level == 1 <==> Given(parentId) && Locate(ms, parentId) >= 0 && !(Given(replyId) && ReplyFound(ms, parentId, replyId)))
  {
    if Given(parentId) && Locate(ms, parentId) >= 0 && Given(replyId) {
      var k := Locate(ms, parentId);
      var j := Locate(ms[k].replies.value, replyId);
      if j >= 0 {
        assert Middle(ms[k].replies.value[j]);
      }
    }
  }

  // ---------------------------------------------------------------------------
  // Reply editors
  // ---------------------------------------------------------------------------

  /** Flips the editor of the messages with the id and closes every other editor of the list. */
  function ToggleAmong(ms: seq<Message>, id: Option<int>): (r: seq<Message>)
    ensures |r| == |ms|
    ensures forall i :: 0 <= i < |ms| ==> r[i] == ms[i].(isReplyOpen := r[i].isReplyOpen)
    ensures forall i :: 0 <= i < |ms| ==> (r[i].isReplyOpen <==> HasId(ms[i], id) && !ms[i].isReplyOpen)
  {
    seq(|ms|, i requires 0 <= i < |ms| =>
      ms[i].(isReplyOpen := if HasId(ms[i], id) then !ms[i].isReplyOpen else false))
  }

  /**
   * `toggleReply`: without a reply id the top-level editors are toggled;
   * with one, the replies of the top-level message `messageId` are, and the
   * other top-level messages are untouched.
   */
  function ToggleReply(ms: seq<Message>, messageId: int, replyId: Option<int>): (r: seq<Message>)
    requires Rooted(ms)
    ensures !Given(replyId) ==> r == ToggleAmong(ms, Some(messageId))
    ensures Given(replyId) ==> |r| == |ms|
    ensures Given(replyId) ==> forall i :: 0 <= i < |ms| ==>
        if ms[i].id == messageId
        then r[i] == ms[i].(replies := r[i].replies) && r[i].replies == Some(ToggleAmong(ms[i].replies.value, replyId))
        else r[i] == ms[i]
  {
    if Given(replyId) then
      seq(|ms|, i requires 0 <= i < |ms| =>
        if ms[i].id == messageId then ms[i].(replies := Some(ToggleAmong(ms[i].replies.value, replyId))) else ms[i])
    else ToggleAmong(ms, Some(messageId))
  }

  /** With distinct ids, toggling leaves at most one editor of the list open. */
  lemma AtMostOneEditorOpen(ms: seq<Message>, id: Option<int>)
    requires DistinctIds(ms)
    ensures var r := ToggleAmong(ms, id);
      forall i, j :: 0 <= i < |r| && 0 <= j < |r| && r[i].isReplyOpen && r[j].isReplyOpen ==> i == j
  {
  }

  /** Toggling keeps the shape of the thread. */
  lemma ToggleKeepsThreeTiers(ms: seq<Message>, messageId: int, replyId: Option<int>)
    requires ThreeTiers(ms)
    ensures ThreeTiers(ToggleReply(ms, messageId, replyId))
  {
    var r := ToggleReply(ms, messageId, replyId);
    forall i | 0 <= i < |r| ensures Top(r[i]) {
      assert Top(ms[i]);
      if Given(replyId) && ms[i].id == messageId {
        var rs := ToggleAmong(ms[i].replies.value, replyId);
        assert forall j :: 0 <= j < |rs| ==> rs[j].replies == ms[i].replies.value[j].replies;
      }
    }
  }

  // ---------------------------------------------------------------------------
  // Votes
  // ---------------------------------------------------------------------------

  /** One vote: exactly one of the two counters goes up by one. */
  function Bump(m: Message, isUpvote: bool): (r: Message)
    ensures r.(upvotes := m.upvotes, downvotes := m.downvotes) == m
    ensures isUpvote ==> r.upvotes == m.upvotes + 1 && r.downvotes == m.downvotes
    ensures !isUpvote ==> r.downvotes == m.downvotes + 1 && r.upvotes == m.upvotes
  {
    if isUpvote then m.(upvotes := m.upvotes + 1) else m.(downvotes := m.downvotes + 1)
  }

  /** A vote on the messages of a list with the id: they get one more vote, the others are kept. */
  function VoteAmong(ms: seq<Message>, id: int, isUpvote: bool): (r: seq<Message>)
    ensures |r| == |ms|
    ensures forall i :: 0 <= i < |ms| && ms[i].id != id ==> r[i] == ms[i]
    ensures forall i :: 0 <= i < |ms| && ms[i].id == id ==> r[i] == Bump(ms[i], isUpvote)
  {
    seq(|ms|, i requires 0 <= i < |ms| => if ms[i].id == id then Bump(ms[i], isUpvote) else ms[i])
  }

  /**
   * `handleVote`: a vote on a top-level message, or (`isReply`) on a reply
   * of the top-level message `parentId`.
   */
  function Vote(ms: seq<Message>, messageId: int, isUpvote: bool, isReply: bool, parentId: Option<int>): (r: seq<Message>)
    requires Rooted(ms)
    ensures !isReply ==> r == VoteAmong(ms, messageId, isUpvote)
    ensures isReply ==> |r| == |ms|
    ensures isReply ==> forall i :: 0 <= i < |ms| ==>
        if HasId(ms[i], parentId)
        then r[i] == ms[i].(replies := r[i].replies) && r[i].replies == Some(VoteAmong(ms[i].replies.value, messageId, isUpvote))
        else r[i] == ms[i]
  {
    if isReply then
      seq(|ms|, i requires 0 <= i < |ms| =>
        if HasId(ms[i], parentId) then ms[i].(replies := Some(VoteAmong(ms[i].replies.value, messageId, isUpvote))) else ms[i])
    else VoteAmong(ms, messageId, isUpvote)
  }

  /** The votes a list of messages has received. */
  function Tally(ms: seq<Message>): int
  {
    if ms == [] then 0 else Tally(ms[..|ms| - 1]) + ms[|ms| - 1].upvotes + ms[|ms| - 1].downvotes
  }

  /** Changing one message by one vote changes the tally of its list by one. */
  lemma {:induction false} TallyOneMore(ms: seq<Message>, r: seq<Message>, k: nat)
    requires |r| == |ms| && k < |ms|
    requires forall i :: 0 <= i < |ms| && i != k ==> r[i] == ms[i]
    requires r[k].upvotes + r[k].downvotes == ms[k].upvotes + ms[k].downvotes + 1
    ensures Tally(r) == Tally(ms) + 1
  {
    var n := |ms| - 1;
    if k == n {
      assert r[..n] == ms[..n];
    } else {
      TallyOneMore(ms[..n], r[..n], k);
    }
  }

  /** A vote on a message whose id is unique in its list adds exactly one vote to that list. */
  lemma VoteAddsOne(ms: seq<Message>, k: nat, isUpvote: bool)
    requires k < |ms| && DistinctIds(ms)
    ensures Tally(VoteAmong(ms, ms[k].id, isUpvote)) == Tally(ms) + 1
  {
    TallyOneMore(ms, VoteAmong(ms, ms[k].id, isUpvote), k);
  }

  /** Lists whose messages carry the same counters have the same tally. */
  lemma {:induction false} TallySameCounters(ms: seq<Message>, r: seq<Message>)
    requires |r| == |ms|
    requires forall i :: 0 <= i < |ms| ==> r[i].upvotes == ms[i].upvotes && r[i].downvotes == ms[i].downvotes
    ensures Tally(r) == Tally(ms)
  {
    if ms != [] {
      var n := |ms| - 1;
      TallySameCounters(ms[..n], r[..n]);
    }
  }

  /**
   * A vote on a reply (unique among its siblings) of a top-level message
   * (unique at the top level) adds one vote to that message's replies; the
   * top-level counters and every other top-level message are unchanged.
   */
  lemma ReplyVoteAddsOne(ms: seq<Message>, k: nat, j: nat, isUpvote: bool)
    requires Rooted(ms) && k < |ms| && DistinctIds(ms)
    requires j < |ms[k].replies.value| && DistinctIds(ms[k].replies.value)
    ensures var r := Vote(ms, ms[k].replies.value[j].id, isUpvote, true, Some(ms[k].id));
      && Tally(r[k].replies.value) == Tally(ms[k].replies.value) + 1
      && Tally(r) == Tally(ms)
      && forall i :: 0 <= i < |ms| && i != k ==> r[i] == ms[i]
  {
    var rs := ms[k].replies.value;
    var r := Vote(ms, rs[j].id, isUpvote, true, Some(ms[k].id));
    VoteAddsOne(rs, j, isUpvote);
    TallySameCounters(ms, r);
  }

  /** Voting keeps the shape of the thread. */
  lemma VoteKeepsThreeTiers(ms: seq<Message>, messageId: int, isUpvote: bool, isReply: bool, parentId: Option<int>)
    requires ThreeTiers(ms)
    ensures ThreeTiers(Vote(ms, messageId, isUpvote, isReply, parentId))
  {
    var r := Vote(ms, messageId, isUpvote, isReply, parentId);
    forall i | 0 <= i < |r| ensures Top(r[i]) {
      assert Top(ms[i]);
      if isReply && HasId(ms[i], parentId) {
        var rs := VoteAmong(ms[i].replies.value, messageId, isUpvote);
        assert forall j :: 0 <= j < |rs| ==> rs[j].replies == ms[i].replies.value[j].replies;
      }
    }
  }

  // ---------------------------------------------------------------------------
  // Insertions
  // ---------------------------------------------------------------------------

  /**
   * Appends `node` to the replies of the top-level messages `parentId`,
   * closing their editor when `close` holds; every other message is kept.
   */
  function AppendReply(ms: seq<Message>, parentId: Option<int>, node: Message, close: bool): (r: seq<Message>)
    requires Rooted(ms)
    ensures |r| == |ms| && Rooted(r)
    ensures forall i :: 0 <= i < |ms| && !HasId(ms[i], parentId) ==> r[i] == ms[i]
    ensures forall i :: 0 <= i < |ms| && HasId(ms[i], parentId) ==>
      r[i].replies == Some(ms[i].replies.value + [node]) &&
      r[i] == ms[i].(replies := r[i].replies, isReplyOpen := r[i].isReplyOpen) &&
      r[i].isReplyOpen == (!close && ms[i].isReplyOpen)
  {
    seq(|ms|, i requires 0 <= i < |ms| =>
      if HasId(ms[i], parentId)
      then ms[i].(replies := Some(ms[i].replies.value + [node]), isReplyOpen := if close then false else ms[i].isReplyOpen)
      else ms[i])
  }

  /** Appends `node` to the replies of the replies `replyId` of a list, with the same editor rule. */
  function NestUnder(rs: seq<Message>, replyId: Option<int>, node: Message, close: bool): (r: seq<Message>)
    ensures |r| == |rs|
    ensures forall j :: 0 <= j < |rs| && !HasId(rs[j], replyId) ==> r[j] == rs[j]
    ensures forall j :: 0 <= j < |rs| && HasId(rs[j], replyId) ==>
      r[j].replies == Some(OrEmpty(rs[j].replies) + [node]) &&
      r[j] == rs[j].(replies := r[j].replies, isReplyOpen := r[j].isReplyOpen) &&
      r[j].isReplyOpen == (!close && rs[j].isReplyOpen)
  {
    seq(|rs|, j requires 0 <= j < |rs| =>
      if HasId(rs[j], replyId)
      then rs[j].(replies := Some(OrEmpty(rs[j].replies) + [node]), isReplyOpen := if close then false else rs[j].isReplyOpen)
      else rs[j])
  }

  /** Appends `node` under the reply `replyId` of the top-level message `parentId`. */
  function AppendNested(ms: seq<Message>, parentId: Option<int>, replyId: Option<int>, node: Message, close: bool): (r: seq<Message>)
    requires Rooted(ms)
    ensures |r| == |ms| && Rooted(r)
    ensures forall i :: 0 <= i < |ms| && !HasId(ms[i], parentId) ==> r[i] == ms[i]
    ensures forall i :: 0 <= i < |ms| && HasId(ms[i], parentId) ==>
      r[i] == ms[i].(replies := r[i].replies) && r[i].replies == Some(NestUnder(ms[i].replies.value, replyId, node, close))
  {
    seq(|ms|, i requires 0 <= i < |ms| =>
      if HasId(ms[i], parentId) then ms[i].(replies := Some(NestUnder(ms[i].replies.value, replyId, node, close))) else ms[i])
  }

  /**
   * The user's reply of `handleSubmitReply`: under the reply `replyId` of the
   * message `messageId` when a reply id is given, otherwise under the message
   * itself; the editor the user typed in is closed.
   */
  function InsertUserReply(ms: seq<Message>, messageId: int, replyId: Option<int>, node: Message): (r: seq<Message>)
    requires Rooted(ms)
    ensures |r| == |ms| && Rooted(r)
    ensures Given(replyId) ==> r == AppendNested(ms, Some(messageId), replyId, node, true)
    ensures !Given(replyId) ==> r == AppendReply(ms, Some(messageId), node, true)
  {
    if Given(replyId) then AppendNested(ms, Some(messageId), replyId, node, true)
    else AppendReply(ms, Some(messageId), node, true)
  }

  /** Where a persona's comment goes. */
  datatype Slot = AtRoot | UnderParent(parent: int) | UnderReply(parentId: Option<int>, replyId: int)

  /**
   * The target of `generateResponse`: at level 3 the reply id is dropped, so
   * the comment joins the parent's replies instead of opening a fourth tier.
   */
  function SlotFor(ms: seq<Message>, parentId: Option<int>, replyId: Option<int>): (s: Slot)
    requires Rooted(ms)
    ensures s.UnderReply? <==> Given(replyId) && NestingLevel(ms, parentId, replyId) < 3
    ensures s.UnderReply? ==> s.parentId == parentId && Some(s.replyId) == replyId
    ensures s.UnderParent? ==> Some(s.parent) == parentId
    ensures s.AtRoot? <==> !Given(parentId) && !(Given(replyId) && NestingLevel(ms, parentId, replyId) < 3)
  {
    var reply := if NestingLevel(ms, parentId, replyId) >= 3 then None else replyId;
    if Given(reply) then UnderReply(parentId, reply.value)
    else if Given(parentId) then UnderParent(parentId.value)
    else AtRoot
  }

  /** Inserts a completed comment at a slot (a root comment is appended at the end). */
  function Place(ms: seq<Message>, slot: Slot, node: Message): (r: seq<Message>)
    requires Rooted(ms)
    ensures slot.AtRoot? ==> r == ms + [node]
    ensures !slot.AtRoot? ==> |r| == |ms|
    ensures slot.UnderParent? ==> r == AppendReply(ms, Some(slot.parent), node, false)
    ensures slot.UnderReply? ==> r == AppendNested(ms, slot.parentId, Some(slot.replyId), node, false)
  {
    match slot
    case AtRoot => ms + [node]
    case UnderParent(p) => AppendReply(ms, Some(p), node, false)
    case UnderReply(p, q) => AppendNested(ms, p, Some(q), node, false)
  }

  /**
   * In a thread of the kept shape whose parent id is unique, a persona's
   * comment is never written into the third tier: the nested target is only
   * chosen when the reply is missing, and then nothing changes.
   */
  lemma PersonaNeverNests(ms: seq<Message>, parentId: Option<int>, replyId: Option<int>, node: Message)
    requires ThreeTiers(ms) && Unique(ms, parentId)
    requires forall i :: 0 <= i < |ms| ==> ms[i].id != 0
    requires SlotFor(ms, parentId, replyId).UnderReply?
    ensures Place(ms, SlotFor(ms, parentId, replyId), node) == ms
  {
    LevelsInThreeTiers(ms, parentId, replyId);
    var r := Place(ms, SlotFor(ms, parentId, replyId), node);
    forall i | 0 <= i < |ms| ensures r[i] == ms[i] {
      if HasId(ms[i], parentId) {
        var k := Locate(ms, parentId);
        assert k == i;
        var rs := ms[i].replies.value;
        var nested := NestUnder(rs, replyId, node, false);
        assert forall j :: 0 <= j < |rs| ==> !HasId(rs[j], replyId);
        assert nested == rs;
      }
    }
  }

  /** In a thread of the kept shape, a reply id that names an existing reply sends the comment to the parent's list. */
  lemma ReplyToReplyIsFlattened(ms: seq<Message>, parentId: Option<int>, replyId: Option<int>)
    requires ThreeTiers(ms) && Given(parentId) && Given(replyId) && ReplyFound(ms, parentId, replyId)
    ensures SlotFor(ms, parentId, replyId) == UnderParent(parentId.value)
  {
    LevelsInThreeTiers(ms, parentId, replyId);
  }

  /** Inserting a fresh comment anywhere keeps the shape of the thread. */
  lemma PlaceKeepsThreeTiers(ms: seq<Message>, slot: Slot, node: Message)
    requires ThreeTiers(ms) && Leaf(node)
    ensures ThreeTiers(Place(ms, slot, node))
  {
    var r := Place(ms, slot, node);
    forall i | 0 <= i < |r| ensures Top(r[i]) {
      if i < |ms| {
        assert Top(ms[i]);
        match slot
        case AtRoot =>
        case UnderParent(p) =>
        case UnderReply(p, q) =>
          if HasId(ms[i], p) {
            NestUnderKeepsMiddle(ms[i].replies.value, Some(q), node, false);
          }
      }
    }
  }

  lemma NestUnderKeepsMiddle(rs: seq<Message>, replyId: Option<int>, node: Message, close: bool)
    requires forall j :: 0 <= j < |rs| ==> Middle(rs[j])
    requires Leaf(node)
    ensures var r := NestUnder(rs, replyId, node, close);
      forall j :: 0 <= j < |r| ==> Middle(r[j])
  {
    var r := NestUnder(rs, replyId, node, close);
    forall j | 0 <= j < |r| ensures Middle(r[j]) {
      assert Middle(rs[j]);
      if HasId(rs[j], replyId) {
        var kids := OrEmpty(rs[j].replies) + [node];
        assert forall t :: 0 <= t < |kids| ==> Leaf(kids[t]);
      }
    }
  }

  /** The user's reply keeps the shape of the thread. */
  lemma UserReplyKeepsThreeTiers(ms: seq<Message>, messageId: int, replyId: Option<int>, node: Message)
    requires ThreeTiers(ms) && Leaf(node)
    ensures ThreeTiers(InsertUserReply(ms, messageId, replyId, node))
  {
    var r := InsertUserReply(ms, messageId, replyId, node);
    forall i | 0 <= i < |r| ensures Top(r[i]) {
      assert Top(ms[i]);
      if Given(replyId) && HasId(ms[i], Some(messageId)) {
        NestUnderKeepsMiddle(ms[i].replies.value, replyId, node, true);
      }
    }
  }

  // ---------------------------------------------------------------------------
  // Streaming into a root comment
  // ---------------------------------------------------------------------------

  /** One streamed fragment appended to the content of the top-level messages `id`. */
  function AppendContent(ms: seq<Message>, id: int, chunk: string): (r: seq<Message>)
  {
    seq(|ms|, i requires 0 <= i < |ms| => if ms[i].id == id then ms[i].(content := ms[i].content + chunk) else ms[i])
  }

  /** The fragments applied one after the other, in delivery order. */
  function StreamChunks(ms: seq<Message>, id: int, chunks: seq<string>): seq<Message>
  {
    if chunks == [] then ms else AppendContent(StreamChunks(ms, id, chunks[..|chunks| - 1]), id, chunks[|chunks| - 1])
  }

  /**
   * Streaming into a root comment whose id no other message has leaves the
   * other messages alone and gives the root the concatenated fragments.
   */
  lemma {:induction false} StreamFillsRoot(ms: seq<Message>, root: Message, chunks: seq<string>)
    requires forall i :: 0 <= i < |ms| ==> ms[i].id != root.id
    ensures StreamChunks(ms + [root], root.id, chunks) == ms + [root.(content := root.content + Concat(chunks))]
  {
    if chunks == [] {
      assert root.content + Concat(chunks) == root.content;
      assert root.(content := root.content) == root;
    } else {
      var n := |chunks| - 1;
      StreamFillsRoot(ms, root, chunks[..n]);
      var before := root.(content := root.content + Concat(chunks[..n]));
      var after := AppendContent(ms + [before], root.id, chunks[n]);
      assert after[|ms|] == root.(content := root.content + Concat(chunks));
      assert StreamChunks(ms + [root], root.id, chunks) == after;
      assert after == ms + [root.(content := root.content + Concat(chunks))];
    }
  }

  // ---------------------------------------------------------------------------
  // Conversation context
  // ---------------------------------------------------------------------------

  /** `messages.slice(-3)`. */
  function LastThree(ms: seq<Message>): (h: seq<Message>)
    ensures |h| == if |ms| < 3 then |ms| else 3
    ensures h == ms[|ms| - |h|..]
  {
    if |ms| <= 3 then ms else ms[|ms| - 3..]
  }

  /**
   * The history passed to the persona: the parent, the reply and the reply's
   * replies; or the parent and its replies; or the last three top-level
   * messages. Lookups are over the top level only.
   */
  function History(ms: seq<Message>, parentId: Option<int>, replyId: Option<int>): (h: seq<Message>)
    requires Rooted(ms)
    ensures !Given(replyId) && !Given(parentId) ==> h == LastThree(ms)
    ensures Given(replyId) || Given(parentId) ==> (h == [] <==> forall i :: 0 <= i < |ms| ==> !HasId(ms[i], parentId))
    ensures Given(replyId) || Given(parentId) ==> h == [] || (h[0] in ms && HasId(h[0], parentId))
    ensures !Given(replyId) && Given(parentId) && h != [] ==> h == [h[0]] + h[0].replies.value
    ensures Given(replyId) && h != [] ==>
      var rs := h[0].replies.value;
      var j := Locate(rs, replyId);
      h == if j == -1 then [h[0]] else [h[0], rs[j]] + OrEmpty(rs[j].replies)
  {
    var k := Locate(ms, parentId);
    if Given(replyId) then
      if k == -1 then []
      else
        var rs := ms[k].replies.value;
        var j := Locate(rs, replyId);
        if j == -1 then [ms[k]] else [ms[k], rs[j]] + OrEmpty(rs[j].replies)
    else if Given(parentId) then
      if k == -1 then [] else [ms[k]] + ms[k].replies.value
    else LastThree(ms)
  }

  /** The username of the last message of a history, if any. */
  function LastResponder(h: seq<Message>): Option<string>
  {
    if h == [] then None else Some(h[|h| - 1].username)
  }

  /** The username of the first message of a history, if any. */
  function ImmediateParent(h: seq<Message>): Option<string>
  {
    if h == [] then None else Some(h[0].username)
  }

  /** What `generateRandomReply` reads off the thread: whom not to pick and where the follow-up goes. */
  datatype FollowUp = FollowUp(lastResponder: Option<string>, immediateParent: Option<string>, messageId: int, parentId: Option<int>)

  /**
   * The thread lookups of `generateRandomReply` for a comment `messageId`
   * just written under `parentId` (or at the root): `None` when the message
   * it replies to is not found in the thread it reads.
   */
  function FollowUpFor(ms: seq<Message>, messageId: int, parentId: Option<int>): (f: Option<FollowUp>)
    requires Rooted(ms)
    ensures f.None? <==> (if Given(parentId) then Locate(ms, parentId) else Locate(ms, Some(messageId))) == -1
    ensures f.Some? ==> f.value.messageId == messageId && f.value.parentId == parentId
    ensures f.Some? ==>
      var parent := ms[if Given(parentId) then Locate(ms, parentId) else Locate(ms, Some(messageId))];
      var rs := parent.replies.value;
      var j := Locate(rs, Some(messageId));
      if Given(parentId) && messageId != 0 then
        if j >= 0 then f.value.lastResponder == Some(rs[j].username) && f.value.immediateParent == Some(rs[j].username)
        else f.value.lastResponder == None && f.value.immediateParent == None
      else
        f.value.immediateParent == Some(parent.username) &&
        f.value.lastResponder == Some(if rs == [] then parent.username else rs[|rs| - 1].username)
  {
    var k := if Given(parentId) then Locate(ms, parentId) else Locate(ms, Some(messageId));
    if k == -1 then None
    else
      var parent := ms[k];
      var rs := parent.replies.value;
      var j := Locate(rs, Some(messageId));
      if NestingLevel(ms, parentId, Some(messageId)) >= 3 then
        if j >= 0 then Some(FollowUp(Some(rs[j].username), Some(rs[j].username), rs[j].id, parentId))
        else Some(FollowUp(Some(parent.username), Some(parent.username), messageId, parentId))
      else if Given(parentId) && messageId != 0 then
        // The last nested reply would be the last responder here, but a found
        // reply with a `replies` field (even an empty one) is already level 3.
        if j >= 0 && rs[j].replies.Some? then
          assert false; None
        else if j >= 0 then Some(FollowUp(Some(rs[j].username), Some(rs[j].username), messageId, parentId))
        else Some(FollowUp(None, None, messageId, parentId))
      else
        Some(FollowUp(Some(if rs == [] then parent.username else rs[|rs| - 1].username), Some(parent.username), messageId, parentId))
  }

  /**
   * A comment just placed under a top-level message is not in the thread as
   * it was read before the turn, so the follow-up excludes nobody.
   */
  lemma FreshReplyExcludesNobody(ms: seq<Message>, messageId: int, parentId: Option<int>)
    requires Rooted(ms) && Given(parentId) && messageId != 0 && Locate(ms, parentId) >= 0
    requires forall j :: 0 <= j < |ms[Locate(ms, parentId)].replies.value| ==> ms[Locate(ms, parentId)].replies.value[j].id != messageId
    ensures FollowUpFor(ms, messageId, parentId) == Some(FollowUp(None, None, messageId, parentId))
  {
  }
}
