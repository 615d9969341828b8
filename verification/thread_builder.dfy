/**
 * The list of discussion threads: creation from a form, deletion by id and
 * the reset of a thread's comment count.
 */
module Threads {
  import opened Wrappers
  import opened Seqs

  /** A discussion thread; `createdAt` is the creation time in milliseconds. */
  datatype Thread = Thread(id: int, subreddit: string, title: string, description: string,
                           createdAt: int, upvotes: int, comments: int)

  /** The creation form. */
  datatype Draft = Draft(subreddit: string, title: string, description: string)

  const EmptyDraft: Draft := Draft("", "", "")

  /** A thread created from the form: one upvote, no comments. */
  function NewThread(id: int, form: Draft, createdAt: int): (t: Thread)
  {
    Thread(id, form.subreddit, form.title, form.description, createdAt, 1, 0)
  }

  predicate KeepUnless(t: Thread, id: int) { t.id != id }

  /** `threads.filter(t => t.id !== id)`: every thread with the id goes, the others stay. */
  function WithoutThread(ts: seq<Thread>, id: int): (r: seq<Thread>)
    ensures |r| <= |ts|
    ensures forall i :: 0 <= i < |r| ==> r[i] in ts && r[i].id != id
    ensures forall i :: 0 <= i < |ts| && ts[i].id != id ==> ts[i] in r
  {
    Filter(ts, (t: Thread) => KeepUnless(t, id))
  }

  /** Deleting keeps the order of the remaining threads: it distributes over concatenation. */
  lemma DeleteKeepsOrder(a: seq<Thread>, b: seq<Thread>, id: int)
    ensures WithoutThread(a + b, id) == WithoutThread(a, id) + WithoutThread(b, id)
  {
    FilterAppend(a, b, (t: Thread) => KeepUnless(t, id));
  }

  /** Deleting an id no thread has changes nothing. */
  lemma DeleteAbsentId(ts: seq<Thread>, id: int)
    requires forall i :: 0 <= i < |ts| ==> ts[i].id != id
    ensures WithoutThread(ts, id) == ts
  {
    FilterKeepsAll(ts, (t: Thread) => KeepUnless(t, id));
  }

  /** The comment count of the threads with the id is set to 0; nothing else changes. */
  function ClearComments(ts: seq<Thread>, id: int): (r: seq<Thread>)
    ensures |r| == |ts|
    ensures forall i :: 0 <= i < |ts| ==>
      r[i] == ts[i].(comments := r[i].comments) && r[i].comments == (if ts[i].id == id then 0 else ts[i].comments)
  {
    seq(|ts|, i requires 0 <= i < |ts| => if ts[i].id == id then ts[i].(comments := 0) else ts[i])
  }

  /** Deleting a thread just created under a fresh id gives back the list it was added to. */
  lemma DeleteUndoesSubmit(ts: seq<Thread>, id: int, form: Draft, createdAt: int)
    requires forall i :: 0 <= i < |ts| ==> ts[i].id != id
    ensures WithoutThread(ts + [NewThread(id, form, createdAt)], id) == ts
  {
    DeleteKeepsOrder(ts, [NewThread(id, form, createdAt)], id);
    DeleteAbsentId(ts, id);
    assert WithoutThread([NewThread(id, form, createdAt)], id) == [];
  }

  /** Clearing twice is clearing once. */
  lemma ClearIsIdempotent(ts: seq<Thread>, id: int)
    ensures ClearComments(ClearComments(ts, id), id) == ClearComments(ts, id)
  {
  }

  /** Clearing a thread leaves every other thread as it was: the list without it is the same. */
  lemma {:induction false} ClearTouchesOnlyItsThread(ts: seq<Thread>, id: int)
    ensures WithoutThread(ClearComments(ts, id), id) == WithoutThread(ts, id)
  {
    if ts != [] {
      var r := ClearComments(ts, id);
      ClearTouchesOnlyItsThread(ts[1..], id);
      assert r[1..] == ClearComments(ts[1..], id);
      assert r == [r[0]] + r[1..];
      assert ts == [ts[0]] + ts[1..];
      DeleteKeepsOrder([r[0]], r[1..], id);
      DeleteKeepsOrder([ts[0]], ts[1..], id);
    }
  }

  /** The thread builder: the list, the modal and the form. */
  class ThreadBuilder {
    var threads: seq<Thread>
    var isModalOpen: bool
    var draft: Draft

    /** The list as loaded (an absent or unreadable saved list is empty). */
    constructor(saved: Option<seq<Thread>>)
      ensures threads == (if saved.Some? then saved.value else [])
      ensures !isModalOpen && draft == EmptyDraft
    {
      threads := if saved.Some? then saved.value else [];
      isModalOpen := false;
      draft := EmptyDraft;
    }

    /** The periodic refresh: a readable saved list replaces the list; otherwise nothing changes. */
    method Refresh(saved: Option<seq<Thread>>)
      modifies this
      ensures threads == if saved.Some? then saved.value else old(threads)
      ensures isModalOpen == old(isModalOpen) && draft == old(draft)
    {
      if saved.Some? {
        threads := saved.value;
      }
    }

    /** `handleCreateThread`: opens the form. */
    method HandleCreateThread()
      modifies this
      ensures isModalOpen && threads == old(threads) && draft == old(draft)
    {
      isModalOpen := true;
    }

    /** The form's fields change. */
    method EditDraft(form: Draft)
      modifies this
      ensures draft == form && threads == old(threads) && isModalOpen == old(isModalOpen)
    {
      draft := form;
    }

    /**
     * `handleSubmit`: the thread built from the form is appended after the
     * existing ones, the form is emptied and the modal closes. The id and the
     * creation time come from two readings of the clock.
     */
    method HandleSubmit(id: int, createdAt: int)
      modifies this
      ensures threads == old(threads) + [NewThread(id, old(draft), createdAt)]
      ensures draft == EmptyDraft && !isModalOpen
    {
      var thread := NewThread(id, draft, createdAt);
      threads := threads + [thread];
      draft := EmptyDraft;
      isModalOpen := false;
    }

    /** `handleDelete`: after confirmation every thread with the id is removed. */
    method HandleDelete(confirmed: bool, threadId: int)
      modifies this
      ensures threads == if confirmed then WithoutThread(old(threads), threadId) else old(threads)
      ensures isModalOpen == old(isModalOpen) && draft == old(draft)
    {
      if confirmed {
        threads := WithoutThread(threads, threadId);
      }
    }

    /**
     * `handleClearThread`: after confirmation the saved list, when it can be
     * read, becomes the list with the thread's comment count reset.
     */
    method HandleClearThread(confirmed: bool, threadId: int, saved: Option<seq<Thread>>)
      modifies this
      ensures threads == if confirmed && saved.Some? then ClearComments(saved.value, threadId) else old(threads)
      ensures isModalOpen == old(isModalOpen) && draft == old(draft)
    {
      if confirmed {
        if saved.Some? {
          threads := ClearComments(saved.value, threadId);
        }
      }
    }
  }
}
