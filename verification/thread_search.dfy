/**
 * The thread search box: a non-blank query lists the saved threads whose
 * title, subreddit or description contains it, ignoring case.
 */
module ThreadSearch {
  import opened Wrappers
  import opened Seqs
  import opened JsText
  import opened Threads

  /** The lower-cased title, subreddit or description contains the (already lower-cased) query. */
  predicate ThreadMatches(t: Thread, query: string)
  {
    Contains(ToLower(t.title), query) || Contains(ToLower(t.subreddit), query) || Contains(ToLower(t.description), query)
  }

  /** The matching threads, in their saved order; every matching thread is listed. */
  function SearchResults(ts: seq<Thread>, query: string): (r: seq<Thread>)
    ensures |r| <= |ts|
    ensures forall i :: 0 <= i < |r| ==> r[i] in ts && ThreadMatches(r[i], query)
    ensures forall i :: 0 <= i < |ts| && ThreadMatches(ts[i], query) ==> ts[i] in r
  {
    Filter(ts, (t: Thread) => ThreadMatches(t, query))
  }

  /** The results keep the saved order: searching distributes over concatenation. */
  lemma SearchKeepsOrder(a: seq<Thread>, b: seq<Thread>, query: string)
    ensures SearchResults(a + b, query) == SearchResults(a, query) + SearchResults(b, query)
  {
    FilterAppend(a, b, (t: Thread) => ThreadMatches(t, query));
  }

  /** Something is listed exactly when some saved thread matches. */
  lemma ListedIffSomeMatch(ts: seq<Thread>, query: string)
    ensures SearchResults(ts, query) != [] <==> exists i :: 0 <= i < |ts| && ThreadMatches(ts[i], query)
  {
    var r := SearchResults(ts, query);
    if r != [] {
      assert r[0] in ts;
      var i :| 0 <= i < |ts| && ts[i] == r[0];
    }
  }

  /** The search box: the query as typed and the listed threads. */
  class SearchBox {
    var searchQuery: string
    var threads: seq<Thread>

    /** The saved list as loaded when the box appears (nothing when absent or unreadable). */
    constructor(saved: Option<seq<Thread>>)
      ensures searchQuery == "" && threads == (if saved.Some? then saved.value else [])
    {
      searchQuery := "";
      threads := if saved.Some? then saved.value else [];
    }

    /** The result panel shows when something is listed and the query is not blank. */
    predicate ShowsResults()
      reads this
    {
      |threads| > 0 && !IsBlank(searchQuery)
    }

    /**
     * `handleSearch`: the query is stored as typed; a blank query empties the
     * list, and otherwise, when the saved list can be read, the list becomes
     * its threads matching the lower-cased (untrimmed) query.
     */
    method HandleSearch(value: string, saved: Option<seq<Thread>>)
      modifies this
      ensures searchQuery == value
      ensures IsBlank(value) ==> threads == [] && !ShowsResults()
      ensures !IsBlank(value) && saved.Some? ==> threads == SearchResults(saved.value, ToLower(value))
      ensures !IsBlank(value) && saved.None? ==> threads == old(threads)
      ensures !IsBlank(value) && saved.Some? ==> (ShowsResults() <==> exists i :: 0 <= i < |saved.value| && ThreadMatches(saved.value[i], ToLower(value)))
    {
      searchQuery := value;
      if IsBlank(value) {
        threads := [];
        return;
      }
      if saved.Some? {
        var query := ToLower(value);
        threads := SearchResults(saved.value, query);
        ListedIffSomeMatch(saved.value, query);
      }
    }

    /** `handleThreadSelect`: the query and the list are cleared, so the panel closes. */
    method HandleThreadSelect(thread: Thread)
      modifies this
      ensures searchQuery == "" && threads == [] && !ShowsResults()
    {
      searchQuery := "";
      threads := [];
    }
  }
}
