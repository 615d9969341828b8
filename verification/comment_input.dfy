/**
 * The comment box with `@username` completion: the word being typed is the
 * text after the last white space before the cursor; a word starting with
 * `@` lists the personas whose name contains the rest of the word, and a
 * chosen name replaces the word.
 */
module CommentInput {
  import opened Seqs
  import opened JsText
  import opened PersonaSelector

  /** `text.split(/\s/)`'s last piece: the word that ends at the end of `text`. */
  function CurrentWord(text: string): (w: string)
    ensures |w| <= |text| && w == text[|text| - |w|..]
    ensures forall i :: 0 <= i < |w| ==> !IsSpace(w[i])
    ensures |w| < |text| ==> IsSpace(text[|text| - |w| - 1])
  {
    SplitLastPiece(text, IsSpace);
    Split(text, IsSpace)[|Split(text, IsSpace)| - 1]
  }

  /** The persona's lower-cased name contains the search term. */
  predicate NameMatches(p: Persona, term: string)
  {
    Contains(ToLower(p.username), term)
  }

  /** `personas.map(p => p.username)`. */
  function Usernames(personas: seq<Persona>): (names: seq<string>)
    ensures |names| == |personas| && forall i :: 0 <= i < |personas| ==> names[i] == personas[i].username
  {
    seq(|personas|, i requires 0 <= i < |personas| => personas[i].username)
  }

  /**
   * The suggestion list: the names of the matching personas, in roster order;
   * each listed name contains the term once lower-cased, and every persona
   * that matches is listed.
   */
  function Suggest(personas: seq<Persona>, term: string): (names: seq<string>)
    ensures names == Usernames(Filter(personas, (p: Persona) => NameMatches(p, term)))
    ensures forall i :: 0 <= i < |names| ==>
      Contains(ToLower(names[i]), term) && exists j :: 0 <= j < |personas| && personas[j].username == names[i]
    ensures forall j :: 0 <= j < |personas| && NameMatches(personas[j], term) ==> personas[j].username in names
  {
    var kept := Filter(personas, (p: Persona) => NameMatches(p, term));
    var names := Usernames(kept);
    assert forall j :: 0 <= j < |personas| && NameMatches(personas[j], term) ==> personas[j].username in names by {
      forall j | 0 <= j < |personas| && NameMatches(personas[j], term)
        ensures personas[j].username in names
      {
        assert personas[j] in kept;
        var t :| 0 <= t < |kept| && kept[t] == personas[j];
        assert names[t] == personas[j].username;
      }
    }
    names
  }

  /** The list follows the roster: suggesting over two rosters in a row lists the first one's names first. */
  lemma SuggestAppend(a: seq<Persona>, b: seq<Persona>, term: string)
    ensures Suggest(a + b, term) == Suggest(a, term) + Suggest(b, term)
  {
    FilterAppend(a, b, (p: Persona) => NameMatches(p, term));
  }

  /** A bare `@` lists every persona, in roster order. */
  lemma BareAtListsEveryone(personas: seq<Persona>)
    ensures Suggest(personas, "") == seq(|personas|, i requires 0 <= i < |personas| => personas[i].username)
  {
    forall j | 0 <= j < |personas| ensures NameMatches(personas[j], "") {
      assert MatchAt(ToLower(personas[j].username), "", 0);
    }
    FilterKeepsAll(personas, (p: Persona) => NameMatches(p, ""));
  }

  /** The text of the box and the cursor after a name is inserted. */
  datatype Insertion = Insertion(text: string, cursor: nat)

  /** `s.slice(0, n)` and `s.slice(n)` for a non-negative `n`, clamped to the string. */
  function Before(s: string, n: nat): string { if n <= |s| then s[..n] else s }

  function After(s: string, n: nat): string { if n <= |s| then s[n..] else [] }

  /**
   * `insertSuggestion`'s text and cursor: the text before the typed word,
   * `@`, the name and a space, then the text after the cursor. The word is
   * cut with `slice(0, -length)`, which for an empty word is `slice(0, 0)`.
   */
  function InsertName(value: string, cursor: nat, username: string): (r: Insertion)
    ensures |username| + 2 <= r.cursor <= |r.text|
    ensures r.text[r.cursor - |username| - 2..r.cursor] == "@" + username + " "
    ensures StartsWith(Before(value, cursor), r.text[..r.cursor - |username| - 2])
    ensures r.text[r.cursor..] == After(value, cursor)
  {
    var before := Before(value, cursor);
    var word := CurrentWord(before);
    var kept := if |word| == 0 then "" else before[..|before| - |word|];
    Insertion(kept + "@" + username + " " + After(value, cursor), |kept| + |username| + 2)
  }

  /**
   * With a non-empty word before the cursor, the insertion keeps the text
   * before the word and the text after the cursor, and puts the cursor right
   * after the inserted space.
   */
  lemma InsertKeepsSurroundings(value: string, cursor: nat, username: string)
    requires cursor <= |value| && CurrentWord(value[..cursor]) != ""
    ensures var word := CurrentWord(value[..cursor]);
      var kept := value[..cursor - |word|];
      var r := InsertName(value, cursor, username);
      && r.text[..r.cursor] == kept + "@" + username + " "
      && r.text[r.cursor..] == value[cursor..]
      && kept + word == value[..cursor]
  {
    var word := CurrentWord(value[..cursor]);
    var kept := value[..cursor - |word|];
    var r := InsertName(value, cursor, username);
    assert value[..cursor][..cursor - |word|] == kept;
    assert r.text == (kept + "@" + username + " ") + value[cursor..];
  }

  /** With an empty word before the cursor, the text before the cursor is lost. */
  lemma EmptyWordDropsText(value: string, cursor: nat, username: string)
    requires cursor <= |value| && CurrentWord(value[..cursor]) == ""
    ensures InsertName(value, cursor, username) == Insertion("@" + username + " " + value[cursor..], |username| + 2)
  {
  }

  /** The keys the completion list reacts to. */
  datatype Key = ArrowDown | ArrowUp | Enter | Escape | OtherKey

  /** The comment box: its text (held by the parent), the cursor and the completion list. */
  class MentionBox {
    const personas: seq<Persona>
    var value: string
    var cursor: nat
    var showSuggestions: bool
    var suggestions: seq<string>
    var selected: int

    /**
     * While the list shows, it is the non-empty list for the `@` word before
     * the cursor and the highlighted entry is one of it.
     */
    predicate Valid()
      reads this
    {
      showSuggestions ==>
        && cursor <= |value|
        && StartsWith(CurrentWord(value[..cursor]), "@")
        && suggestions == Suggest(personas, ToLower(CurrentWord(value[..cursor])[1..]))
        && 0 <= selected < |suggestions|
    }

    constructor(roster: seq<Persona>, text: string)
      ensures Valid()
      ensures personas == roster && value == text && cursor == 0
      ensures !showSuggestions && suggestions == [] && selected == 0
    {
      personas := roster;
      value := text;
      cursor := 0;
      showSuggestions := false;
      suggestions := [];
      selected := 0;
    }

    /**
     * `handleInputChange`: the new text and cursor are stored; an `@` word
     * before the cursor recomputes the list, shows it iff it is non-empty and
     * highlights its first entry; any other word hides it.
     */
    method HandleInputChange(newValue: string, newPosition: nat)
      requires newPosition <= |newValue|
      modifies this
      ensures Valid()
      ensures value == newValue && cursor == newPosition
      ensures var word := CurrentWord(newValue[..newPosition]);
        && (StartsWith(word, "@") ==>
              suggestions == Suggest(personas, ToLower(word[1..])) && selected == 0 &&
              (showSuggestions <==> suggestions != []))
        && (!StartsWith(word, "@") ==>
              !showSuggestions && suggestions == old(suggestions) && selected == old(selected))
    {
      var before := newValue[..newPosition];
      var word := CurrentWord(before);
      if StartsWith(word, "@") {
        var term := ToLower(word[1..]);
        var matching := Suggest(personas, term);
        suggestions := matching;
        if |matching| > 0 {
          showSuggestions := true;
        } else {
          showSuggestions := false;
        }
        selected := 0;
      } else {
        showSuggestions := false;
      }
      value := newValue;
      cursor := newPosition;
    }

    /**
     * `insertSuggestion`: the name replaces the word before the cursor, the
     * cursor moves after the inserted space and the list closes.
     */
    method InsertSuggestion(username: string)
      modifies this
      ensures Valid()
      ensures Insertion(value, cursor) == InsertName(old(value), old(cursor), username)
      ensures !showSuggestions && suggestions == old(suggestions) && selected == old(selected)
    {
      var before := Before(value, cursor);
      var after := After(value, cursor);
      var word := CurrentWord(before);
      var kept := if |word| == 0 then "" else before[..|before| - |word|];
      value := kept + "@" + username + " " + after;
      cursor := |kept| + |username| + 2;
      showSuggestions := false;
    }

    /**
     * `handleKeyDown`: nothing happens while the list is hidden; the arrows
     * move the highlight within the list, Enter inserts the highlighted name
     * and Escape hides the list.
     */
    method HandleKeyDown(key: Key)
      requires Valid()
      modifies this
      ensures Valid()
      ensures !old(showSuggestions) ==> value == old(value) && cursor == old(cursor) && !showSuggestions && selected == old(selected)
      ensures old(showSuggestions) && key == ArrowDown ==>
        selected == (if old(selected) < |old(suggestions)| - 1 then old(selected) + 1 else old(selected)) &&
        showSuggestions && value == old(value) && cursor == old(cursor)
      ensures old(showSuggestions) && key == ArrowUp ==>
        selected == (if old(selected) > 0 then old(selected) - 1 else old(selected)) &&
        showSuggestions && value == old(value) && cursor == old(cursor)
      ensures old(showSuggestions) && key == Enter ==>
        Insertion(value, cursor) == InsertName(old(value), old(cursor), old(suggestions)[old(selected)]) &&
        !showSuggestions && selected == old(selected)
      ensures old(showSuggestions) && key == Escape ==>
        !showSuggestions && value == old(value) && cursor == old(cursor) && selected == old(selected)
      ensures old(showSuggestions) && key == OtherKey ==>
        showSuggestions && value == old(value) && cursor == old(cursor) && selected == old(selected)
      ensures suggestions == old(suggestions)
    {
      if !showSuggestions {
        return;
      }
      match key
      case ArrowDown => MoveHighlight(true);
      case ArrowUp => MoveHighlight(false);
      case Enter => InsertSuggestion(suggestions[selected]);
      case Escape => showSuggestions := false;
      case OtherKey =>
    }

    /** Moves the highlight one entry down or up, stopping at either end of the list. */
    method MoveHighlight(down: bool)
      requires Valid() && showSuggestions
      modifies this`selected
      ensures Valid()
      ensures down ==> selected == if old(selected) < |suggestions| - 1 then old(selected) + 1 else old(selected)
      ensures !down ==> selected == if old(selected) > 0 then old(selected) - 1 else old(selected)
    {
      if down {
        if selected < |suggestions| - 1 {
          selected := selected + 1;
        }
      } else {
        if selected > 0 {
          selected := selected - 1;
        }
      }
    }
  }

  /**
   * The component's own handlers never reach the empty-word case: the list
   * only shows for an `@` word, so the word `insertSuggestion` cuts is never
   * empty while a name can be chosen.
   */
  lemma ShownListHasWord(box: MentionBox)
    requires box.Valid() && box.showSuggestions
    ensures CurrentWord(box.value[..box.cursor]) != ""
  {
  }
}
