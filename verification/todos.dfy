/**
 * The to-do list: an ordered list of `{text, done}` records kept under the
 * "todos" key, where an item is known only by its position. Each handler
 * loads the stored list, changes it and stores it again: the form adds a
 * trimmed, non-blank text at the end, a checkbox overwrites one item's
 * `done`, a delete button splices one item out.
 */
module Todos {
  import opened Storage

  datatype Todo = Todo(text: string, done: bool)

  // ---------------------------------------------------------------------
  // String.prototype.trim

  /** The characters `trim` removes: JavaScript's WhiteSpace and LineTerminator characters. */
  predicate IsSpace(c: char)
  {
    || ('\t' <= c <= '\r')  // tab, line feed, vertical tab, form feed, carriage return
    || c == ' ' || c == '\U{A0}' || c == '\U{1680}'
    || ('\U{2000}' <= c <= '\U{200A}')
    || c == '\U{2028}' || c == '\U{2029}' || c == '\U{202F}' || c == '\U{205F}'
    || c == '\U{3000}' || c == '\U{FEFF}'
  }

  predicate AllSpace(s: string)
  {
    forall i :: 0 <= i < |s| ==> IsSpace(s[i])
  }

  /** How many spaces `s` starts with. */
  function LeadingSpaces(s: string): (k: nat)
    ensures k <= |s|
  {
    if s != [] && IsSpace(s[0]) then 1 + LeadingSpaces(s[1..]) else 0
  }

  /** How many spaces `s` ends with. */
  function TrailingSpaces(s: string): (k: nat)
    ensures k <= |s|
  {
    if s != [] && IsSpace(s[|s| - 1]) then 1 + TrailingSpaces(s[..|s| - 1]) else 0
  }

  /** `s.trim()`: `s` without its leading and its trailing spaces. */
  function Trim(s: string): (r: string)
    ensures |r| <= |s| - LeadingSpaces(s)
  {
    var t := s[LeadingSpaces(s)..];
    t[..|t| - TrailingSpaces(t)]
  }

  /** A run of `k` spaces after a space at the front is a run of `k + 1` spaces, stopped where the shorter one was. */
  lemma ExtendLeadingRun(s: string, k: nat)
    requires s != [] && IsSpace(s[0]) && k <= |s| - 1
    requires AllSpace(s[1..][..k]) && (k < |s| - 1 ==> !IsSpace(s[1..][k]))
    ensures AllSpace(s[..k + 1]) && (k + 1 < |s| ==> !IsSpace(s[k + 1]))
  {
    assert s[..k + 1] == [s[0]] + s[1..][..k];
  }

  /** `LeadingSpaces` counts exactly the run of spaces at the start: the next character, if any, is not one. */
  lemma {:induction false} LeadingSpacesRun(s: string)
    ensures AllSpace(s[..LeadingSpaces(s)])
    ensures LeadingSpaces(s) < |s| ==> !IsSpace(s[LeadingSpaces(s)])
    decreases |s|
  {
    if s != [] && IsSpace(s[0]) {
      LeadingSpacesRun(s[1..]);
      ExtendLeadingRun(s, LeadingSpaces(s[1..]));
    }
  }

  /** A run of `k` spaces before a space at the end is a run of `k + 1` spaces, stopped where the shorter one was. */
  lemma ExtendTrailingRun(s: string, p: string, k: nat)
    requires s != [] && p == s[..|s| - 1] && IsSpace(s[|s| - 1]) && k <= |p|
    requires AllSpace(p[|p| - k..]) && (k < |p| ==> !IsSpace(p[|p| - 1 - k]))
    ensures AllSpace(s[|s| - (k + 1)..]) && (k + 1 < |s| ==> !IsSpace(s[|s| - 1 - (k + 1)]))
  {
    assert s[|s| - (k + 1)..] == p[|p| - k..] + [s[|s| - 1]];
  }

  /** `TrailingSpaces` counts exactly the run of spaces at the end: the character before it, if any, is not one. */
  lemma {:induction false} TrailingSpacesRun(s: string)
    ensures AllSpace(s[|s| - TrailingSpaces(s)..])
    ensures TrailingSpaces(s) < |s| ==> !IsSpace(s[|s| - 1 - TrailingSpaces(s)])
    decreases |s|
  {
    if s != [] && IsSpace(s[|s| - 1]) {
      var p := s[..|s| - 1];
      TrailingSpacesRun(p);
      ExtendTrailingRun(s, p, TrailingSpaces(p));
    }
  }

  /**
   * Cutting a run of `lead` spaces off the front of `s`, and then a run of
   * `trail` spaces off the back of what is left, each run stopped by a
   * non-space, keeps a middle of `s` that neither starts nor ends with a space.
   */
  lemma CutRuns(s: string, lead: nat, t: string, trail: nat)
    requires lead <= |s| && t == s[lead..] && trail <= |t|
    requires AllSpace(s[..lead]) && (lead < |s| ==> !IsSpace(s[lead]))
    requires AllSpace(t[|t| - trail..]) && (trail < |t| ==> !IsSpace(t[|t| - 1 - trail]))
    ensures var r := t[..|t| - trail];
      && lead + |r| <= |s| && r == s[lead..lead + |r|]
      && AllSpace(s[lead + |r|..])
      && (r == [] || (!IsSpace(r[0]) && !IsSpace(r[|r| - 1])))
  {
    var r := t[..|t| - trail];
    assert s[lead + |r|..] == t[|t| - trail..];
    if r != [] {
      assert r[|r| - 1] == t[|t| - 1 - trail];
    }
  }

  /**
   * `trim` keeps the middle of `s` between a run of leading and a run of
   * trailing spaces, and the result neither starts nor ends with a space.
   */
  lemma {:induction false} TrimKeepsMiddle(s: string)
    ensures var lead := LeadingSpaces(s);
      && lead + |Trim(s)| <= |s|
      && Trim(s) == s[lead..lead + |Trim(s)|]
      && AllSpace(s[..lead]) && AllSpace(s[lead + |Trim(s)|..])
    ensures Trim(s) == [] || (!IsSpace(Trim(s)[0]) && !IsSpace(Trim(s)[|Trim(s)| - 1]))
  {
    var lead := LeadingSpaces(s);
    var t := s[lead..];
    var trail := TrailingSpaces(t);
    assert Trim(s) == t[..|t| - trail];
    LeadingSpacesRun(s);
    TrailingSpacesRun(t);
    CutRuns(s, lead, t, trail);
  }

  /** The trimmed text is empty exactly when the input is blank (empty or all spaces). */
  lemma TrimEmptyIffBlank(s: string)
    ensures Trim(s) == [] <==> AllSpace(s)
  {
    TrimKeepsMiddle(s);
    var lead := LeadingSpaces(s);
    LeadingSpacesRun(s);
    if Trim(s) != [] {
      assert s[lead] == Trim(s)[0];
    } else {
      forall i | 0 <= i < |s| ensures IsSpace(s[i]) {
        assert s == s[..lead] + s[lead..];
      }
    }
  }

  /** Trimming twice is trimming once. */
  lemma TrimIdempotent(s: string)
    ensures Trim(Trim(s)) == Trim(s)
  {
    var r := Trim(s);
    TrimKeepsMiddle(s);
    if r != [] {
      assert LeadingSpaces(r) == 0;
      assert r[0..] == r;
      assert TrailingSpaces(r) == 0;
    }
  }

  // ---------------------------------------------------------------------
  // The list operations

  /** `loadTodos`: the stored list, or the empty list when nothing is stored or the text does not parse. */
  function LoadTodos(saved: Stored<seq<Todo>>): (r: seq<Todo>)
    ensures saved.Parsed? ==> r == saved.value
    ensures !saved.Parsed? ==> r == []
  {
    match saved
    case Parsed(items) => items
    case _ => []
  }

  /** The submit handler on a list: nothing for blank input, otherwise a new open item at the end. */
  function Added(todos: seq<Todo>, input: string): (r: seq<Todo>)
    ensures AllSpace(input) ==> r == todos
    ensures !AllSpace(input) ==>
      && |r| == |todos| + 1
      && r[..|todos|] == todos
      && r[|todos|] == Todo(Trim(input), false)
      && r[|todos|].text != []
  {
    TrimEmptyIffBlank(input);
    var text := Trim(input);
    if text == [] then todos else todos + [Todo(text, false)]
  }

  /** `todos[idx].done = done`: item `idx` gets the new flag and keeps its text; no other item changes. */
  function WithDone(todos: seq<Todo>, idx: nat, done: bool): (r: seq<Todo>)
    requires idx < |todos|
    ensures |r| == |todos|
    ensures r[idx] == Todo(todos[idx].text, done)
    ensures forall j :: 0 <= j < |r| && j != idx ==> r[j] == todos[j]
  {
    todos[idx := todos[idx].(done := done)]
  }

  /**
   * `todos.splice(idx, 1)`: item `idx` leaves, the items before it stay
   * where they were and the ones after it move down by one; past the end,
   * nothing changes.
   */
  function Spliced(todos: seq<Todo>, idx: nat): (r: seq<Todo>)
    ensures idx < |todos| ==>
      && |r| == |todos| - 1
      && (forall j :: 0 <= j < idx ==> r[j] == todos[j])
      && (forall j :: idx <= j < |r| ==> r[j] == todos[j + 1])
    ensures idx >= |todos| ==> r == todos
  {
    if idx < |todos| then todos[..idx] + todos[idx + 1..] else todos
  }

  /** Deleting removes exactly the one item at `idx`: the rest keep their multiplicities. */
  lemma SplicedRemovesOne(todos: seq<Todo>, idx: nat)
    requires idx < |todos|
    ensures multiset(Spliced(todos, idx)) + multiset{todos[idx]} == multiset(todos)
  {
    assert todos == todos[..idx] + [todos[idx]] + todos[idx + 1..];
  }

  /** Deleting the item just added gives back the list as it was. */
  lemma SplicedUndoesAdded(todos: seq<Todo>, input: string)
    requires !AllSpace(input)
    ensures Spliced(Added(todos, input), |todos|) == todos
  {
    var r := Added(todos, input);
    assert r[..|todos|] == todos;
  }

  /** Setting an item's flag back to what it was gives back the list as it was. */
  lemma WithDoneRestores(todos: seq<Todo>, idx: nat, done: bool)
    requires idx < |todos|
    ensures WithDone(WithDone(todos, idx, done), idx, todos[idx].done) == todos
  {
    var r := WithDone(WithDone(todos, idx, done), idx, todos[idx].done);
    assert forall j :: 0 <= j < |todos| ==> r[j] == todos[j];
  }

  /** Worked example: from [A, B, C], deleting index 1 leaves [A, C], with C now at index 1. */
  lemma DeleteExample(a: Todo, b: Todo, c: Todo)
    ensures Spliced([a, b, c], 1) == [a, c]
  {
    assert [a, b, c][..1] == [a] && [a, b, c][2..] == [c];
  }

  /** Worked example: blank input adds nothing. */
  lemma AddBlankExample(todos: seq<Todo>)
    ensures Added(todos, "   ") == todos
  {
    assert AllSpace("   ");
  }

  /** Worked example: "buy milk" adds an open "buy milk" at the end. */
  lemma AddTextExample(todos: seq<Todo>)
    ensures Added(todos, "buy milk") == todos + [Todo("buy milk", false)]
  {
    var input := "buy milk";
    assert input[0] == 'b' && !IsSpace('b');
    assert !AllSpace(input);
    assert LeadingSpaces(input) == 0 && input[0..] == input;
    assert input[|input| - 1] == 'k' && !IsSpace('k');
    assert TrailingSpaces(input) == 0 && input[..|input|] == input;
    assert Trim(input) == input;
  }

  // ---------------------------------------------------------------------
  // The list as the page keeps it

  /**
   * The "todos" key, the list the page last rendered and the text in the
   * input box. `renderTodos` loads the list once; the checkbox and delete
   * handlers it creates all work on that loaded list, change it, store it
   * and render again.
   */
  class TodoStore {
    var saved: Stored<seq<Todo>>
    var shown: seq<Todo>
    var draft: string

    /** What `loadTodos` returns now. */
    function List(): seq<Todo>
      reads this
    {
      LoadTodos(saved)
    }

    /** The page shows what a reload would show. */
    ghost predicate Valid()
      reads this
    {
      shown == List()
    }

    /** The script's start-up: an empty input box and a first `renderTodos`. */
    constructor (saved: Stored<seq<Todo>>)
      ensures this.saved == saved && draft == []
      ensures Valid()
    {
      this.saved := saved;
      draft := [];
      shown := LoadTodos(saved);
    }

    /** `renderTodos`: load the stored list and show it. */
    method Render()
      modifies this
      ensures saved == old(saved) && draft == old(draft)
      ensures shown == List()
    {
      shown := LoadTodos(saved);
    }

    /**
     * The form's submit handler: blank input returns before anything is
     * loaded, stored or cleared; otherwise the trimmed text is appended to
     * the stored list as an open item and the box is emptied.
     */
    method Submit()
      modifies this
      ensures AllSpace(old(draft)) ==> saved == old(saved) && draft == old(draft) && shown == old(shown)
      ensures !AllSpace(old(draft)) ==> saved == Parsed(Added(old(List()), old(draft))) && draft == []
      ensures List() == Added(old(List()), old(draft))
      ensures old(Valid()) || !AllSpace(old(draft)) ==> Valid()
    {
      var text := Trim(draft);
      TrimEmptyIffBlank(draft);
      if text == [] {
        return;
      }
      var todos := LoadTodos(saved);
      todos := todos + [Todo(text, false)];
      saved := Parsed(todos);
      draft := [];
      Render();
    }

    /**
     * The checkbox of item `idx` set to `done`: the flag goes into the
     * rendered list, which is stored and rendered again. An index past the
     * end makes `todos[idx].done` throw before anything is stored.
     */
    method SetDone(idx: nat, done: bool)
      modifies this
      ensures idx < |old(shown)| ==> saved == Parsed(WithDone(old(shown), idx, done)) && Valid()
      ensures idx >= |old(shown)| ==> saved == old(saved) && shown == old(shown)
      ensures draft == old(draft)
    {
      if idx >= |shown| {
        return;
      }
      var todos := shown;
      todos := todos[idx := Todo(todos[idx].text, done)];
      saved := Parsed(todos);
      Render();
    }

    /** The delete button of item `idx`: splice it out of the rendered list, store the rest and render again. */
    method Delete(idx: nat)
      modifies this
      ensures saved == Parsed(Spliced(old(shown), idx)) && Valid()
      ensures idx < |old(shown)| ==> |List()| == |old(shown)| - 1
      ensures draft == old(draft)
    {
      var todos := shown;
      if idx < |todos| {
        todos := todos[..idx] + todos[idx + 1..];
      }
      saved := Parsed(todos);
      Render();
    }
  }
}
