/**
 * The search store: whether the search dialog is open and the text typed
 * into it. The store object keeps the two fields; each action replaces the
 * fields named in its partial update and keeps the other.
 */
module SearchStore {

  /** A snapshot of the store's fields. */
  datatype SearchState = SearchState(isOpen: bool, query: string)

  const INITIAL := SearchState(false, "")

  /** The state after `setOpen(open)`. */
  function WithOpen(s: SearchState, open: bool): (t: SearchState)
    ensures t.isOpen == open && t.query == s.query
  {
    s.(isOpen := open)
  }

  /** The state after `setQuery(query)`. */
  function WithQuery(s: SearchState, query: string): (t: SearchState)
    ensures t.query == query && t.isOpen == s.isOpen
  {
    s.(query := query)
  }

  /** The state after `reset()`: the initial one, whatever came before. */
  function AfterReset(s: SearchState): (t: SearchState)
    ensures t == INITIAL
  {
    SearchState(false, "")
  }

  /** The store's actions, for reasoning about a sequence of them. */
  datatype SearchAction = SetOpen(open: bool) | SetQuery(query: string) | Reset

  function Step(s: SearchState, a: SearchAction): SearchState {
    match a
    case SetOpen(open) => WithOpen(s, open)
    case SetQuery(query) => WithQuery(s, query)
    case Reset => AfterReset(s)
  }

  function Run(s: SearchState, actions: seq<SearchAction>): SearchState
    decreases |actions|
  {
    if |actions| == 0 then s else Run(Step(s, actions[0]), actions[1..])
  }

  /** The most recent query set since the last reset, or the state's own query when there is none. */
  function LastQuery(s: SearchState, actions: seq<SearchAction>): string
    decreases |actions|
  {
    if |actions| == 0 then s.query
    else
      match actions[|actions| - 1]
      case SetQuery(q) => q
      case Reset => ""
      case SetOpen(_) => LastQuery(s, actions[..|actions| - 1])
  }

  lemma {:induction false} RunSnoc(s: SearchState, actions: seq<SearchAction>, a: SearchAction)
    ensures Run(s, actions + [a]) == Step(Run(s, actions), a)
    decreases |actions|
  {
    if |actions| > 0 {
      assert (actions + [a])[1..] == actions[1..] + [a];
      RunSnoc(Step(s, actions[0]), actions[1..], a);
    }
  }

  /** Opening and closing never touch the query: it is whatever was last typed, cleared by a reset. */
  lemma {:induction false} QueryIsLastSet(s: SearchState, actions: seq<SearchAction>)
    ensures Run(s, actions).query == LastQuery(s, actions)
    decreases |actions|
  {
    if |actions| > 0 {
      var init := actions[..|actions| - 1];
      assert actions == init + [actions[|actions| - 1]];
      RunSnoc(s, init, actions[|actions| - 1]);
      QueryIsLastSet(s, init);
    }
  }

  /** Resetting twice is resetting once, and a reset forgets everything before it. */
  lemma ResetIdempotent(s: SearchState, before: seq<SearchAction>)
    ensures AfterReset(AfterReset(s)) == AfterReset(s)
    ensures Run(s, before + [Reset]) == INITIAL
  {
    RunSnoc(s, before, Reset);
  }

  /** The two setters touch different fields, so their order does not matter. */
  lemma SettersCommute(s: SearchState, open: bool, query: string)
    ensures WithQuery(WithOpen(s, open), query) == WithOpen(WithQuery(s, query), open)
  {
  }

  /** `useSearchStore`: the live store, updated in place by its actions. */
  class Store {
    var isOpen: bool
    var query: string

    function State(): SearchState
      reads this
    {
      SearchState(isOpen, query)
    }

    constructor ()
      ensures State() == INITIAL
    {
      isOpen := false;
      query := "";
    }

    method SetOpen(open: bool)
      modifies this
      ensures State() == WithOpen(old(State()), open)
    {
      isOpen := open;
    }

    method SetQuery(query: string)
      modifies this
      ensures State() == WithQuery(old(State()), query)
    {
      this.query := query;
    }

    method Reset()
      modifies this
      ensures State() == AfterReset(old(State()))
    {
      isOpen := false;
      query := "";
    }
  }
}
