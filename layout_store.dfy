/**
 * The layout store: how the sidebar collapses and which variant it is drawn
 * as. Each setter copies the current state and overwrites one field.
 */
module LayoutStore {
  import opened Wrappers

  /** The three collapse modes; `NoCollapse` is the mode named "none". */
  datatype Collapsible = Icon | Offcanvas | NoCollapse
  datatype Variant = Sidebar | Floating | Inset

  function CollapsibleName(c: Collapsible): string {
    match c
    case Icon => "icon"
    case Offcanvas => "offcanvas"
    case NoCollapse => "none"
  }

  function VariantName(v: Variant): string {
    match v
    case Sidebar => "sidebar"
    case Floating => "floating"
    case Inset => "inset"
  }

  /** The string a setter is typed to accept, read as a mode; any other string is outside the type. */
  function ParseCollapsible(name: string): (c: Option<Collapsible>)
    ensures c.Some? ==> CollapsibleName(c.value) == name
    ensures c.None? ==> name !in {"icon", "offcanvas", "none"}
  {
    if name == "icon" then Some(Icon)
    else if name == "offcanvas" then Some(Offcanvas)
    else if name == "none" then Some(NoCollapse)
    else None
  }

  function ParseVariant(name: string): (v: Option<Variant>)
    ensures v.Some? ==> VariantName(v.value) == name
    ensures v.None? ==> name !in {"sidebar", "floating", "inset"}
  {
    if name == "sidebar" then Some(Sidebar)
    else if name == "floating" then Some(Floating)
    else if name == "inset" then Some(Inset)
    else None
  }

  /** Every mode's name reads back as the mode, so the names are distinct. */
  lemma NamesRoundTrip(c: Collapsible, v: Variant)
    ensures ParseCollapsible(CollapsibleName(c)) == Some(c)
    ensures ParseVariant(VariantName(v)) == Some(v)
  {
    assert "icon" != "offcanvas" && "icon" != "none" && "offcanvas" != "none" by {
      assert |"icon"| != |"offcanvas"| && "icon"[0] != "none"[0] && |"offcanvas"| != |"none"|;
    }
    assert "sidebar" != "floating" && "sidebar" != "inset" && "floating" != "inset" by {
      assert "sidebar"[0] != "floating"[0] && "sidebar"[0] != "inset"[0] && "floating"[0] != "inset"[0];
    }
  }

  /** A snapshot of the store's fields. */
  datatype LayoutState = LayoutState(collapsible: Collapsible, variant: Variant)

  const INITIAL := LayoutState(Icon, Floating)

  /** The state after `setCollapsible(c)`: the old state with that one field replaced. */
  function WithCollapsible(s: LayoutState, c: Collapsible): (t: LayoutState)
    ensures t.collapsible == c && t.variant == s.variant
  {
    s.(collapsible := c)
  }

  /** The state after `setVariant(v)`. */
  function WithVariant(s: LayoutState, v: Variant): (t: LayoutState)
    ensures t.variant == v && t.collapsible == s.collapsible
  {
    s.(variant := v)
  }

  /** The two setters commute, and each is decided by its last call. */
  lemma SettersCommute(s: LayoutState, c1: Collapsible, c2: Collapsible, v: Variant)
    ensures WithVariant(WithCollapsible(s, c1), v) == WithCollapsible(WithVariant(s, v), c1)
    ensures WithCollapsible(WithCollapsible(s, c1), c2) == WithCollapsible(s, c2)
  {
  }

  datatype LayoutAction = SetCollapsible(c: Collapsible) | SetVariant(v: Variant)

  function Step(s: LayoutState, a: LayoutAction): LayoutState {
    match a
    case SetCollapsible(c) => WithCollapsible(s, c)
    case SetVariant(v) => WithVariant(s, v)
  }

  function Run(s: LayoutState, actions: seq<LayoutAction>): LayoutState
    decreases |actions|
  {
    if |actions| == 0 then s else Run(Step(s, actions[0]), actions[1..])
  }

  /** The actions of one kind, in order. */
  function CollapsibleCalls(actions: seq<LayoutAction>): seq<Collapsible>
    decreases |actions|
  {
    if |actions| == 0 then []
    else (if actions[0].SetCollapsible? then [actions[0].c] else []) + CollapsibleCalls(actions[1..])
  }

  function VariantCalls(actions: seq<LayoutAction>): seq<Variant>
    decreases |actions|
  {
    if |actions| == 0 then []
    else (if actions[0].SetVariant? then [actions[0].v] else []) + VariantCalls(actions[1..])
  }

  /**
   * The fields evolve independently: after any actions, each field is its
   * last setting, or what it was when it was never set.
   */
  lemma {:induction false} FieldsAreLastSet(s: LayoutState, actions: seq<LayoutAction>)
    ensures var cs := CollapsibleCalls(actions);
      Run(s, actions).collapsible == (if |cs| == 0 then s.collapsible else cs[|cs| - 1])
    ensures var vs := VariantCalls(actions);
      Run(s, actions).variant == (if |vs| == 0 then s.variant else vs[|vs| - 1])
    decreases |actions|
  {
    if |actions| > 0 {
      FieldsAreLastSet(Step(s, actions[0]), actions[1..]);
    }
  }

  /** `useLayoutStore`: the live store, updated in place by its setters. */
  class Store {
    var collapsible: Collapsible
    var variant: Variant

    function State(): LayoutState
      reads this
    {
      LayoutState(collapsible, variant)
    }

    constructor ()
      ensures State() == INITIAL
    {
      collapsible := Icon;
      variant := Floating;
    }

    method SetCollapsible(c: Collapsible)
      modifies this
      ensures State() == WithCollapsible(old(State()), c)
    {
      var next := State().(collapsible := c);
      collapsible, variant := next.collapsible, next.variant;
    }

    method SetVariant(v: Variant)
      modifies this
      ensures State() == WithVariant(old(State()), v)
    {
      var next := State().(variant := v);
      collapsible, variant := next.collapsible, next.variant;
    }
  }
}
