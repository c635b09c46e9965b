/**
 * The application's route table: a constant tree whose leaves are URL paths
 * and whose inner nodes are groups of named entries, and `getRoute`, which
 * walks the tree one key per segment of a dotted path.
 */
module Routes {
  import opened Wrappers
  import opened Strings

  /** A node of the route table: a URL path, or a group of named sub-entries. */
  datatype Route = Leaf(path: string) | Group(entries: seq<(string, Route)>)

  /** The route table. */
  const ROUTES: Route := Group([
    ("HOME", Leaf("/")),
    ("AUTH", Group([("SIGN_IN", Leaf("/auth/sign-in")), ("SIGN_UP", Leaf("/auth/sign-up"))])),
    ("DASHBOARD", Group([
      ("ROOT", Leaf("/dashboard")), ("TASKS", Leaf("/tasks")), ("APPS", Leaf("/apps")),
      ("CHATS", Leaf("/chats")), ("USERS", Leaf("/users"))])),
    ("CLERK", Group([
      ("SIGN_IN", Leaf("/clerk/sign-in")), ("SIGN_UP", Leaf("/clerk/sign-up")),
      ("USER_MANAGEMENT", Leaf("/clerk/user-management"))])),
    ("CALCULATOR", Leaf("/calculator"))
  ])

  /** The entry stored under `key` in a group's entry list, if any. */
  function Find(entries: seq<(string, Route)>, key: string): Option<Route>
    decreases |entries|
  {
    if |entries| == 0 then None
    else if entries[0].0 == key then Some(entries[0].1)
    else Find(entries[1..], key)
  }

  /** A key is found exactly when some entry carries it, and what is found is that entry's node. */
  lemma {:induction false} FindEntry(entries: seq<(string, Route)>, key: string)
    ensures Find(entries, key).Some? <==> exists i :: 0 <= i < |entries| && entries[i].0 == key
    ensures Find(entries, key).Some? ==>
      exists i :: 0 <= i < |entries| && entries[i] == (key, Find(entries, key).value)
    decreases |entries|
  {
    if |entries| > 0 && entries[0].0 != key {
      FindEntry(entries[1..], key);
      assert forall i :: 1 <= i < |entries| ==> entries[i] == entries[1..][i - 1];
      if exists i :: 0 <= i < |entries| && entries[i].0 == key {
        var i :| 0 <= i < |entries| && entries[i].0 == key;
        assert i >= 1 && entries[1..][i - 1].0 == key;
      }
    }
  }

  /** The entry found is the first one with the key. */
  lemma {:induction false} FindFirst(entries: seq<(string, Route)>, i: nat, key: string)
    requires i < |entries| && entries[i].0 == key
    requires forall j :: 0 <= j < i ==> entries[j].0 != key
    ensures Find(entries, key) == Some(entries[i].1)
    decreases i
  {
    if i > 0 {
      FindFirst(entries[1..], i - 1, key);
    }
  }

  /** `result[key]`: a group's entry, and nothing below a leaf. */
  function Child(r: Route, key: string): Option<Route> {
    match r
    case Leaf(_) => None
    case Group(entries) => Find(entries, key)
  }

  /** The node reached from `r` by following `keys` in order, if every key is there. */
  function Resolve(r: Route, keys: seq<string>): Option<Route>
    decreases |keys|
  {
    if |keys| == 0 then Some(r)
    else
      match Child(r, keys[0])
      case None => None
      case Some(c) => Resolve(c, keys[1..])
  }

  /** Following one more key is one more step down from where the earlier keys led. */
  lemma {:induction false} ResolveSnoc(r: Route, keys: seq<string>, key: string)
    ensures Resolve(r, keys + [key]) ==
      (match Resolve(r, keys) case None => None case Some(n) => Child(n, key))
    decreases |keys|
  {
    if |keys| > 0 {
      assert (keys + [key])[0] == keys[0] && (keys + [key])[1..] == keys[1..] + [key];
      match Child(r, keys[0])
      case None =>
      case Some(c) => ResolveSnoc(c, keys[1..], key);
    }
  }

  function NotFoundMessage(path: string): string {
    "Route path \"" + path + "\" not found"
  }

  /**
   * `getRoute`: split on ".", descend one key per segment, and fail with the
   * path in the message at the first segment that is not there.
   */
  method GetRoute(path: string) returns (r: Result<Route, string>)
    ensures var found := Resolve(ROUTES, Split(path, '.'));
      && (r.Ok? <==> found.Some?)
      && (r.Ok? ==> r.value == found.value)
      && (r.Err? ==> r.error == NotFoundMessage(path))
  {
    r := GetRouteIn(ROUTES, path);
  }

  /** The loop of `getRoute`, over a given table. */
  method GetRouteIn(table: Route, path: string) returns (r: Result<Route, string>)
    ensures var found := Resolve(table, Split(path, '.'));
      && (r.Ok? <==> found.Some?)
      && (r.Ok? ==> r.value == found.value)
      && (r.Err? ==> r.error == NotFoundMessage(path))
  {
    var keys := Split(path, '.');
    var result := table;
    var i := 0;
    while i < |keys|
      invariant 0 <= i <= |keys|
      invariant Resolve(table, keys[..i]) == Some(result)
    {
      ResolveSnoc(table, keys[..i], keys[i]);
      assert keys[..i + 1] == keys[..i] + [keys[i]];
      var next := Child(result, keys[i]);
      if next.None? {
        MissingStaysMissing(table, keys[..i + 1], keys[i + 1..]);
        assert keys[..i + 1] + keys[i + 1..] == keys;
        return Err(NotFoundMessage(path));
      }
      result := next.value;
      i := i + 1;
    }
    assert keys[..i] == keys;
    r := Ok(result);
  }

  /** Once a key is missing, no further keys can recover the lookup. */
  lemma {:induction false} MissingStaysMissing(r: Route, keys: seq<string>, more: seq<string>)
    requires Resolve(r, keys).None?
    ensures Resolve(r, keys + more).None?
    decreases |keys|
  {
    assert |keys| > 0;
    assert (keys + more)[0] == keys[0] && (keys + more)[1..] == keys[1..] + more;
    match Child(r, keys[0])
    case None =>
    case Some(c) => MissingStaysMissing(c, keys[1..], more);
  }

  /** A failed lookup fails at a first segment: every earlier prefix resolves and that segment's key is absent. */
  lemma {:induction false} FirstMissingSegment(r: Route, keys: seq<string>)
    requires Resolve(r, keys).None?
    ensures exists i :: 0 <= i < |keys| && Resolve(r, keys[..i]).Some?
                    && Child(Resolve(r, keys[..i]).value, keys[i]).None?
    decreases |keys|
  {
    var n := |keys| - 1;
    assert keys == keys[..n] + [keys[n]];
    ResolveSnoc(r, keys[..n], keys[n]);
    if Resolve(r, keys[..n]).Some? {
      assert 0 <= n < |keys| && Child(Resolve(r, keys[..n]).value, keys[n]).None?;
    } else {
      FirstMissingSegment(r, keys[..n]);
      var i :| 0 <= i < n && Resolve(r, keys[..n][..i]).Some?
        && Child(Resolve(r, keys[..n][..i]).value, keys[..n][i]).None?;
      assert keys[..n][..i] == keys[..i] && keys[..n][i] == keys[i];
    }
  }

  /** Nothing lies below a leaf: a segment after one that reached a path is never found. */
  lemma BeyondLeafNotFound(r: Route, keys: seq<string>, key: string)
    requires Resolve(r, keys).Some? && Resolve(r, keys).value.Leaf?
    ensures Resolve(r, keys + [key]).None?
  {
    ResolveSnoc(r, keys, key);
  }

  /** Every key path from `r` to a leaf has at most `depth` keys. */
  predicate WithinDepth(r: Route, depth: nat) {
    match r
    case Leaf(_) => true
    case Group(entries) =>
      depth > 0 && forall i :: 0 <= i < |entries| ==> WithinDepth(entries[i].1, depth - 1)
  }

  /** A lookup that succeeds follows no more keys than the node's depth bound. */
  lemma {:induction false} ResolveWithinDepth(r: Route, depth: nat, keys: seq<string>)
    requires WithinDepth(r, depth) && Resolve(r, keys).Some?
    ensures |keys| <= depth
    decreases |keys|
  {
    if |keys| > 0 {
      var c := Child(r, keys[0]).value;
      FindEntry(r.entries, keys[0]);
      var i :| 0 <= i < |r.entries| && r.entries[i].1 == c;
      ResolveWithinDepth(c, depth - 1, keys[1..]);
    }
  }

  lemma RoutesWithinTwo()
    ensures WithinDepth(ROUTES, 2)
  {
  }

  /** No dotted path of more than two segments names anything in the table. */
  lemma AtMostTwoSegments(path: string)
    requires |Split(path, '.')| > 2
    ensures Resolve(ROUTES, Split(path, '.')).None?
  {
    RoutesWithinTwo();
    if Resolve(ROUTES, Split(path, '.')).Some? {
      ResolveWithinDepth(ROUTES, 2, Split(path, '.'));
    }
  }

  /** Writing a key sequence as a dotted path and looking it up follows exactly those keys. */
  lemma DottedPathFollowsKeys(keys: seq<string>)
    requires |keys| >= 1
    requires forall i :: 0 <= i < |keys| ==> '.' !in keys[i]
    ensures Resolve(ROUTES, Split(Join(keys, "."), '.')) == Resolve(ROUTES, keys)
  {
    SplitJoin(keys, '.');
  }

  /** Resolving a single top-level key. */
  lemma CalculatorKey()
    ensures Resolve(ROUTES, ["CALCULATOR"]) == Some(Leaf("/calculator"))
  {
    assert |"HOME"| == 4 && |"AUTH"| == 4 && |"DASHBOARD"| == 9 && |"CLERK"| == 5 && |"CALCULATOR"| == 10;
    FindFirst(ROUTES.entries, 4, "CALCULATOR");
    assert ["CALCULATOR"][1..] == [];
  }

  lemma AuthSignInKeys()
    ensures Resolve(ROUTES, ["AUTH", "SIGN_IN"]) == Some(Leaf("/auth/sign-in"))
  {
    assert |"HOME"| == 4 && "HOME"[0] != "AUTH"[0];
    FindFirst(ROUTES.entries, 1, "AUTH");
    assert ["AUTH", "SIGN_IN"][1..] == ["SIGN_IN"] && ["SIGN_IN"][1..] == [];
  }

  lemma DashboardRootKeys()
    ensures Resolve(ROUTES, ["DASHBOARD", "ROOT"]) == Some(Leaf("/dashboard"))
  {
    assert |"HOME"| == 4 && |"AUTH"| == 4 && |"DASHBOARD"| == 9;
    FindFirst(ROUTES.entries, 2, "DASHBOARD");
    assert ["DASHBOARD", "ROOT"][1..] == ["ROOT"] && ["ROOT"][1..] == [];
  }

  lemma HomeLookup()
    ensures Resolve(ROUTES, Split("HOME", '.')) == Some(Leaf("/"))
  {
    SplitNoSeparator("HOME", '.');
  }

  lemma CalculatorLookup()
    ensures Resolve(ROUTES, Split("CALCULATOR", '.')) == Some(Leaf("/calculator"))
  {
    SplitNoSeparator("CALCULATOR", '.');
    CalculatorKey();
  }

  lemma AuthSignInLookup()
    ensures Resolve(ROUTES, Split("AUTH.SIGN_IN", '.')) == Some(Leaf("/auth/sign-in"))
  {
    SplitNoSeparator("SIGN_IN", '.');
    SplitPrefix("AUTH", "SIGN_IN", '.');
    assert "AUTH.SIGN_IN" == "AUTH" + ['.'] + "SIGN_IN";
    AuthSignInKeys();
  }

  lemma DashboardRootLookup()
    ensures Resolve(ROUTES, Split("DASHBOARD.ROOT", '.')) == Some(Leaf("/dashboard"))
  {
    SplitNoSeparator("ROOT", '.');
    SplitPrefix("DASHBOARD", "ROOT", '.');
    assert "DASHBOARD.ROOT" == "DASHBOARD" + ['.'] + "ROOT";
    DashboardRootKeys();
  }

  /** The empty path is the single segment "", which is no key, so it is not found. */
  lemma EmptyPathNotFound()
    ensures Resolve(ROUTES, Split("", '.')).None?
  {
  }

  /** A path that stops at a group yields the whole group. */
  lemma GroupPathYieldsSubtree()
    ensures Resolve(ROUTES, Split("AUTH", '.')) ==
      Some(Group([("SIGN_IN", Leaf("/auth/sign-in")), ("SIGN_UP", Leaf("/auth/sign-up"))]))
  {
    SplitNoSeparator("AUTH", '.');
  }

  /** A segment after a path, as in "HOME.0", is not found. */
  lemma SegmentAfterLeafNotFound()
    ensures Resolve(ROUTES, Split("HOME.0", '.')).None?
  {
    SplitPrefix("HOME", "0", '.');
    assert "HOME.0" == "HOME" + ['.'] + "0";
    SplitNoSeparator("0", '.');
    SplitNoSeparator("HOME", '.');
    BeyondLeafNotFound(ROUTES, ["HOME"], "0");
    assert ["HOME"] + ["0"] == ["HOME", "0"];
  }
}
