/** Analysis units: the selected paths of a service scope, their canonical order
    and the committed state derived from them. */
module AnalysisUnit {
  import opened Permutations
  import opened Wrappers

  const MAX_PATHS := 128
  const MAX_PATH_BYTES := 65536
  const MAX_PATH := 4096

  // ---- repository-relative paths

  /** A path stays below the repository root, names no option and has one
      spelling: none of its components is empty or a dot name. */
  predicate ValidPath(p: string) {
    && p != "" && |p| <= MAX_PATH && p != "." && p[0] != '-' && p[0] != '/'
    && (forall i | 0 <= i < |p| :: p[i] != '\\' && p[i] >= ' ' && p[i] != '\U{7f}')
    && (forall i, j | 0 <= i <= j <= |p| && Component(p, i, j) :: p[i..j] != "" && p[i..j] != "." && p[i..j] != "..")
  }

  /** The text between two neighbouring separators or ends. */
  predicate Component(p: string, i: nat, j: nat)
    requires i <= j <= |p|
  {
    (i == 0 || p[i - 1] == '/') && (j == |p| || p[j] == '/') && forall k | i <= k < j :: p[k] != '/'
  }

  /** A proper segment ancestor. */
  predicate Under(child: string, parent: string) {
    |parent| < |child| && child[|parent|] == '/' && child[..|parent|] == parent
  }

  /** The separator that ends a clean path's directory, or -1. */
  function LastSlash(p: string): (i: int)
    ensures -1 <= i < |p| && (i >= 0 ==> p[i] == '/') && forall k | i < k < |p| :: p[k] != '/'
  {
    if p == "" then -1 else if p[|p| - 1] == '/' then |p| - 1 else LastSlash(p[..|p| - 1])
  }

  function Dir(p: string): string {
    var i := LastSlash(p);
    if i < 0 then "." else if i == 0 then "/" else p[..i]
  }

  /** Walks up from a valid path; a rooted one would never end. */
  method HasSelectedAncestor(current: string, seen: set<string>) returns (found: bool)
    requires ValidPath(current)
    ensures found <==> exists a | a in seen :: Under(current, a)
  {
    var parent := Dir(current);
    NotDot(current, LastSlash(current));
    ghost var at := LastSlash(current);
    while parent != "."
      invariant -1 <= at < |current| && (at >= 0 ==> at > 0 && current[at] == '/' && parent == current[..at])
      invariant at < 0 <==> parent == "."
      invariant forall k | at < k < |current| && current[k] == '/' :: current[..k] !in seen
      decreases |parent|, parent != "."
    {
      if parent in seen {
        assert Under(current, parent);
        return true;
      }
      NotDot(current, LastSlash(parent));
      assert forall k | LastSlash(parent) < k < at :: current[k] == parent[k];
      at := LastSlash(parent);
      parent := Dir(parent);
    }
    forall a | a in seen ensures !Under(current, a) {
      if |a| < |current| && current[|a|] == '/' { assert current[..|a|] !in seen; }
    }
    found := false;
  }

  lemma NotDot(current: string, at: int)
    requires ValidPath(current) && -1 <= at < |current| && (at >= 0 ==> current[at] == '/')
    ensures at != 0 && (at > 0 ==> current[..at] != ".")
  {
    if at == 1 {
      assert Component(current, 0, 1) && current[..1] == current[0..1];
    }
  }

  // ---- the order of paths

  /** Byte-wise lexicographic order. */
  predicate Le(a: string, b: string) {
    a == "" || (b != "" && (a[0] < b[0] || (a[0] == b[0] && Le(a[1..], b[1..]))))
  }

  lemma {:induction false} LeIsTotal(a: string, b: string)
    ensures Le(a, b) || Le(b, a)
    ensures Le(a, b) && Le(b, a) ==> a == b
  {
    if a != "" && b != "" && a[0] == b[0] {
      LeIsTotal(a[1..], b[1..]);
      assert a == [a[0]] + a[1..] && b == [b[0]] + b[1..];
    }
  }

  lemma {:induction false} LeIsTransitive(a: string, b: string, c: string)
    requires Le(a, b) && Le(b, c)
    ensures Le(a, c)
  {
    if a != "" && a[0] == b[0] == c[0] { LeIsTransitive(a[1..], b[1..], c[1..]); }
  }

  predicate Sorted(s: seq<string>) {
    forall i, j | 0 <= i < j < |s| :: Le(s[i], s[j])
  }

  function Insert(x: string, s: seq<string>): (r: seq<string>)
    ensures multiset(r) == multiset{x} + multiset(s)
  {
    if s == [] || Le(x, s[0]) then [x] + s
    else
      assert s == [s[0]] + s[1..];
      [s[0]] + Insert(x, s[1..])
  }

  function Sort(s: seq<string>): (r: seq<string>)
    ensures multiset(r) == multiset(s) && |r| == |s|
  {
    if s == [] then []
    else
      assert s == [s[0]] + s[1..];
      var r := Insert(s[0], Sort(s[1..]));
      assert |multiset(r)| == |r|;
      r
  }

  lemma {:induction false} InsertSorts(x: string, s: seq<string>)
    requires Sorted(s)
    ensures Sorted(Insert(x, s))
  {
    if s == [] {
    } else if Le(x, s[0]) {
      forall j | 0 <= j < |s| ensures Le(x, s[j]) {
        if j > 0 { LeIsTransitive(x, s[0], s[j]); }
      }
    } else {
      LeIsTotal(x, s[0]);
      InsertSorts(x, s[1..]);
      var rest := Insert(x, s[1..]);
      forall j | 0 <= j < |rest| ensures Le(s[0], rest[j]) {
        assert rest[j] in multiset(rest);
        if rest[j] != x {
          assert rest[j] in s[1..];
        }
      }
    }
  }

  lemma {:induction false} SortSorts(s: seq<string>)
    ensures Sorted(Sort(s))
  {
    if s != [] {
      SortSorts(s[1..]);
      InsertSorts(s[0], Sort(s[1..]));
    }
  }

  lemma HeadIsLeast(s: seq<string>, x: string)
    requires Sorted(s) && x in s
    ensures Le(s[0], x)
  {
    LeIsTotal(x, x);
    var i :| 0 <= i < |s| && s[i] == x;
    if i > 0 { assert Le(s[0], s[i]); }
  }

  lemma WithoutHead(s: seq<string>)
    requires s != []
    ensures multiset(s[1..]) == multiset(s) - multiset{s[0]}
  {
    assert s == [s[0]] + s[1..];
  }

  /** One order per multiset. */
  lemma {:induction false} SortedOnce(a: seq<string>, b: seq<string>)
    requires Sorted(a) && Sorted(b) && multiset(a) == multiset(b)
    ensures a == b
  {
    assert |multiset(a)| == |a| && |multiset(b)| == |b|;
    if a != [] {
      assert a[0] in multiset(a) && b[0] in multiset(b);
      HeadIsLeast(a, b[0]);
      HeadIsLeast(b, a[0]);
      LeIsTotal(a[0], b[0]);
      WithoutHead(a);
      WithoutHead(b);
      SortedOnce(a[1..], b[1..]);
      assert a == [a[0]] + a[1..] && b == [b[0]] + b[1..];
    }
  }

  lemma SortOrder(a: seq<string>, b: seq<string>)
    requires multiset(a) == multiset(b)
    ensures Sort(a) == Sort(b)
  {
    SortSorts(a);
    SortSorts(b);
    SortedOnce(Sort(a), Sort(b));
  }

  // ---- scopes

  /** A name and whether its own validation accepts it. */
  datatype Name = Name(id: nat, valid: bool)
  datatype TypedIndex = TypedIndex(scip: bool, path: string)
  datatype Scope = Scope(repository: Name, name: Name, primary: seq<string>, supporting: seq<string>, typed: Option<TypedIndex>)

  /** What the canonical bytes encode, and their digest determines. */
  datatype Identity = Identity(repository: Name, name: Name, primary: seq<string>, supporting: seq<string>)

  function TotalBytes(paths: seq<string>): nat {
    if paths == [] then 0 else |paths[0]| + TotalBytes(paths[1..])
  }

  ghost predicate Distinct(paths: seq<string>) {
    forall i, j | 0 <= i < j < |paths| :: paths[i] != paths[j]
  }

  predicate TypedFits(typed: Option<TypedIndex>, supporting: seq<string>) {
    typed.Some? ==> typed.value.scip && ValidPath(typed.value.path) && typed.value.path in supporting
  }

  /** What a selection of paths must be, whatever its order. */
  ghost predicate Selectable(paths: seq<string>) {
    && (forall p | p in paths :: ValidPath(p)) && |paths| <= MAX_PATHS && TotalBytes(paths) <= MAX_PATH_BYTES
    && Distinct(paths) && (forall a, b | a in paths && b in paths :: !Under(a, b))
  }

  ghost predicate Acceptable(s: Scope) {
    && s.repository.valid && s.name.valid && s.primary != [] && Selectable(s.primary + s.supporting)
    && TypedFits(s.typed, s.supporting)
  }

  function IdentityOf(s: Scope): Identity {
    Identity(s.repository, s.name, Sort(s.primary), Sort(s.supporting))
  }

  lemma TotalBytesSplit(a: seq<string>, p: string, b: seq<string>)
    ensures TotalBytes(a + [p] + b) == |p| + TotalBytes(a + b)
  {
    if a == [] {
      assert a + [p] + b == [p] + b && a + b == b;
    } else {
      TotalBytesSplit(a[1..], p, b);
      assert (a + [p] + b)[1..] == a[1..] + [p] + b && (a + b)[1..] == a[1..] + b;
    }
  }

  lemma {:induction false} TotalBytesOrder(a: seq<string>, b: seq<string>)
    requires multiset(a) == multiset(b)
    ensures TotalBytes(a) == TotalBytes(b)
  {
    if a == [] {
      assert |multiset(b)| == 0;
    } else {
      var before, after := Locate(a, b);
      TotalBytesOrder(a[1..], before + after);
      TotalBytesSplit(before, a[0], after);
    }
  }

  lemma {:induction false} DistinctOrder(a: seq<string>, b: seq<string>)
    requires multiset(a) == multiset(b) && Distinct(a)
    ensures Distinct(b)
  {
    if a == [] {
      assert |multiset(b)| == 0;
    } else {
      var before, after := Locate(a, b);
      forall i, j | 0 <= i < j < |a[1..]| ensures a[1..][i] != a[1..][j] {}
      DistinctOrder(a[1..], before + after);
      DistinctInsert(before, a[0], after) by {
        assert a[0] !in a[1..];
        assert forall x :: x in before + after <==> x in multiset(before + after);
        assert forall x :: x in a[1..] <==> x in multiset(a[1..]);
      }
    }
  }

  lemma DistinctInsert(a: seq<string>, p: string, b: seq<string>)
    requires Distinct(a + b) && p !in a + b
    ensures Distinct(a + [p] + b)
  {
    var whole, without := a + [p] + b, a + b;
    forall i, j | 0 <= i < j < |whole| ensures whole[i] != whole[j] {
      if i != |a| && j != |a| {
        assert whole[i] == without[if i < |a| then i else i - 1] && whole[j] == without[if j < |a| then j else j - 1];
      } else {
        var k := if i == |a| then j else i;
        assert whole[k] == without[if k < |a| then k else k - 1];
      }
    }
  }

  lemma SelectableOrder(a: seq<string>, b: seq<string>)
    requires multiset(a) == multiset(b) && Selectable(a)
    ensures Selectable(b)
  {
    TotalBytesOrder(a, b);
    DistinctOrder(a, b);
    assert |multiset(a)| == |a| && |multiset(b)| == |b|;
    forall p | p in b ensures p in a { assert p in multiset(b) && p in multiset(a); }
  }

  /** Reordering either list changes neither acceptance nor identity. */
  lemma OrderIsIrrelevant(s: Scope, t: Scope)
    requires multiset(s.primary) == multiset(t.primary) && multiset(s.supporting) == multiset(t.supporting)
    requires t == s.(primary := t.primary, supporting := t.supporting)
    ensures Acceptable(s) <==> Acceptable(t)
    ensures IdentityOf(s) == IdentityOf(t)
  {
    SortOrder(s.primary, t.primary);
    SortOrder(s.supporting, t.supporting);
    OrderKeeps(s, t);
    OrderKeeps(t, s);
  }

  lemma OrderKeeps(s: Scope, t: Scope)
    requires multiset(s.primary) == multiset(t.primary) && multiset(s.supporting) == multiset(t.supporting)
    requires t == s.(primary := t.primary, supporting := t.supporting)
    ensures Acceptable(s) ==> Acceptable(t)
  {
    if Acceptable(s) {
      assert multiset(s.primary + s.supporting) == multiset(t.primary + t.supporting);
      SelectableOrder(s.primary + s.supporting, t.primary + t.supporting);
      assert s.primary[0] in multiset(t.primary);
      assert forall p :: p in s.supporting ==> p in multiset(t.supporting);
    }
  }

  /** Sorts one list and checks its paths. */
  method CanonicalPaths(input: seq<string>, required: bool) returns (paths: Option<seq<string>>)
    ensures paths.Some? <==> (required ==> input != []) && forall p | p in input :: ValidPath(p)
    ensures paths.Some? ==> paths.value == Sort(input)
  {
    if required && |input| == 0 { return None; }
    var result := Sort(input);
    forall p ensures p in input <==> p in result { assert p in input <==> p in multiset(result); }
    for i := 0 to |result|
      invariant forall k | 0 <= k < i :: ValidPath(result[k])
    {
      if !ValidPath(result[i]) { return None; }
    }
    paths := Some(result);
  }

  /** One pass that counts bytes and finds a duplicate. */
  method CollectPaths(all: seq<string>) returns (bytes: nat, seen: set<string>, distinct: bool)
    ensures distinct <==> Distinct(all)
    ensures distinct ==> bytes == TotalBytes(all) && (forall p :: p in seen <==> p in all)
  {
    bytes, seen := 0, {};
    for i := 0 to |all|
      invariant bytes + TotalBytes(all[i..]) == TotalBytes(all)
      invariant forall p :: p in seen <==> exists k :: 0 <= k < i && all[k] == p
      invariant Distinct(all[..i])
    {
      bytes := bytes + |all[i]|;
      assert all[i..][0] == all[i] && all[i..][1..] == all[i + 1..];
      if all[i] in seen { return bytes, seen, false; }
      seen := seen + {all[i]};
    }
    assert all[..|all|] == all;
    distinct := true;
  }

  /** Decides the pairwise condition by walking up each path. */
  method Select(all: seq<string>) returns (ok: bool)
    requires forall p | p in all :: ValidPath(p)
    ensures ok <==> Selectable(all)
  {
    if |all| > MAX_PATHS { return false; }
    var bytes, seen, distinct := CollectPaths(all);
    if !distinct || bytes > MAX_PATH_BYTES { return false; }
    for i := 0 to |all|
      invariant forall k, a | 0 <= k < i && a in all :: !Under(all[k], a)
    {
      var overlap := HasSelectedAncestor(all[i], seen);
      if overlap { return false; }
    }
    ok := true;
  }

  lemma AcceptableSorted(s: Scope)
    ensures var t := s.(primary := Sort(s.primary), supporting := Sort(s.supporting));
      && (Acceptable(s) <==> Acceptable(t)) && (t.primary == [] <==> s.primary == [])
      && (Acceptable(t) ==> forall p | p in s.primary || p in s.supporting :: ValidPath(p))
      && forall p :: p in t.primary + t.supporting <==> p in s.primary || p in s.supporting
  {
    var t := s.(primary := Sort(s.primary), supporting := Sort(s.supporting));
    OrderIsIrrelevant(s, t);
    forall p ensures p in t.primary + t.supporting <==> p in s.primary || p in s.supporting {
      assert p in s.primary <==> p in multiset(t.primary);
      assert p in s.supporting <==> p in multiset(t.supporting);
    }
  }

  /** Accepts exactly the acceptable scopes. */
  method Canonical(s: Scope) returns (identity: Option<Identity>)
    ensures identity.Some? <==> Acceptable(s)
    ensures identity.Some? ==> identity.value == IdentityOf(s)
  {
    AcceptableSorted(s);
    if !s.repository.valid || !s.name.valid { return None; }
    var primary := CanonicalPaths(s.primary, true);
    if primary.None? { return None; }
    var supporting := CanonicalPaths(s.supporting, false);
    if supporting.None? { return None; }
    var selected := Select(primary.value + supporting.value);
    if !selected || !TypedFits(s.typed, supporting.value) { return None; }
    identity := Some(Identity(s.repository, s.name, primary.value, supporting.value));
  }

  // ---- committed states

  datatype SearchPosture = Focused | WholeRepository | OtherSearch
  datatype TypedPosture = Unbound | Bound | OtherTyped

  datatype State = State(
    current: bool, name: Name, digest: Identity, primary: seq<string>, supporting: seq<string>,
    primaryCount: int, supportingCount: int, search: SearchPosture, typedPosture: TypedPosture, typed: Option<TypedIndex>)

  function StateOf(s: Scope): State {
    State(true, s.name, IdentityOf(s), Sort(s.primary), Sort(s.supporting), |s.primary|, |s.supporting|, Focused,
          if s.typed.None? then Unbound else Bound, s.typed)
  }

  /** A row from before typed inputs were designated. */
  function Legacy(s: State): State {
    s.(search := WholeRepository)
  }

  function ScopeOf(repository: Name, s: State): Scope {
    Scope(repository, s.name, s.primary, s.supporting, s.typed)
  }

  method MakeState(s: Scope) returns (state: Option<State>)
    ensures state.Some? <==> Acceptable(s)
    ensures state.Some? ==> state.value == StateOf(s)
  {
    var identity := Canonical(s);
    if identity.None? { return None; }
    state := Some(State(true, s.name, identity.value, Sort(s.primary), Sort(s.supporting), |s.primary|, |s.supporting|, Focused,
                        if s.typed.None? then Unbound else Bound, s.typed));
  }

  /** Rebuilds the state from its own lists and compares; no state is valid. */
  method Validate(repository: Name, given: Option<State>) returns (ok: bool)
    ensures ok <==> given.None? || Committed(repository, given.value)
  {
    if given.None? { return true; }
    var state := given.value;
    var scope := ScopeOf(repository, state);
    var made := MakeState(scope);
    ValidIsCommitted(repository, state);
    if made.None? { return false; }
    var expected := made.value;
    var legacy := state.search == WholeRepository && state.typedPosture == Unbound && state.typed.None?;
    ok := state.current == expected.current && state.digest == expected.digest &&
          state.primaryCount == expected.primaryCount && state.supportingCount == expected.supportingCount &&
          (state.search == expected.search || legacy) && state.typedPosture == expected.typedPosture &&
          state.typed == expected.typed && state.primary == expected.primary && state.supporting == expected.supporting;
  }

  /** A state some acceptable scope of the repository commits, or its legacy
      variant when no typed input is designated. */
  ghost predicate Committed(repository: Name, state: State) {
    exists s: Scope :: s.repository == repository && Acceptable(s) && Commits(s, state)
  }

  predicate Commits(s: Scope, state: State) {
    state == StateOf(s) || (s.typed.None? && state == Legacy(StateOf(s)))
  }

  lemma ValidIsCommitted(repository: Name, state: State)
    ensures Committed(repository, state) <==>
      Acceptable(ScopeOf(repository, state)) && Commits(ScopeOf(repository, state), state)
  {
    if Committed(repository, state) {
      var s: Scope :| s.repository == repository && Acceptable(s) && Commits(s, state);
      AcceptableSorted(s);
      SortOrder(Sort(s.primary), s.primary);
      SortOrder(Sort(s.supporting), s.supporting);
      assert ScopeOf(repository, state) == s.(primary := Sort(s.primary), supporting := Sort(s.supporting));
    }
  }
}
