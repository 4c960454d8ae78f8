/**
 Choosing a worker's tools (worker_tool_scope.go). A selection is checked against, and cut from, the
 caller's own surface, so along a chain of delegations it can only shrink; and restoring a worker
 from its recorded selection rebuilds the surface its chain of delegations gave it.
 */
module ToolScope {
  import opened Common
  import opened Order
  import opened Sorting

  /** A worker tool by the name its metadata gives, "" when it has none. */
  type ToolName = string

  /** selectable is nil when selection is off; chosen is nil when the surface was inherited. */
  datatype Config = Config(tools: seq<ToolName>, selectable: Option<seq<string>>, chosen: Option<seq<string>>)

  /** The pointer to a slice that tool_names is: absent, a null slice, or an array. */
  datatype Names = Inherit | Null | These(names: seq<string>)

  datatype Problem =
    | NotEnabled
    | NullNames
    | NoMetadata
    | Ambiguous(name: string)
    | Repeated(name: string)
    | Unavailable(name: string)
    | AlreadyMounted(name: string)

  datatype Selected = Ok(config: Config) | Refused(problem: Problem)

  /** The first tool without metadata or with a name already seen. */
  function MetadataProblem(tools: seq<ToolName>, n: nat): Option<Problem>
    requires n <= |tools|
    decreases |tools| - n
  {
    if n == |tools| then None
    else if tools[n] == "" then Some(NoMetadata)
    else if tools[n] in tools[..n] then Some(Ambiguous(tools[n]))
    else MetadataProblem(tools, n + 1)
  }

  /** The first entry of the sorted request that cannot be granted. */
  function RequestProblem(sorted: seq<string>, tools: seq<ToolName>, selectable: seq<string>, n: nat): Option<Problem>
    requires n <= |sorted|
    decreases |sorted| - n
  {
    if n == |sorted| then None
    else if n > 0 && sorted[n - 1] == sorted[n] then Some(Repeated(sorted[n]))
    else if sorted[n] !in tools then Some(Unavailable(sorted[n]))
    else if sorted[n] !in selectable then Some(AlreadyMounted(sorted[n]))
    else RequestProblem(sorted, tools, selectable, n + 1)
  }

  /** Tools outside the catalog stay; of the catalog only the selected ones do. */
  function Cut(tools: seq<ToolName>, selectable: seq<string>, selected: seq<string>): seq<ToolName> {
    if tools == [] then []
    else
      var rest := Cut(tools[1..], selectable, selected);
      if tools[0] !in selectable || tools[0] in selected then [tools[0]] + rest else rest
  }

  function Select(c: Config, names: Names): Selected {
    if names.Inherit? then Ok(c)
    else if c.selectable.None? then Refused(NotEnabled)
    else if names.Null? then Refused(NullNames)
    else
      var metadata := MetadataProblem(c.tools, 0);
      var sorted := Sort(names.names);
      var problem := if metadata.Some? then metadata else RequestProblem(sorted, c.tools, c.selectable.value, 0);
      if problem.Some? then Refused(problem.value)
      else Ok(c.(tools := Cut(c.tools, c.selectable.value, sorted), chosen := Some(sorted)))
  }

  method NamedWorkerTools(tools: seq<ToolName>) returns (problem: Option<Problem>)
    ensures problem == MetadataProblem(tools, 0)
  {
    var seen: set<string> := {};
    for n := 0 to |tools|
      invariant seen == set t | t in tools[..n]
      invariant MetadataProblem(tools, 0) == MetadataProblem(tools, n)
    {
      if tools[n] == "" { return Some(NoMetadata); }
      if tools[n] in seen { return Some(Ambiguous(tools[n])); }
      seen := seen + {tools[n]};
      assert tools[..n + 1] == tools[..n] + [tools[n]];
    }
    return None;
  }

  method WithWorkerToolSelection(c: Config, names: Names) returns (r: Selected)
    ensures r == Select(c, names)
  {
    if names.Inherit? { return Ok(c); }
    if c.selectable.None? { return Refused(NotEnabled); }
    if names.Null? { return Refused(NullNames); }
    var problem := NamedWorkerTools(c.tools);
    if problem.Some? { return Refused(problem.value); }
    var selected := Sort(names.names);
    var selectable := c.selectable.value;
    for n := 0 to |selected|
      invariant RequestProblem(selected, c.tools, selectable, 0) == RequestProblem(selected, c.tools, selectable, n)
    {
      if n > 0 && selected[n - 1] == selected[n] { return Refused(Repeated(selected[n])); }
      if selected[n] !in c.tools { return Refused(Unavailable(selected[n])); }
      if selected[n] !in selectable { return Refused(AlreadyMounted(selected[n])); }
    }
    var filtered := CutTools(c.tools, selectable, selected);
    return Ok(c.(tools := filtered, chosen := Some(selected)));
  }

  method CutTools(tools: seq<ToolName>, selectable: seq<string>, selected: seq<string>) returns (filtered: seq<ToolName>)
    ensures filtered == Cut(tools, selectable, selected)
  {
    filtered := [];
    for n := 0 to |tools|
      invariant filtered + Cut(tools[n..], selectable, selected) == Cut(tools, selectable, selected)
    {
      assert tools[n..][1..] == tools[n + 1..];
      if tools[n] !in selectable || tools[n] in selected {
        filtered := filtered + [tools[n]];
      }
    }
  }

  // ---------- when a selection is granted, and what it leaves ----------

  predicate Catalogued(c: Config) {
    c.selectable.Some? && (forall t :: t in c.tools ==> t != "") && Distinct(c.tools)
  }

  /** The tools of this surface a worker could still select. */
  predicate Selectable(c: Config, t: string) {
    c.selectable.Some? && t in c.tools && t in c.selectable.value
  }

  lemma {:induction false} MetadataFine(tools: seq<ToolName>, n: nat)
    requires n <= |tools|
    ensures MetadataProblem(tools, n).None? <==>
            (forall i :: n <= i < |tools| ==> tools[i] != "") && (forall i, j :: 0 <= i < j < |tools| && n <= j ==> tools[i] != tools[j])
    decreases |tools| - n
  {
    if n < |tools| {
      MetadataFine(tools, n + 1);
      if tools[n] in tools[..n] {
        var i :| 0 <= i < n && tools[..n][i] == tools[n];
        assert tools[i] == tools[n];
      } else {
        forall i | 0 <= i < n ensures tools[i] != tools[n] { assert tools[..n][i] == tools[i]; }
      }
    }
  }

  lemma {:induction false} RequestFine(sorted: seq<string>, tools: seq<ToolName>, selectable: seq<string>, n: nat)
    requires n <= |sorted|
    ensures RequestProblem(sorted, tools, selectable, n).None? <==>
            forall i :: n <= i < |sorted| ==> sorted[i] in tools && sorted[i] in selectable && (i > 0 ==> sorted[i - 1] != sorted[i])
    decreases |sorted| - n
  {
    if n < |sorted| { RequestFine(sorted, tools, selectable, n + 1); }
  }

  lemma SortedDistinct(r: seq<string>)
    requires Sorted(r)
    ensures Distinct(r) <==> forall i :: 0 < i < |r| ==> r[i - 1] != r[i]
  {
    if forall i :: 0 < i < |r| ==> r[i - 1] != r[i] {
      forall i, j | 0 <= i < j < |r| ensures r[i] != r[j] {
        if r[i] == r[j] {
          LeqAntisymmetric(r[j - 1], r[j]) by { assert i == j - 1 || Leq(r[i], r[j - 1]); LeqTotal(r[i], r[i]); }
        }
      }
    }
  }

  lemma {:induction false} CutKeeps(tools: seq<ToolName>, selectable: seq<string>, selected: seq<string>)
    ensures forall t :: t in Cut(tools, selectable, selected) <==> t in tools && (t !in selectable || t in selected)
    ensures Distinct(tools) ==> Distinct(Cut(tools, selectable, selected))
  {
    if tools != [] {
      CutKeeps(tools[1..], selectable, selected);
      var rest := Cut(tools[1..], selectable, selected);
      assert tools == [tools[0]] + tools[1..];
      if Distinct(tools) {
        assert tools[0] !in tools[1..];
        assert forall i :: 0 <= i < |rest| ==> rest[i] in rest;
      }
    }
  }

  lemma RequestGranted(sorted: seq<string>, tools: seq<ToolName>, selectable: seq<string>)
    requires Sorted(sorted)
    ensures RequestProblem(sorted, tools, selectable, 0).None?
       <==> Distinct(sorted) && forall t :: t in sorted ==> t in tools && t in selectable
  {
    RequestFine(sorted, tools, selectable, 0);
    SortedDistinct(sorted);
    assert forall i :: 0 <= i < |sorted| ==> sorted[i] in sorted;
  }

  /** A request is granted exactly when it names, once each, tools this surface has on offer. */
  lemma SelectGrants(c: Config, names: seq<string>)
    ensures Select(c, These(names)).Ok? <==>
            Catalogued(c) && Distinct(Sort(names)) && forall t :: t in names ==> Selectable(c, t)
  {
    hide RequestProblem, Sort, Cut, Sorted, Distinct;
    CataloguedIs(c);
    SortSameElements(names);
    if c.selectable.Some? {
      RequestGranted(Sort(names), c.tools, c.selectable.value);
    }
  }

  lemma CataloguedIs(c: Config)
    ensures Catalogued(c) <==> c.selectable.Some? && MetadataProblem(c.tools, 0).None?
  {
    MetadataFine(c.tools, 0);
    if forall t :: t in c.tools ==> t != "" {
      forall i | 0 <= i < |c.tools| ensures c.tools[i] != "" { assert c.tools[i] in c.tools; }
    }
  }

  /** An explicit selection is exactly what its surface still offers. */
  ghost predicate Exact(c: Config) {
    c.chosen.Some? ==> Catalogued(c) && forall t :: t in c.chosen.value <==> Selectable(c, t)
  }

  lemma SelectExact(c: Config, names: seq<string>)
    requires Select(c, These(names)).Ok?
    ensures var r := Select(c, These(names)).config;
            && r.chosen == Some(Sort(names)) && r.selectable == c.selectable && Exact(r)
            && (forall t :: t in r.chosen.value <==> t in names)
            && (forall t :: t !in c.selectable.value ==> (t in r.tools <==> t in c.tools))
  {
    SelectGrants(c, names);
    SortSameElements(names);
    CutKeeps(c.tools, c.selectable.value, Sort(names));
  }

  /** What each refusal says of the request, and that it names the first entry it applies to. */
  predicate Explains(c: Config, names: Names, problem: Problem) {
    match problem
    case NotEnabled => c.selectable.None? && !names.Inherit?
    case NullNames => c.selectable.Some? && names.Null?
    case NoMetadata => exists i :: 0 <= i < |c.tools| && c.tools[i] == "" && Distinct(c.tools[..i]) && "" !in c.tools[..i]
    case Ambiguous(name) =>
      exists i, j :: 0 <= i < j < |c.tools| && c.tools[i] == c.tools[j] == name && name != "" && Distinct(c.tools[..j]) && "" !in c.tools[..j]
    case Repeated(name) => names.These? && Catalogued(c) && multiset(names.names)[name] > 1 && FirstProblem(c, names.names, name)
    case Unavailable(name) => names.These? && Catalogued(c) && name in names.names && name !in c.tools && FirstProblem(c, names.names, name)
    case AlreadyMounted(name) =>
      && names.These? && Catalogued(c) && name in names.names && name in c.tools && !Selectable(c, name)
      && FirstProblem(c, names.names, name)
  }

  /** Every name asked for that comes before this one is asked for once and on offer. */
  predicate FirstProblem(c: Config, names: seq<string>, name: string) {
    forall t :: t in names && Leq(t, name) && t != name ==> Selectable(c, t) && multiset(names)[t] == 1
  }

  lemma {:induction false} FirstMetadataProblem(tools: seq<ToolName>, n: nat)
    requires n <= |tools| && Distinct(tools[..n]) && "" !in tools[..n]
    ensures MetadataProblem(tools, n).Some? ==>
              var p := MetadataProblem(tools, n).value;
              exists j :: n <= j < |tools| && Distinct(tools[..j]) && "" !in tools[..j]
                && (if tools[j] == "" then p == NoMetadata else p == Ambiguous(tools[j]) && tools[j] in tools[..j])
    decreases |tools| - n
  {
    if n < |tools| && tools[n] != "" && tools[n] !in tools[..n] {
      assert tools[..n + 1] == tools[..n] + [tools[n]];
      FirstMetadataProblem(tools, n + 1);
    }
  }

  /** The request is fine up to position m of its sorted names. */
  predicate FineTo(sorted: seq<string>, tools: seq<ToolName>, selectable: seq<string>, m: nat)
    requires m <= |sorted|
  {
    forall i :: 0 <= i < m ==> sorted[i] in tools && sorted[i] in selectable && (i > 0 ==> sorted[i - 1] != sorted[i])
  }

  predicate ProblemAt(sorted: seq<string>, tools: seq<ToolName>, selectable: seq<string>, m: nat, p: Problem)
    requires m < |sorted|
  {
    if m > 0 && sorted[m - 1] == sorted[m] then p == Repeated(sorted[m])
    else if sorted[m] !in tools then p == Unavailable(sorted[m])
    else p == AlreadyMounted(sorted[m]) && sorted[m] !in selectable
  }

  lemma {:induction false} FirstRequestProblem(sorted: seq<string>, tools: seq<ToolName>, selectable: seq<string>, n: nat)
    requires n <= |sorted| && FineTo(sorted, tools, selectable, n)
    ensures var p := RequestProblem(sorted, tools, selectable, n);
            p.Some? ==> exists m :: n <= m < |sorted| && FineTo(sorted, tools, selectable, m) && ProblemAt(sorted, tools, selectable, m, p.value)
    decreases |sorted| - n
  {
    if n < |sorted| {
      if FineTo(sorted, tools, selectable, n + 1) { FirstRequestProblem(sorted, tools, selectable, n + 1); }
      else { assert ProblemAt(sorted, tools, selectable, n, RequestProblem(sorted, tools, selectable, n).value); }
    }
  }

  lemma CountOnce(s: seq<string>, t: string)
    requires Distinct(s) && t in s
    ensures multiset(s)[t] == 1
  {
    var i :| 0 <= i < |s| && s[i] == t;
    assert s == s[..i] + [t] + s[i + 1..];
    assert t !in s[..i] && t !in s[i + 1..];
  }

  /** A name before the first bad one in order is asked for once and on offer. */
  lemma BeforeTheProblem(c: Config, sorted: seq<string>, m: nat, t: string)
    requires c.selectable.Some? && Sorted(sorted) && m < |sorted| && FineTo(sorted, c.tools, c.selectable.value, m)
    requires t in sorted && Leq(t, sorted[m]) && t != sorted[m]
    ensures Selectable(c, t) && multiset(sorted)[t] == 1
  {
    hide Leq;
    assert sorted == sorted[..m] + sorted[m..];
    if t in sorted[m..] {
      var k :| 0 <= k < |sorted[m..]| && sorted[m..][k] == t;
      assert sorted[m + k] == t && (k == 0 || Leq(sorted[m], sorted[m + k]));
      if k > 0 { LeqAntisymmetric(t, sorted[m]); }
    }
    var i :| 0 <= i < m && sorted[i] == t;
    SortedDistinct(sorted[..m]);
    CountOnce(sorted[..m], t);
  }

  lemma RepeatedTwice(sorted: seq<string>, m: nat)
    requires 0 < m < |sorted| && sorted[m - 1] == sorted[m]
    ensures multiset(sorted)[sorted[m]] > 1
  {
    assert sorted == sorted[..m - 1] + [sorted[m], sorted[m]] + sorted[m + 1..];
  }

  /** A refusal is true of the request, and of its first offending entry in order. */
  lemma SelectExplains(c: Config, names: Names)
    requires Select(c, names).Refused?
    ensures Explains(c, names, Select(c, names).problem)
  {
    hide RequestProblem, MetadataProblem, Sort, Cut, Leq, Sorted, Distinct, Catalogued, FirstProblem;
    if names.These? && c.selectable.Some? {
      CataloguedIs(c);
      var sorted := Sort(names.names);
      if MetadataProblem(c.tools, 0).Some? {
        MetadataExplains(c, names);
      } else {
        RequestExplains(c, names.names);
      }
    }
  }

  lemma MetadataExplains(c: Config, names: Names)
    requires MetadataProblem(c.tools, 0).Some?
    ensures Explains(c, names, MetadataProblem(c.tools, 0).value)
  {
    FirstMetadataProblem(c.tools, 0);
    var p := MetadataProblem(c.tools, 0).value;
    var j :| 0 <= j < |c.tools| && Distinct(c.tools[..j]) && "" !in c.tools[..j]
             && (if c.tools[j] == "" then p == NoMetadata else p == Ambiguous(c.tools[j]) && c.tools[j] in c.tools[..j]);
    if p.Ambiguous? {
      var i :| 0 <= i < j && c.tools[..j][i] == c.tools[j];
      assert c.tools[i] == c.tools[j];
    }
  }

  lemma RequestExplains(c: Config, names: seq<string>)
    requires Catalogued(c) && RequestProblem(Sort(names), c.tools, c.selectable.value, 0).Some?
    ensures Explains(c, These(names), RequestProblem(Sort(names), c.tools, c.selectable.value, 0).value)
  {
    assert c.selectable.Some?;
    hide Sort, Leq, Sorted, RequestProblem, Catalogued;
    var sorted := Sort(names);
    SortSameElements(names);
    FirstRequestProblem(sorted, c.tools, c.selectable.value, 0);
    var p := RequestProblem(sorted, c.tools, c.selectable.value, 0).value;
    var m :| 0 <= m < |sorted| && FineTo(sorted, c.tools, c.selectable.value, m) && ProblemAt(sorted, c.tools, c.selectable.value, m, p);
    FirstInOrder(c, names, m);
    hide FirstProblem;
    assert sorted[m] in sorted;
    if m > 0 && sorted[m - 1] == sorted[m] { RepeatedTwice(sorted, m); }
  }

  lemma FirstInOrder(c: Config, names: seq<string>, m: nat)
    requires c.selectable.Some? && m < |Sort(names)| && FineTo(Sort(names), c.tools, c.selectable.value, m)
    ensures FirstProblem(c, names, Sort(names)[m])
  {
    hide Sort, Leq, Sorted, FineTo, Selectable;
    var sorted := Sort(names);
    SortSameElements(names);
    forall t | t in names && Leq(t, sorted[m]) && t != sorted[m] ensures Selectable(c, t) && multiset(names)[t] == 1 {
      BeforeTheProblem(c, sorted, m, t);
    }
  }

  // ---------- chains of delegation ----------

  /** The surfaces along a chain of spawns, each made from the one before it. */
  function Delegate(c: Config, requests: seq<Names>): Selected
    decreases |requests|
  {
    if requests == [] then Ok(c)
    else
      match Delegate(c, requests[..|requests| - 1])
      case Refused(p) => Refused(p)
      case Ok(d) => Select(d, requests[|requests| - 1])
  }

  predicate Narrower(parent: Option<seq<string>>, child: Option<seq<string>>) {
    parent.Some? ==> child.Some? && forall t :: t in child.value ==> t in parent.value
  }

  lemma SelectNarrows(c: Config, names: Names)
    requires Exact(c) && Select(c, names).Ok?
    ensures Exact(Select(c, names).config) && Narrower(c.chosen, Select(c, names).config.chosen)
    ensures Select(c, names).config.selectable == c.selectable
  {
    if names.These? {
      SelectExact(c, names.names);
      SelectGrants(c, names.names);
    }
  }

  /** Below a worker with an explicit selection, every descendant has one, and it is a subset. */
  lemma {:induction false} ScopeOnlyShrinks(c: Config, requests: seq<Names>)
    requires Exact(c) && Delegate(c, requests).Ok?
    ensures var d := Delegate(c, requests).config;
            Exact(d) && Narrower(c.chosen, d.chosen) && d.selectable == c.selectable
    decreases |requests|
  {
    if requests != [] {
      ScopeOnlyShrinks(c, requests[..|requests| - 1]);
      SelectNarrows(Delegate(c, requests[..|requests| - 1]).config, requests[|requests| - 1]);
    }
  }

  lemma {:induction false} CutTwice(tools: seq<ToolName>, selectable: seq<string>, first: seq<string>, second: seq<string>)
    requires forall t :: t in second ==> t in first
    ensures Cut(Cut(tools, selectable, first), selectable, second) == Cut(tools, selectable, second)
  {
    if tools != [] {
      CutTwice(tools[1..], selectable, first, second);
      var rest := Cut(tools[1..], selectable, first);
      if tools[0] !in selectable || tools[0] in first {
        assert ([tools[0]] + rest)[1..] == rest;
      }
    }
  }

  /** Selecting A and then B is granted exactly when B alone is and lies within A, with the same surface. */
  lemma SelectTwice(c: Config, a: seq<string>, b: seq<string>)
    requires Select(c, These(a)).Ok?
    ensures var first := Select(c, These(a)).config;
            && (Select(first, These(b)).Ok? <==> Select(c, These(b)).Ok? && forall t :: t in b ==> t in a)
            && (Select(first, These(b)).Ok? ==> Select(first, These(b)) == Select(c, These(b)))
  {
    var first := Select(c, These(a)).config;
    SelectExact(c, a);
    SelectGrants(c, a);
    SelectGrants(c, b);
    SelectGrants(first, b);
    SortSameElements(a);
    SortSameElements(b);
    if Select(first, These(b)).Ok? {
      CutTwice(c.tools, c.selectable.value, Sort(a), Sort(b));
    }
  }

  /** restoreWorkerToolSelection: the recorded selection, applied to the host's surface. */
  function Restore(host: Config, names: Option<seq<string>>): Selected {
    Select(host.(chosen := None), if names.None? then Inherit else These(names.value))
  }

  /** A worker restored from its recorded selection gets back exactly the surface its delegations gave it. */
  lemma {:induction false} RestoreRebuildsSurface(host: Config, requests: seq<Names>)
    requires host.chosen.None? && Delegate(host, requests).Ok?
    ensures Restore(host, Delegate(host, requests).config.chosen) == Delegate(host, requests)
    decreases |requests|
  {
    assert host.(chosen := None) == host;
    if requests != [] {
      var front, names := requests[..|requests| - 1], requests[|requests| - 1];
      RestoreRebuildsSurface(host, front);
      var d := Delegate(host, front).config;
      if names.These? {
        if d.chosen.Some? {
          SelectTwice(host, d.chosen.value, names.names);
        }
        SelectExact(d, names.names);
        SortTwice(names.names);
        SortSameElements(names.names);
        SelectGrants(host, names.names);
      }
    }
  }

  lemma {:induction false} SortSorted(r: seq<string>)
    requires Sorted(r)
    ensures Sort(r) == r
  {
    if r != [] {
      SortSorted(r[1..]);
      assert r == [r[0]] + r[1..];
    }
  }

  lemma SortTwice(s: seq<string>)
    ensures Sort(Sort(s)) == Sort(s)
  {
    SortSorted(Sort(s));
  }

  // ---------- the check on restored and resumed workers ----------

  /** checkRestoredWorkerToolParentLocked, for a parent whose names are known. */
  method RestoredScopeAllowed(parent: Option<seq<string>>, names: Option<seq<string>>) returns (ok: bool)
    ensures ok <==> Narrower(parent, names)
  {
    if parent.None? { return true; }
    if names.None? { return false; }
    for n := 0 to |names.value|
      invariant forall i :: 0 <= i < n ==> names.value[i] in parent.value
    {
      if names.value[n] !in parent.value { return false; }
    }
    return true;
  }
}
