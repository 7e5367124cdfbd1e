/** The catalogue: its level rule, the tree built from a flat list, and what is read off
    that tree. catalog.service.ts, packages/contracts catalog.ts and the web catalog.ts. */
module Catalog {
  import opened Options

  datatype Level = Domain | Category | Service | InterventionType | Complexity | Skill

  datatype Node = Node(
    id: nat, level: Level, parentId: Option<nat>, active: bool, skillIds: set<nat>, icon: Option<nat>,
      accent: Option<nat>)

  function ParentLevel(level: Level): Option<Level> {
    match level
    case Domain => None
    case Category => Some(Domain)
    case Service => Some(Category)
    case InterventionType => Some(Service)
    case Complexity => Some(InterventionType)
    case Skill => None
  }

  function Rank(level: Level): nat {
    match level
    case Domain => 0
    case Category => 1
    case Service => 2
    case InterventionType => 3
    case Complexity => 4
    case Skill => 0
  }

  // ------------------------------------------------------------- the collection

  type Nodes = map<nat, Node>

  datatype Error = ParentNotAllowed | ParentRequired | ParentInvalid | SkillsNotAllowed | SkillInvalid | NotFound

  function ParentError(nodes: Nodes, level: Level, parentId: Option<nat>): Option<Error> {
    var expected := ParentLevel(level);
    if expected.None? then if parentId.Some? then Some(ParentNotAllowed) else None
    else if parentId.None? then Some(ParentRequired)
    else if parentId.value !in nodes || nodes[parentId.value].level != expected.value then Some(ParentInvalid)
    else None
  }

  predicate AreSkills(nodes: Nodes, skillIds: set<nat>) {
    forall id :: id in skillIds ==> id in nodes && nodes[id].level == Skill
  }

  function SkillsError(nodes: Nodes, level: Level, skillIds: set<nat>): Option<Error> {
    if skillIds == {} then None
    else if level != Complexity then Some(SkillsNotAllowed)
    else if !AreSkills(nodes, skillIds) then Some(SkillInvalid)
    else None
  }

  /** What an update may change: never the level or the parent. */
  datatype Change = Change(active: Option<bool>, skillIds: Option<set<nat>>, icon: Option<Option<nat>>,
    accent: Option<Option<nat>>)

  datatype Operation =
    | Create(id: nat, level: Level, parentId: Option<nat>, skillIds: set<nat>, icon: Option<nat>, accent: Option<nat>)
    | Update(id: nat, change: Change)

  function Or<T>(change: Option<T>, value: T): T { if change.Some? then change.value else value }

  function Changed(n: Node, c: Change): Node {
    n.(active := Or(c.active, n.active), skillIds := Or(c.skillIds, n.skillIds), icon := Or(c.icon, n.icon),
       accent := Or(c.accent, n.accent))
  }

  /** A generated id is new, so a create that names a taken one stands for no call. */
  function Applied(nodes: Nodes, op: Operation): (Nodes, Option<Error>) {
    match op
    case Create(id, level, parentId, skillIds, icon, accent) =>
      var error := ParentError(nodes, level, parentId);
      var skills := SkillsError(nodes, level, skillIds);
      if id in nodes then (nodes, None)
      else if error.Some? then (nodes, error)
      else if skills.Some? then (nodes, skills)
      else (nodes[id := Node(id, level, parentId, true, skillIds, icon, accent)], None)
    case Update(id, change) =>
      if id !in nodes then (nodes, Some(NotFound))
      else
        var skills :=
          if change.skillIds.Some? then SkillsError(nodes, nodes[id].level, change.skillIds.value) else None;
        if skills.Some? then (nodes, skills) else (nodes[id := Changed(nodes[id], change)], None)
  }

  function Run(nodes: Nodes, ops: seq<Operation>): Nodes {
    if ops == [] then nodes else Applied(Run(nodes, ops[..|ops| - 1]), ops[|ops| - 1]).0
  }

  /** Every node hangs under an existing node of the level above, roots under none, and
      only complexities require skills, which exist. */
  ghost predicate LevelRule(nodes: Nodes) {
    forall id :: id in nodes ==>
      && nodes[id].id == id
      && ParentError(nodes, nodes[id].level, nodes[id].parentId) == None
      && SkillsError(nodes, nodes[id].level, nodes[id].skillIds) == None
  }

  lemma OperationKeepsLevelRule(nodes: Nodes, op: Operation)
    requires LevelRule(nodes)
    ensures LevelRule(Applied(nodes, op).0)
  {
    var after := Applied(nodes, op).0;
    assert forall id :: id in nodes ==>
      id in after && after[id].level == nodes[id].level && after[id].parentId == nodes[id].parentId;
    forall id | id in after
      ensures ParentError(after, after[id].level, after[id].parentId) == None
      ensures SkillsError(after, after[id].level, after[id].skillIds) == None && after[id].id == id
    {
      if id in nodes { assert ParentError(nodes, nodes[id].level, nodes[id].parentId) == None; }
    }
  }

  /** What contracts ask of a parent: none for a domain or a skill, else one a level above. */
  predicate HangsRight(nodes: Nodes, level: Level, parentId: Option<nat>) {
    if level == Domain || level == Skill then parentId.None?
    else
      && parentId.Some? && parentId.value in nodes && nodes[parentId.value].level != Skill
      && Rank(nodes[parentId.value].level) + 1 == Rank(level)
  }

  /** Only a complexity asks for skills, and they exist. */
  predicate AsksRight(nodes: Nodes, level: Level, skillIds: set<nat>) {
    skillIds != {} ==> level == Complexity && forall id :: id in skillIds ==> id in nodes && nodes[id].level == Skill
  }

  /** A create is accepted exactly when parent and skills are right, and then the catalogue shows
      the new node, active and as asked for; refused, it changes nothing. */
  lemma CreateExactly(nodes: Nodes, id: nat, level: Level, parentId: Option<nat>, skillIds: set<nat>,
          icon: Option<nat>, accent: Option<nat>)
    requires id !in nodes
    ensures var (after, error) := Applied(nodes, Create(id, level, parentId, skillIds, icon, accent));
      && (error.None? <==> HangsRight(nodes, level, parentId) && AsksRight(nodes, level, skillIds))
      && (error.Some? ==> after == nodes)
      && (error.None? ==>
            && after.Keys == nodes.Keys + {id} && (forall other :: other in nodes ==> after[other] == nodes[other])
            && after[id].level == level && after[id].parentId == parentId && after[id].skillIds == skillIds
            && after[id].icon == icon && after[id].accent == accent && after[id].active)
  {
    assert ParentError(nodes, level, parentId) == None <==> HangsRight(nodes, level, parentId);
  }

  /** A field given is shown, one not given stays. */
  predicate IsUpdated<T(==)>(given: Option<T>, before: T, after: T) {
    if given.Some? then after == given.value else after == before
  }

  /** An update is accepted exactly when the node exists and the skills asked for, if any, are
      right; then each field given is shown, every other field and node is as it was. */
  lemma UpdateExactly(nodes: Nodes, id: nat, change: Change)
    ensures var (after, error) := Applied(nodes, Update(id, change));
      && (error.None? <==>
            id in nodes && (change.skillIds.Some? ==> AsksRight(nodes, nodes[id].level, change.skillIds.value)))
      && (error.Some? ==> after == nodes)
      && (error.None? ==>
            && after.Keys == nodes.Keys
            && (forall other :: other in nodes && other != id ==> after[other] == nodes[other])
            && after[id].id == nodes[id].id
            && after[id].level == nodes[id].level && after[id].parentId == nodes[id].parentId
            && IsUpdated(change.active, nodes[id].active, after[id].active)
            && IsUpdated(change.skillIds, nodes[id].skillIds, after[id].skillIds)
            && IsUpdated(change.icon, nodes[id].icon, after[id].icon)
            && IsUpdated(change.accent, nodes[id].accent, after[id].accent))
  {
  }

  /** Every catalogue the operations can reach obeys the level rule. */
  lemma {:induction false} EveryCatalogueObeysLevels(nodes: Nodes, ops: seq<Operation>)
    requires LevelRule(nodes)
    ensures LevelRule(Run(nodes, ops))
  {
    hide Applied, LevelRule;
    if ops != [] {
      EveryCatalogueObeysLevels(nodes, ops[..|ops| - 1]);
      OperationKeepsLevelRule(Run(nodes, ops[..|ops| - 1]), ops[|ops| - 1]);
    }
  }

  // ---------------------------------------------------------------- a fetched list

  /** A list as getTree reads it: distinct nodes, each one level below its parent whenever
      the parent is in the list too. Inactive ones may be missing. */
  ghost predicate IsFetched(list: seq<Node>) {
    && (forall i, j :: 0 <= i < j < |list| ==> list[i].id != list[j].id)
    && (forall a, b :: a in list && b in list && a.parentId == Some(b.id) ==> Rank(a.level) == Rank(b.level) + 1)
  }

  /** Any list of distinct stored nodes will do, whatever the filter and the order. */
  lemma FetchedFromCatalogue(nodes: Nodes, list: seq<Node>)
    requires LevelRule(nodes) && forall n :: n in list ==> n.id in nodes && nodes[n.id] == n
    requires forall i, j :: 0 <= i < j < |list| ==> list[i].id != list[j].id
    ensures IsFetched(list)
  {
    forall a, b | a in list && b in list && a.parentId == Some(b.id) ensures Rank(a.level) == Rank(b.level) + 1 {
      assert ParentError(nodes, nodes[a.id].level, nodes[a.id].parentId) == None;
    }
  }

  predicate IsChild(n: Node, id: nat) { n.parentId == Some(id) }

  predicate HasId(list: seq<Node>, id: nat) { exists i :: 0 <= i < |list| && list[i].id == id }

  predicate IsRoot(list: seq<Node>, n: Node) { n.parentId.None? || !HasId(list, n.parentId.value) }

  function Children(list: seq<Node>, id: nat): seq<Node> {
    if list == [] then []
    else Children(list[..|list| - 1], id) + (if IsChild(list[|list| - 1], id) then [list[|list| - 1]] else [])
  }

  /** The roots among the first `n` nodes. */
  function Roots(list: seq<Node>, n: nat): seq<Node>
    requires n <= |list|
  {
    if n == 0 then [] else Roots(list, n - 1) + (if IsRoot(list, list[n - 1]) then [list[n - 1]] else [])
  }

  lemma {:induction false} ChildrenAre(list: seq<Node>, id: nat)
    ensures forall n :: n in Children(list, id) <==> n in list && IsChild(n, id)
  {
    if list != [] {
      ChildrenAre(list[..|list| - 1], id);
      assert forall n :: n in list <==> n in list[..|list| - 1] || n == list[|list| - 1];
    }
  }

  lemma {:induction false} RootsAre(list: seq<Node>, k: nat)
    requires k <= |list|
    ensures forall n :: n in Roots(list, k) <==> n in list[..k] && IsRoot(list, n)
  {
    hide IsRoot;
    if k > 0 {
      RootsAre(list, k - 1);
      assert list[..k] == list[..k - 1] + [list[k - 1]];
    }
  }

  // ------------------------------------------------------------------------ trees

  datatype Tree = Tree(node: Node, children: seq<Tree>)

  /** The tree below a node; `Rank` bounds its depth. */
  function TreeOf(list: seq<Node>, n: Node): Tree
    requires IsFetched(list) && n in list
    decreases 5 - Rank(n.level), 0
  {
    ChildrenAre(list, n.id);
    Tree(n, TreesOf(list, Children(list, n.id), Rank(n.level) + 1))
  }

  ghost predicate AreFrom(list: seq<Node>, ns: seq<Node>, floor: nat) {
    forall n :: n in ns ==> n in list && Rank(n.level) >= floor
  }

  function TreesOf(list: seq<Node>, ns: seq<Node>, floor: nat): (trees: seq<Tree>)
    requires IsFetched(list) && AreFrom(list, ns, floor)
    decreases 5 - floor, |ns|
  {
    if ns == [] then [] else TreesOf(list, ns[..|ns| - 1], floor) + [TreeOf(list, ns[|ns| - 1])]
  }

  function Forest(list: seq<Node>): seq<Tree>
    requires IsFetched(list)
  {
    RootsAre(list, |list|);
    TreesOf(list, Roots(list, |list|), 0)
  }

  // ---------------------------------------------------------------- parent chains

  function FindNode(list: seq<Node>, id: nat): (found: Option<Node>)
    ensures found.Some? ==> found.value in list && found.value.id == id
    ensures found.None? <==> !HasId(list, id)
  {
    if list == [] then None
    else if list[|list| - 1].id == id then Some(list[|list| - 1])
    else
      assert forall i :: 0 <= i < |list| - 1 ==> list[..|list| - 1][i] == list[i];
      FindNode(list[..|list| - 1], id)
  }

  function ParentOf(list: seq<Node>, n: Node): (parent: Option<Node>)
    ensures parent.None? <==> IsRoot(list, n)
    ensures parent.Some? ==> parent.value in list && IsChild(n, parent.value.id)
  {
    if n.parentId.None? then None else FindNode(list, n.parentId.value)
  }

  /** From the topmost fetched ancestor down to the node. */
  function Chain(list: seq<Node>, n: Node): (chain: seq<Node>)
    requires IsFetched(list) && n in list
    ensures chain != [] && chain[|chain| - 1] == n
    decreases Rank(n.level)
  {
    var parent := ParentOf(list, n);
    if parent.None? then [n] else Chain(list, parent.value) + [n]
  }

  lemma SameIdSameNode(list: seq<Node>, a: Node, b: Node)
    requires IsFetched(list) && a in list && b in list && a.id == b.id
    ensures a == b
  {}

  lemma {:induction false} ChainLinks(list: seq<Node>, n: Node)
    requires IsFetched(list) && n in list
    ensures forall m :: m in Chain(list, n) ==> m in list && Rank(m.level) <= Rank(n.level)
    ensures forall i, j :: 0 <= i < j < |Chain(list, n)| ==>
      Rank(Chain(list, n)[i].level) < Rank(Chain(list, n)[j].level)
    ensures IsRoot(list, Chain(list, n)[0])
    ensures forall i :: 0 < i < |Chain(list, n)| ==> ParentOf(list, Chain(list, n)[i]) == Some(Chain(list, n)[i - 1])
    decreases Rank(n.level)
  {
    hide IsRoot, HasId;
    var parent := ParentOf(list, n);
    if parent.Some? { ChainLinks(list, parent.value); }
  }

  /** Below `x`, a chain goes on through exactly one child of `x`, unless it ends there. */
  predicate Meets(ns: seq<Node>, chain: seq<Node>) { exists x :: x in ns && x in chain }

  ghost predicate MeetsOnce(ns: seq<Node>, chain: seq<Node>) {
    forall i, j :: 0 <= i < j < |ns| ==> !(ns[i] in chain && ns[j] in chain)
  }

  lemma {:induction false} ChildrenDistinct(list: seq<Node>, id: nat)
    requires forall i, j :: 0 <= i < j < |list| ==> list[i].id != list[j].id
    ensures forall i, j :: 0 <= i < j < |Children(list, id)| ==> Children(list, id)[i] != Children(list, id)[j]
  {
    if list != [] {
      var front := list[..|list| - 1];
      ChildrenDistinct(front, id);
      ChildrenAre(front, id);
      assert forall i :: 0 <= i < |front| ==> front[i] == list[i];
    }
  }

  lemma {:induction false} RootsDistinct(list: seq<Node>, k: nat)
    requires k <= |list| && forall i, j :: 0 <= i < j < |list| ==> list[i].id != list[j].id
    ensures forall i, j :: 0 <= i < j < |Roots(list, k)| ==> Roots(list, k)[i] != Roots(list, k)[j]
  {
    hide IsRoot;
    if k > 0 {
      RootsDistinct(list, k - 1);
      RootsAre(list, k - 1);
    }
  }

  lemma ChildrenMeet(list: seq<Node>, x: Node, n: Node)
    requires IsFetched(list) && x in list && n in list
    ensures var chain := Chain(list, n);
      && MeetsOnce(Children(list, x.id), chain)
      && (Meets(Children(list, x.id), chain) <==> x in chain && x != n)
  {
    ChildrenAre(list, x.id);
    ChildrenDistinct(list, x.id);
    ChildRanks(list, x);
    hide HasId, IsRoot, Chain, IsFetched, Children;
    var chain, children := Chain(list, n), Children(list, x.id);
    forall c | c in children && c in chain ensures x in chain && x != n {
      ParentInChain(list, n, c, x);
    }
    if x in chain && x != n {
      var c := NextInChain(list, n, x);
      MeetsAt(children, chain, c);
    }
    forall i, j | 0 <= i < j < |children| ensures !(children[i] in chain && children[j] in chain) {
      if children[i] in chain && children[j] in chain { SameRankSame(list, n, children[i], children[j]); }
    }
  }

  lemma ParentInChain(list: seq<Node>, n: Node, c: Node, x: Node)
    requires IsFetched(list) && n in list && x in list && c in Chain(list, n) && IsChild(c, x.id)
    ensures x in Chain(list, n) && x != n
  {
    ChainLinks(list, n);
    HasParent(list, c, x);
    hide HasId, IsRoot, Chain;
    var chain := Chain(list, n);
    var j :| 0 <= j < |chain| && chain[j] == c;
    SameIdSameNode(list, chain[j - 1], x);
  }

  lemma NextInChain(list: seq<Node>, n: Node, x: Node) returns (c: Node)
    requires IsFetched(list) && n in list && x in Chain(list, n) && x != n
    ensures c in Chain(list, n) && c in list && IsChild(c, x.id)
  {
    ChainLinks(list, n);
    hide HasId, IsRoot, Chain, IsFetched;
    var chain := Chain(list, n);
    var i :| 0 <= i < |chain| && chain[i] == x;
    c := chain[i + 1];
  }

  lemma HasParent(list: seq<Node>, c: Node, x: Node)
    requires x in list && IsChild(c, x.id)
    ensures ParentOf(list, c).Some?
  {
    var i :| 0 <= i < |list| && list[i] == x;
    assert HasId(list, x.id);
  }

  lemma SameRankSame(list: seq<Node>, n: Node, a: Node, b: Node)
    requires IsFetched(list) && n in list && a in Chain(list, n) && b in Chain(list, n)
      && Rank(a.level) == Rank(b.level)
    ensures a == b
  {
    hide HasId, IsRoot, Chain;
    ChainLinks(list, n);
  }

  lemma OnlyTheTopIsRoot(list: seq<Node>, n: Node, m: Node)
    requires IsFetched(list) && n in list && m in Chain(list, n)
    ensures m in list && (IsRoot(list, m) <==> m == Chain(list, n)[0])
  {
    ChainLinks(list, n);
    hide HasId, IsRoot, Chain, IsFetched;
    var chain := Chain(list, n);
    var i :| 0 <= i < |chain| && chain[i] == m;
    if i > 0 { assert ParentOf(list, chain[i]) == Some(chain[i - 1]); }
  }

  lemma RootsMeet(list: seq<Node>, n: Node)
    requires IsFetched(list) && n in list
    ensures MeetsOnce(Roots(list, |list|), Chain(list, n)) && Meets(Roots(list, |list|), Chain(list, n))
  {
    RootsDistinct(list, |list|);
    RootsAre(list, |list|);
    hide HasId, IsRoot, Chain, IsFetched, Roots, Meets;
    var chain, roots := Chain(list, n), Roots(list, |list|);
    assert list[..|list|] == list;
    OnlyTheTopIsRoot(list, n, chain[0]);
    assert Meets(roots, chain) by { MeetsAt(roots, chain, chain[0]); }
    forall i, j | 0 <= i < j < |roots| ensures !(roots[i] in chain && roots[j] in chain) {
      if roots[i] in chain && roots[j] in chain {
        OnlyTheTopIsRoot(list, n, roots[i]);
        OnlyTheTopIsRoot(list, n, roots[j]);
      }
    }
  }

  lemma MeetsAt(ns: seq<Node>, chain: seq<Node>, x: Node)
    requires x in ns && x in chain
    ensures Meets(ns, chain)
  {}

  // ------------------------------------------------- nothing lost, nothing doubled

  function Flat(t: Tree): seq<Node> { [t.node] + FlatAll(t.children) }

  function FlatAll(ts: seq<Tree>): seq<Node> {
    if ts == [] then [] else FlatAll(ts[..|ts| - 1]) + Flat(ts[|ts| - 1])
  }

  lemma {:induction false} OccursInTree(list: seq<Node>, x: Node, n: Node)
    requires IsFetched(list) && x in list && n in list
    ensures multiset(Flat(TreeOf(list, x)))[n] == if x in Chain(list, n) then 1 else 0
    decreases 5 - Rank(x.level), 0
  {
    hide Chain, Children, Meets, MeetsOnce, IsFetched;
    ChildrenAre(list, x.id);
    ChildrenMeet(list, x, n);
    ChildRanks(list, x);
    OccursInTrees(list, Children(list, x.id), Rank(x.level) + 1, n);
    assert n in Chain(list, n);
  }

  lemma ChildRanks(list: seq<Node>, x: Node)
    requires IsFetched(list) && x in list
    ensures AreFrom(list, Children(list, x.id), Rank(x.level) + 1)
    ensures forall c :: c in Children(list, x.id) ==> Rank(c.level) == Rank(x.level) + 1
  {
    ChildrenAre(list, x.id);
  }

  lemma {:induction false} OccursInTrees(list: seq<Node>, ns: seq<Node>, floor: nat, n: Node)
    requires IsFetched(list) && AreFrom(list, ns, floor) && n in list && MeetsOnce(ns, Chain(list, n))
    ensures multiset(FlatAll(TreesOf(list, ns, floor)))[n] == if Meets(ns, Chain(list, n)) then 1 else 0
    decreases 5 - floor, |ns|
  {
    hide Chain, IsFetched, TreeOf, Flat;
    if ns != [] {
      var front, last := ns[..|ns| - 1], ns[|ns| - 1];
      OccursInTrees(list, front, floor, n);
      OccursInTree(list, last, n);
      MeetsAfter(ns, Chain(list, n));
    }
  }

  lemma MeetsAfter(ns: seq<Node>, chain: seq<Node>)
    requires ns != [] && MeetsOnce(ns, chain)
    ensures MeetsOnce(ns[..|ns| - 1], chain)
    ensures Meets(ns, chain) <==> Meets(ns[..|ns| - 1], chain) || ns[|ns| - 1] in chain
    ensures !(Meets(ns[..|ns| - 1], chain) && ns[|ns| - 1] in chain)
  {
    var front := ns[..|ns| - 1];
    assert forall x :: x in ns <==> x in front || x == ns[|ns| - 1];
    if x :| x in front && x in chain {
      var i :| 0 <= i < |front| && front[i] == x;
      assert ns[i] == x;
    }
  }

  lemma {:induction false} FlatIsFromList(list: seq<Node>, ns: seq<Node>, floor: nat)
    requires IsFetched(list) && AreFrom(list, ns, floor)
    ensures forall n :: n in FlatAll(TreesOf(list, ns, floor)) ==> n in list
    decreases 5 - floor, |ns|
  {
    hide IsFetched;
    if ns != [] {
      var last := ns[|ns| - 1];
      FlatIsFromList(list, ns[..|ns| - 1], floor);
      ChildRanks(list, last);
      FlatIsFromList(list, Children(list, last.id), Rank(last.level) + 1);
    }
  }

  lemma {:induction false} OnceEach(list: seq<Node>, n: Node)
    requires forall i, j :: 0 <= i < j < |list| ==> list[i].id != list[j].id
    ensures multiset(list)[n] == if n in list then 1 else 0
  {
    if list != [] {
      var front := list[..|list| - 1];
      OnceEach(front, n);
      assert list == front + [list[|list| - 1]];
      assert forall i :: 0 <= i < |front| ==> front[i] == list[i];
    }
  }

  /** The tree holds exactly the fetched nodes, each once. */
  lemma ForestKeepsEveryNode(list: seq<Node>)
    requires IsFetched(list)
    ensures multiset(FlatAll(Forest(list))) == multiset(list)
  {
    hide Chain, TreesOf, Roots, FlatAll;
    RootsAre(list, |list|);
    assert list[..|list|] == list;
    FlatIsFromList(list, Roots(list, |list|), 0);
    var flat := FlatAll(Forest(list));
    forall n ensures multiset(flat)[n] == multiset(list)[n] {
      OnceEach(list, n);
      if n in list {
        RootsMeet(list, n);
        OccursInTrees(list, Roots(list, |list|), 0, n);
      }
    }
  }

  ghost predicate Precedes(ns: seq<Node>, x: Node, y: Node) {
    exists a, b :: 0 <= a < b < |ns| && ns[a] == x && ns[b] == y
  }

  /** Siblings stay in the order of the list. */
  lemma {:induction false} SiblingsKeepOrder(list: seq<Node>, id: nat, i: nat, j: nat)
    requires i < j < |list| && IsChild(list[i], id) && IsChild(list[j], id)
    ensures Precedes(Children(list, id), list[i], list[j])
  {
    var front, children := list[..|list| - 1], Children(list, id);
    if j < |list| - 1 {
      SiblingsKeepOrder(front, id, i, j);
      var before := Children(front, id);
      var a, b :| 0 <= a < b < |before| && before[a] == front[i] && before[b] == front[j];
      assert children[a] == list[i] && children[b] == list[j];
    } else {
      ChildrenAre(front, id);
      assert front[i] in Children(front, id);
      var a :| 0 <= a < |Children(front, id)| && Children(front, id)[a] == front[i];
      assert children[a] == list[i] && children[|children| - 1] == list[j];
    }
  }

  // ---------------------------------------------------------------------- ancestry

  function Ids(chain: seq<Node>): seq<nat> {
    if chain == [] then [] else Ids(chain[..|chain| - 1]) + [chain[|chain| - 1].id]
  }

  /** Depth-first search for a node, with the ids passed on the way. */
  function Walk(t: Tree, id: nat, trail: seq<nat>): Option<seq<nat>> {
    var here := trail + [t.node.id];
    if t.node.id == id then Some(here) else WalkAll(t.children, id, here)
  }

  function WalkAll(ts: seq<Tree>, id: nat, trail: seq<nat>): Option<seq<nat>> {
    if ts == [] then None
    else
      var found := WalkAll(ts[..|ts| - 1], id, trail);
      if found.Some? then found else Walk(ts[|ts| - 1], id, trail)
  }

  function AncestryOf(ts: seq<Tree>, id: nat): seq<nat> {
    var found := WalkAll(ts, id, []);
    if found.Some? then found.value else []
  }

  /** The ids above a node in its chain. */
  function TrailTo(list: seq<Node>, n: Node): seq<nat>
    requires IsFetched(list) && n in list
  {
    Ids(Chain(list, n)[..|Chain(list, n)| - 1])
  }

  function Route(list: seq<Node>, passes: bool, n: Node): Option<seq<nat>>
    requires IsFetched(list) && n in list
  {
    if passes then Some(Ids(Chain(list, n))) else None
  }

  lemma ChildTrail(list: seq<Node>, x: Node, c: Node)
    requires IsFetched(list) && x in list && c in Children(list, x.id)
    ensures c in list && TrailTo(list, c) == TrailTo(list, x) + [x.id]
  {
    ChildrenAre(list, x.id);
    HasParent(list, c, x);
    SameIdSameNode(list, ParentOf(list, c).value, x);
    hide IsFetched, Children, IsRoot, HasId;
    assert Chain(list, c)[..|Chain(list, c)| - 1] == Chain(list, x);
  }

  lemma OwnTrail(list: seq<Node>, n: Node)
    requires IsFetched(list) && n in list
    ensures TrailTo(list, n) + [n.id] == Ids(Chain(list, n))
  {}

  lemma {:induction false} WalkTree(list: seq<Node>, x: Node, n: Node)
    requires IsFetched(list) && x in list && n in list
    ensures Walk(TreeOf(list, x), n.id, TrailTo(list, x)) == Route(list, x in Chain(list, n), n)
    decreases 5 - Rank(x.level), 0
  {
    ChildRanks(list, x);
    ChildrenMeet(list, x, n);
    if x.id == n.id { SameIdSameNode(list, x, n); }
    hide Chain, IsFetched, Children, Meets, MeetsOnce, TreesOf, TrailTo;
    OwnTrail(list, x);
    forall c | c in Children(list, x.id) ensures c in list && TrailTo(list, c) == TrailTo(list, x) + [x.id] {
      ChildTrail(list, x, c);
    }
    WalkTrees(list, Children(list, x.id), Rank(x.level) + 1, n, TrailTo(list, x) + [x.id]);
  }

  lemma {:induction false} WalkTrees(list: seq<Node>, ns: seq<Node>, floor: nat, n: Node, trail: seq<nat>)
    requires IsFetched(list) && AreFrom(list, ns, floor) && n in list && MeetsOnce(ns, Chain(list, n))
    requires forall x :: x in ns ==> x in list && TrailTo(list, x) == trail
    ensures WalkAll(TreesOf(list, ns, floor), n.id, trail) == Route(list, Meets(ns, Chain(list, n)), n)
    decreases 5 - floor, |ns|
  {
    hide Chain, IsFetched, TreeOf, Walk, TrailTo, Ids;
    if ns != [] {
      MeetsAfter(ns, Chain(list, n));
      hide Meets, MeetsOnce;
      WalkTrees(list, ns[..|ns| - 1], floor, n, trail);
      WalkTree(list, ns[|ns| - 1], n);
    } else {
      assert !Meets(ns, Chain(list, n));
    }
  }

  /** ancestryOf gives the reversed parent chain of every node in the tree. */
  lemma AncestryIsTheChain(list: seq<Node>, n: Node)
    requires IsFetched(list) && n in list
    ensures AncestryOf(Forest(list), n.id) == Ids(Chain(list, n))
  {
    RootsAre(list, |list|);
    RootsMeet(list, n);
    assert list[..|list|] == list;
    forall x | x in Roots(list, |list|) ensures x in list && TrailTo(list, x) == [] {
      assert Chain(list, x) == [x];
    }
    hide Chain, IsFetched, TreesOf, Roots, Meets, MeetsOnce, TrailTo;
    WalkTrees(list, Roots(list, |list|), 0, n, []);
  }

  lemma {:induction false} WalkFindsOnlyNodes(ts: seq<Tree>, id: nat, trail: seq<nat>)
    ensures WalkAll(ts, id, trail).Some? ==> exists n :: n in FlatAll(ts) && n.id == id
  {
    if ts != [] {
      var front, last := ts[..|ts| - 1], ts[|ts| - 1];
      WalkFindsOnlyNodes(front, id, trail);
      WalkFindsOnlyNodes(last.children, id, trail + [last.node.id]);
      assert FlatAll(ts) == FlatAll(front) + ([last.node] + FlatAll(last.children));
      if n :| n in FlatAll(front) && n.id == id {
        assert n in FlatAll(ts);
      } else if last.node.id == id {
        assert last.node in FlatAll(ts);
      } else if n :| n in FlatAll(last.children) && n.id == id {
        assert n in FlatAll(ts);
      } else {
        assert WalkAll(front, id, trail).None? && Walk(last, id, trail).None?;
      }
    }
  }

  /** An id that is not in the tree has no ancestry. */
  lemma UnknownHasNoAncestry(list: seq<Node>, id: nat)
    requires IsFetched(list) && forall n :: n in list ==> n.id != id
    ensures AncestryOf(Forest(list), id) == []
  {
    ForestKeepsEveryNode(list);
    WalkFindsOnlyNodes(Forest(list), id, []);
    hide Forest, FlatAll, WalkAll;
    forall n | n in FlatAll(Forest(list)) ensures n in list {
      assert n in multiset(FlatAll(Forest(list)));
    }
  }

  // ------------------------------------------------------------- inherited display

  function Nearest(own: Option<nat>, inherited: Option<nat>): Option<nat> { if own.Some? then own else inherited }

  function Inherit(t: Tree, icon: Option<nat>, accent: Option<nat>): Tree {
    var shown := t.node.(icon := Nearest(t.node.icon, icon), accent := Nearest(t.node.accent, accent));
    Tree(shown, InheritAll(t.children, shown.icon, shown.accent))
  }

  function InheritAll(ts: seq<Tree>, icon: Option<nat>, accent: Option<nat>): seq<Tree> {
    if ts == [] then [] else InheritAll(ts[..|ts| - 1], icon, accent) + [Inherit(ts[|ts| - 1], icon, accent)]
  }

  /** The lowest icon set on a chain, the node's own first. */
  function NearestIcon(chain: seq<Node>): Option<nat> {
    if chain == [] then None
    else if chain[|chain| - 1].icon.Some? then chain[|chain| - 1].icon
    else NearestIcon(chain[..|chain| - 1])
  }

  function NearestAccent(chain: seq<Node>): Option<nat> {
    if chain == [] then None
    else if chain[|chain| - 1].accent.Some? then chain[|chain| - 1].accent
    else NearestAccent(chain[..|chain| - 1])
  }

  /** A node as displayed: with the first icon and colour set on the way up its own chain. */
  function Shown(list: seq<Node>, n: Node): Node
    requires IsFetched(list) && n in list
  {
    n.(icon := NearestIcon(Chain(list, n)), accent := NearestAccent(Chain(list, n)))
  }

  function ShownTree(list: seq<Node>, n: Node): Tree
    requires IsFetched(list) && n in list
    decreases 5 - Rank(n.level), 0
  {
    ChildRanks(list, n);
    Tree(Shown(list, n), ShownTrees(list, Children(list, n.id), Rank(n.level) + 1))
  }

  function ShownTrees(list: seq<Node>, ns: seq<Node>, floor: nat): seq<Tree>
    requires IsFetched(list) && AreFrom(list, ns, floor)
    decreases 5 - floor, |ns|
  {
    if ns == [] then [] else ShownTrees(list, ns[..|ns| - 1], floor) + [ShownTree(list, ns[|ns| - 1])]
  }

  function Upper(list: seq<Node>, n: Node): seq<Node>
    requires IsFetched(list) && n in list
  {
    Chain(list, n)[..|Chain(list, n)| - 1]
  }

  lemma ChildUpper(list: seq<Node>, x: Node, c: Node)
    requires IsFetched(list) && x in list && c in Children(list, x.id)
    ensures c in list && Upper(list, c) == Chain(list, x)
  {
    ChildrenAre(list, x.id);
    HasParent(list, c, x);
    SameIdSameNode(list, ParentOf(list, c).value, x);
  }

  lemma {:induction false} InheritedTree(list: seq<Node>, x: Node)
    requires IsFetched(list) && x in list
    ensures Inherit(TreeOf(list, x), NearestIcon(Upper(list, x)), NearestAccent(Upper(list, x))) == ShownTree(list, x)
    decreases 5 - Rank(x.level), 0
  {
    ChildRanks(list, x);
    forall c | c in Children(list, x.id) ensures c in list && Upper(list, c) == Chain(list, x) {
      ChildUpper(list, x, c);
    }
    hide IsFetched, Children, TreesOf, Chain;
    InheritedTrees(list, Children(list, x.id), Rank(x.level) + 1, Chain(list, x));
  }

  lemma {:induction false} InheritedTrees(list: seq<Node>, ns: seq<Node>, floor: nat, above: seq<Node>)
    requires IsFetched(list) && AreFrom(list, ns, floor)
    requires forall x :: x in ns ==> x in list && Upper(list, x) == above
    ensures InheritAll(TreesOf(list, ns, floor), NearestIcon(above), NearestAccent(above)) ==
      ShownTrees(list, ns, floor)
    decreases 5 - floor, |ns|
  {
    hide IsFetched, TreeOf, Inherit, ShownTree, Upper, NearestIcon, NearestAccent;
    if ns != [] {
      InheritedTrees(list, ns[..|ns| - 1], floor, above);
      InheritedTree(list, ns[|ns| - 1]);
    }
  }

  /** The displayed tree is the tree with every node showing the first icon and the first
      colour set on the way up to its topmost fetched ancestor. */
  lemma DisplayIsNearest(list: seq<Node>)
    requires IsFetched(list)
    ensures (RootsAre(list, |list|); InheritAll(Forest(list), None, None) == ShownTrees(list, Roots(list, |list|), 0))
  {
    RootsAre(list, |list|);
    assert list[..|list|] == list;
    forall x | x in Roots(list, |list|) ensures x in list && Upper(list, x) == [] {
      assert Chain(list, x) == [x];
    }
    hide IsFetched, Roots, TreesOf, Upper;
    InheritedTrees(list, Roots(list, |list|), 0, []);
  }

  // ------------------------------------------------------------ the tree on the heap

  class TreeNode {
    const node: Node
    var children: seq<TreeNode>

    constructor (node: Node)
      ensures this.node == node && children == []
    {
      this.node := node;
      children := [];
    }
  }

  function ChildObjects(all: seq<TreeNode>, id: nat): seq<TreeNode> {
    if all == [] then []
    else ChildObjects(all[..|all| - 1], id) + (if IsChild(all[|all| - 1].node, id) then [all[|all| - 1]] else [])
  }

  function RootObjects(list: seq<Node>, all: seq<TreeNode>): seq<TreeNode> {
    if all == [] then []
    else RootObjects(list, all[..|all| - 1]) + (if IsRoot(list, all[|all| - 1].node) then [all[|all| - 1]] else [])
  }

  function Data(all: seq<TreeNode>): seq<Node> { seq(|all|, i requires 0 <= i < |all| => all[i].node) }

  /** A heap node and everything below it form the given tree. */
  ghost predicate Shows(h: TreeNode, t: Tree, all: set<TreeNode>)
    reads all
    decreases t
  {
    && h in all && h.node == t.node && |h.children| == |t.children|
    && forall i :: 0 <= i < |t.children| ==> h.children[i] in all && Shows(h.children[i], t.children[i], all)
  }

  lemma {:induction false} ChildObjectsShow(all: seq<TreeNode>, id: nat)
    ensures Data(ChildObjects(all, id)) == Children(Data(all), id)
    ensures forall o :: o in ChildObjects(all, id) ==> o in all
  {
    if all != [] {
      var front := all[..|all| - 1];
      ChildObjectsShow(front, id);
      assert Data(all)[..|all| - 1] == Data(front);
    }
  }

  lemma {:induction false} RootObjectsShow(list: seq<Node>, all: seq<TreeNode>)
    requires |all| <= |list| && Data(all) == list[..|all|]
    ensures Data(RootObjects(list, all)) == Roots(list, |all|)
    ensures forall o :: o in RootObjects(list, all) ==> o in all
  {
    hide IsRoot;
    if all != [] {
      var front := all[..|all| - 1];
      assert Data(front) == list[..|front|] by { assert Data(front) == Data(all)[..|front|]; }
      RootObjectsShow(list, front);
      assert all[|all| - 1].node == Data(all)[|all| - 1] == list[|all| - 1];
    }
  }

  ghost predicate Linked(all: seq<TreeNode>)
    reads all
  {
    forall o :: o in all ==> o.children == ChildObjects(all, o.node.id)
  }

  lemma ObjectShows(list: seq<Node>, all: seq<TreeNode>, h: TreeNode)
    requires IsFetched(list) && Data(all) == list && Linked(all) && h in all
    ensures h.node in list && Shows(h, TreeOf(list, h.node), set o | o in all)
    decreases 5 - Rank(h.node.level), 0
  {
    assert h.node in Data(all) by {
      var i :| 0 <= i < |all| && all[i] == h;
      assert Data(all)[i] == h.node;
    }
    ChildRanks(list, h.node);
    ChildObjectsShow(all, h.node.id);
    hide IsFetched, Children, ChildObjects, TreesOf;
    ObjectsShow(list, all, h.children, Rank(h.node.level) + 1);
  }

  lemma {:induction false} ObjectsShow(list: seq<Node>, all: seq<TreeNode>, hs: seq<TreeNode>, floor: nat)
    requires IsFetched(list) && Data(all) == list && Linked(all) && AreFrom(list, Data(hs), floor)
    requires forall h :: h in hs ==> h in all
    ensures var ts := TreesOf(list, Data(hs), floor);
      |ts| == |hs| && forall i :: 0 <= i < |hs| ==> Shows(hs[i], ts[i], set o | o in all)
    decreases 5 - floor, |hs|
  {
    hide IsFetched, Linked, Shows, TreeOf;
    if hs != [] {
      var front, last := hs[..|hs| - 1], hs[|hs| - 1];
      assert Data(hs)[..|hs| - 1] == Data(front);
      assert Data(hs)[|hs| - 1] == last.node;
      assert forall n :: n in Data(front) ==> n in Data(hs);
      assert last.node in Data(hs);
      ObjectsShow(list, all, front, floor);
      ObjectShows(list, all, last);
    }
  }

  lemma ObjectsNext(list: seq<Node>, all: seq<TreeNode>, i: nat, id: nat)
    requires i < |all|
    ensures ChildObjects(all[..i + 1], id) == ChildObjects(all[..i], id)
      + (if IsChild(all[i].node, id) then [all[i]] else [])
    ensures RootObjects(list, all[..i + 1]) == RootObjects(list, all[..i])
      + (if IsRoot(list, all[i].node) then [all[i]] else [])
  {
    hide IsRoot;
    assert all[..i + 1][..i] == all[..i];
  }

  /** byId finds the object of every listed id and nothing else. */
  ghost predicate Indexes(byId: map<nat, TreeNode>, list: seq<Node>, values: seq<TreeNode>) {
    && |values| == |list|
    && (forall j :: 0 <= j < |list| ==>
      values[j].node == list[j] && list[j].id in byId && byId[list[j].id] == values[j])
    && (forall id :: id in byId <==> HasId(list, id))
  }

  method MakeObjects(list: seq<Node>) returns (byId: map<nat, TreeNode>, values: seq<TreeNode>)
    requires IsFetched(list)
    ensures fresh(values) && Indexes(byId, list, values)
    ensures forall j :: 0 <= j < |values| ==> values[j].children == []
    ensures forall j, k :: 0 <= j < k < |values| ==> values[j] != values[k]
  {
    byId, values := map[], [];
    for i := 0 to |list|
      invariant fresh(values) && |values| == i
      invariant forall j :: 0 <= j < i ==>
        values[j].node == list[j] && list[j].id in byId && byId[list[j].id] == values[j]
      invariant forall id :: id in byId ==> exists j :: 0 <= j < i && list[j].id == id
      invariant forall j :: 0 <= j < i ==> values[j].children == []
      invariant forall j, k :: 0 <= j < k < i ==> values[j] != values[k]
    {
      var created := new TreeNode(list[i]);
      byId := byId[list[i].id := created];
      values := values + [created];
    }
  }

  /** buildTree: one object per node, linked in place, forming exactly the forest. */
  method BuildTree(list: seq<Node>) returns (roots: seq<TreeNode>, ghost all: seq<TreeNode>)
    requires IsFetched(list)
    ensures fresh(all) && Data(all) == list
    ensures |roots| == |Forest(list)|
    ensures forall i :: 0 <= i < |roots| ==> Shows(roots[i], Forest(list)[i], set o | o in all)
  {
    hide IsRoot, Shows, HasId, ChildObjects, RootObjects, IsChild, Forest, TreesOf, TreeOf;
    var byId, values := MakeObjects(list);
    roots := [];
    NoObjects(list);
    for i := 0 to |list|
      invariant forall j :: 0 <= j < |list| ==> values[j].children == ChildObjects(values[..i], list[j].id)
      invariant roots == RootObjects(list, values[..i])
    {
      LinkStep(byId, list, values, i);
      forall j | 0 <= j < |list|
        ensures ChildObjects(values[..i + 1], list[j].id)
          == ChildObjects(values[..i], list[j].id) + (if IsChild(list[i], list[j].id) then [values[i]] else [])
      {
        ObjectsNext(list, values, i, list[j].id);
      }
      ObjectsNext(list, values, i, 0);
      var node := values[i].node;
      if node.parentId.Some? && node.parentId.value in byId {
        var parent := byId[node.parentId.value];
        parent.children := parent.children + [values[i]];
      } else {
        roots := roots + [values[i]];
      }
    }
    all := values;
    Assembled(list, values, roots);
  }

  lemma NoObjects(list: seq<Node>)
    ensures forall id :: ChildObjects([], id) == []
    ensures RootObjects(list, []) == []
  {}

  /** A node is linked under the one object that holds its parent, or else is a root. */
  lemma LinkStep(byId: map<nat, TreeNode>, list: seq<Node>, values: seq<TreeNode>, i: nat)
    requires IsFetched(list) && Indexes(byId, list, values) && i < |list|
    ensures var parentId := list[i].parentId;
      && (IsRoot(list, list[i]) <==> !(parentId.Some? && parentId.value in byId))
      && (parentId.Some? && parentId.value in byId ==> byId[parentId.value] in values)
      && (parentId.Some? && parentId.value in byId ==>
          forall j :: 0 <= j < |list| ==> (IsChild(list[i], list[j].id) <==> values[j] == byId[parentId.value]))
      && (!(parentId.Some? && parentId.value in byId) ==> forall j :: 0 <= j < |list| ==> !IsChild(list[i], list[j].id))
  {}

  lemma Assembled(list: seq<Node>, all: seq<TreeNode>, roots: seq<TreeNode>)
    requires IsFetched(list) && |all| == |list| && forall j :: 0 <= j < |list| ==> all[j].node == list[j]
    requires forall j :: 0 <= j < |list| ==> all[j].children == ChildObjects(all[..|list|], list[j].id)
    requires roots == RootObjects(list, all[..|list|])
    ensures Data(all) == list && |roots| == |Forest(list)|
    ensures forall i :: 0 <= i < |roots| ==> Shows(roots[i], Forest(list)[i], set o | o in all)
  {
    hide IsRoot, Shows, ChildObjects, RootObjects, TreesOf;
    assert all[..|list|] == all && list[..|list|] == list;
    assert Data(all) == list;
    forall o | o in all ensures o.children == ChildObjects(all, o.node.id) {
      var j :| 0 <= j < |all| && all[j] == o;
    }
    RootsAre(list, |list|);
    RootObjectsShow(list, all);
    ObjectsShow(list, all, roots, 0);
  }
}
