/** Conservative test selection: which workspace crates a set of changed paths
can affect, by ownership of paths and reverse dependencies. */
module Affected {
  import opened JsonValue

  type Id = string

  /** `directory`: the package's directory below the workspace root, if it is below. */
  datatype Package = Package(id: Id, name: string, directory: Option<seq<string>>)

  datatype Node = Node(id: Id, dependencies: seq<Id>)

  datatype Metadata = Metadata(packages: seq<Package>, members: set<Id>, resolve: Option<seq<Node>>)

  datatype Path = Path(absolute: bool, parts: seq<string>)

  datatype Reason = SharedInput(path: Path) | UnownedInput(path: Path) | ReverseDependencies | NoRustChanges

  datatype Outcome = MissingPackage | NotRelative(path: Path) | NoGraph | Chosen(crates: set<Id>, reason: Reason)

  // ---- Which crate a path belongs to

  const SharedInputs: set<seq<string>> := {["Cargo.toml"], ["Cargo.lock"], ["rust-toolchain"], ["rust-toolchain.toml"]}

  function LedgerCrates(parts: seq<string>): Option<seq<string>> {
    if parts == ["docs", "design", "agent-parity.md"] then Some(["remuda", "remuda-driver"])
    else if parts == ["docs", "design", "agent-parity.generated.json"] then Some(["remuda"])
    else None
  }

  predicate Relative(path: Path) { !path.absolute && ".." !in path.parts }

  function FirstNamed(packages: seq<Package>, name: string): Option<Id> {
    if packages == [] then None
    else if packages[0].name == name then Some(packages[0].id)
    else FirstNamed(packages[1..], name)
  }

  /** Package `i` is the one found exactly when it is the first of that name. */
  lemma {:induction false} FirstNamedExact(packages: seq<Package>, name: string, i: nat)
    requires i <= |packages| && forall j | 0 <= j < i :: packages[j].name != name
    ensures i == |packages| ==> FirstNamed(packages, name) == None
    ensures i < |packages| && packages[i].name == name ==> FirstNamed(packages, name) == Some(packages[i].id)
  {
    if i > 0 {
      assert forall j | 0 <= j < i - 1 :: packages[1..][j] == packages[j + 1];
      FirstNamedExact(packages[1..], name, i - 1);
    }
  }

  function NamedIds(packages: seq<Package>, names: seq<string>): set<Id> {
    if names == [] then {}
    else
      var owner := FirstNamed(packages, names[0]);
      (if owner.Some? then {owner.value} else {}) + NamedIds(packages, names[1..])
  }

  datatype Directory = Directory(parts: seq<string>, owner: Id)

  function Directories(packages: seq<Package>): seq<Directory> {
    if packages == [] then []
    else
      (if packages[0].directory.Some? then [Directory(packages[0].directory.value, packages[0].id)] else [])
      + Directories(packages[1..])
  }

  lemma {:induction false} DirectoriesExact(packages: seq<Package>)
    ensures forall d :: d in Directories(packages) <==>
      exists p :: p in packages && p.directory == Some(d.parts) && p.id == d.owner
  {
    if packages != [] {
      DirectoriesExact(packages[1..]);
      assert packages == [packages[0]] + packages[1..];
    }
  }

  /** Before everything that is not deeper: keeps equal depths in their order. */
  function Insert(d: Directory, sorted: seq<Directory>): seq<Directory> {
    if sorted == [] || |sorted[0].parts| <= |d.parts| then [d] + sorted
    else [sorted[0]] + Insert(d, sorted[1..])
  }

  /** Deepest first, equal depths in their original order. */
  function DeepestFirst(dirs: seq<Directory>): seq<Directory> {
    if dirs == [] then [] else Insert(dirs[0], DeepestFirst(dirs[1..]))
  }

  predicate Contains(d: Directory, parts: seq<string>) { d.parts <= parts }

  function FirstOwner(dirs: seq<Directory>, parts: seq<string>): Option<Id> {
    if dirs == [] then None
    else if Contains(dirs[0], parts) then Some(dirs[0].owner)
    else FirstOwner(dirs[1..], parts)
  }

  function OwnerOf(packages: seq<Package>, parts: seq<string>): Option<Id> {
    FirstOwner(DeepestFirst(Directories(packages)), parts)
  }

  /** No directory that contains the path is deeper than `d`. */
  ghost predicate NoneDeeper(dirs: seq<Directory>, d: Directory, parts: seq<string>) {
    forall x | x in dirs && Contains(x, parts) :: |x.parts| <= |d.parts|
  }

  predicate Descending(dirs: seq<Directory>) { forall i, j | 0 <= i < j < |dirs| :: |dirs[i].parts| >= |dirs[j].parts| }

  lemma {:induction false} InsertMembers(d: Directory, sorted: seq<Directory>)
    ensures forall x :: x in Insert(d, sorted) <==> x == d || x in sorted
  {
    if sorted != [] && |sorted[0].parts| > |d.parts| {
      assert sorted == [sorted[0]] + sorted[1..];
      InsertMembers(d, sorted[1..]);
    }
  }

  lemma {:induction false} InsertDescends(d: Directory, sorted: seq<Directory>)
    requires Descending(sorted)
    ensures Descending(Insert(d, sorted))
  {
    if sorted != [] && |sorted[0].parts| > |d.parts| {
      InsertDescends(d, sorted[1..]);
      InsertMembers(d, sorted[1..]);
      var longer := Insert(d, sorted[1..]);
      assert forall i | 0 <= i < |longer| :: longer[i] in longer;
    }
  }

  lemma {:induction false} InsertOwner(d: Directory, sorted: seq<Directory>, parts: seq<string>)
    requires Descending(sorted)
    ensures FirstOwner(Insert(d, sorted), parts) ==
      if Contains(d, parts) && NoneDeeper(sorted, d, parts) then Some(d.owner) else FirstOwner(sorted, parts)
  {
    hide Contains;
    if sorted != [] && |sorted[0].parts| > |d.parts| {
      var first, rest := sorted[0], sorted[1..];
      assert forall x :: x in sorted <==> x == first || x in rest by { assert sorted == [first] + rest; }
      InsertOwner(d, rest, parts);
      assert Insert(d, sorted)[1..] == Insert(d, rest);
    } else {
      assert Insert(d, sorted)[1..] == sorted;
      assert NoneDeeper(sorted, d, parts);
    }
  }

  /** The owner of a path is the crate whose directory is the deepest that contains
      it; of several in the same directory, the first. */
  lemma {:induction false} OwnerIsDeepest(dirs: seq<Directory>, parts: seq<string>)
    ensures Descending(DeepestFirst(dirs)) && forall x :: x in DeepestFirst(dirs) <==> x in dirs
    ensures (forall x | x in dirs :: !Contains(x, parts)) ==> FirstOwner(DeepestFirst(dirs), parts) == None
    ensures forall i | 0 <= i < |dirs| && DeepestAt(dirs, parts, i) ::
      FirstOwner(DeepestFirst(dirs), parts) == Some(dirs[i].owner)
  {
    hide Contains;
    if dirs != [] {
      var d, rest := dirs[0], dirs[1..];
      assert forall x :: x in dirs <==> x == d || x in rest by { assert dirs == [d] + rest; }
      OwnerIsDeepest(rest, parts);
      InsertMembers(d, DeepestFirst(rest));
      InsertDescends(d, DeepestFirst(rest));
      InsertOwner(d, DeepestFirst(rest), parts);
      forall i | 0 <= i < |dirs| && DeepestAt(dirs, parts, i)
        ensures FirstOwner(DeepestFirst(dirs), parts) == Some(dirs[i].owner)
      {
        assert dirs[i] in dirs;
        if i > 0 {
          assert rest[i - 1] == dirs[i];
          DeepestInRest(dirs, parts, i);
        }
      }
    }
  }

  /** Directory `i` contains the path, none that does is deeper, and none before it is as deep. */
  ghost predicate DeepestAt(dirs: seq<Directory>, parts: seq<string>, i: nat)
    requires i < |dirs|
  {
    && Contains(dirs[i], parts) && NoneDeeper(dirs, dirs[i], parts)
    && forall j | 0 <= j < i && Contains(dirs[j], parts) :: |dirs[j].parts| < |dirs[i].parts|
  }

  lemma DeepestInRest(dirs: seq<Directory>, parts: seq<string>, i: nat)
    requires 0 < i < |dirs| && DeepestAt(dirs, parts, i)
    ensures DeepestAt(dirs[1..], parts, i - 1)
    ensures !(Contains(dirs[0], parts) && NoneDeeper(dirs[1..], dirs[0], parts))
  {
    hide Contains;
    var rest := dirs[1..];
    assert forall j | 0 <= j < |rest| :: rest[j] == dirs[j + 1];
    assert rest[i - 1] in rest;
  }

  /** A path some directory contains has a deepest one, so it has an owner. */
  lemma {:induction false} SomeDeepest(dirs: seq<Directory>, parts: seq<string>) returns (i: nat)
    requires exists x :: x in dirs && Contains(x, parts)
    ensures i < |dirs| && DeepestAt(dirs, parts, i)
  {
    hide Contains;
    var d, rest := dirs[0], dirs[1..];
    assert forall x :: x in dirs <==> x == d || x in rest by { assert dirs == [d] + rest; }
    if Contains(d, parts) && NoneDeeper(rest, d, parts) {
      i := 0;
    } else {
      var k := SomeDeepest(rest, parts);
      i := k + 1;
      DeepestInWhole(dirs, parts, k);
    }
  }

  lemma DeepestInWhole(dirs: seq<Directory>, parts: seq<string>, k: nat)
    requires k + 1 < |dirs| && DeepestAt(dirs[1..], parts, k)
    requires !(Contains(dirs[0], parts) && NoneDeeper(dirs[1..], dirs[0], parts))
    ensures DeepestAt(dirs, parts, k + 1)
  {
    hide Contains;
    var d, rest := dirs[0], dirs[1..];
    assert forall x :: x in dirs <==> x == d || x in rest by { assert dirs == [d] + rest; }
    assert forall j | 0 < j < |dirs| :: dirs[j] == rest[j - 1];
  }

  // ---- What one changed path means

  datatype Verdict = Outside | Shared | Unowned | Touches(ids: set<Id>)

  predicate MarkdownName(name: string) { |name| > 3 && name[|name| - 3..] == ".md" }

  function Judge(packages: seq<Package>, path: Path): Verdict {
    if !Relative(path) then Outside
    else if path.parts in SharedInputs then Shared
    else if LedgerCrates(path.parts).Some? then Touches(NamedIds(packages, LedgerCrates(path.parts).value))
    else if OwnerOf(packages, path.parts).Some? then Touches({OwnerOf(packages, path.parts).value})
    else if path.parts != [] && path.parts[0] in {"docs", "web", "skills"} then Touches({})
    else if |path.parts| == 1 && MarkdownName(path.parts[0]) then Touches({})
    else Unowned
  }

  /** An ordinary relative path touches exactly the crate in the deepest directory around it. */
  lemma OwnedByDeepest(packages: seq<Package>, path: Path, i: nat)
    requires Relative(path) && path.parts !in SharedInputs && LedgerCrates(path.parts).None?
    requires i < |Directories(packages)| && DeepestAt(Directories(packages), path.parts, i)
    ensures Judge(packages, path) == Touches({Directories(packages)[i].owner})
  {
    hide DeepestFirst, FirstOwner, Directories, DeepestAt;
    OwnerIsDeepest(Directories(packages), path.parts);
  }

  datatype Scan = Stopped(outcome: Outcome) | Changed(ids: set<Id>)

  /** Paths are judged in order; the first that is not a plain change decides. */
  function Scanned(md: Metadata, paths: seq<Path>, changed: set<Id>): Scan
    decreases |paths|
  {
    if paths == [] then Changed(changed)
    else
      match Judge(md.packages, paths[0])
      case Outside => Stopped(NotRelative(paths[0]))
      case Shared => Stopped(Chosen(md.members, SharedInput(paths[0])))
      case Unowned => Stopped(Chosen(md.members, UnownedInput(paths[0])))
      case Touches(ids) => Scanned(md, paths[1..], changed + ids)
  }

  // ---- Dependents

  ghost predicate DependsOn(nodes: seq<Node>, n: Id, d: Id) {
    exists i :: 0 <= i < |nodes| && nodes[i].id == n && d in nodes[i].dependencies
  }

  /** Each package of the chain depends on the next. */
  ghost predicate Chain(nodes: seq<Node>, chain: seq<Id>) {
    forall i | 0 <= i < |chain| - 1 :: DependsOn(nodes, chain[i], chain[i + 1])
  }

  ghost predicate Leads(nodes: seq<Node>, chain: seq<Id>, from: Id, goal: set<Id>) {
    chain != [] && chain[0] == from && chain[|chain| - 1] in goal && Chain(nodes, chain)
  }

  ghost predicate Reaches(nodes: seq<Node>, from: Id, goal: set<Id>) { exists chain :: Leads(nodes, chain, from, goal) }

  ghost predicate ClosedUnder(nodes: seq<Node>, s: set<Id>) {
    forall n, d | d in s && DependsOn(nodes, n, d) :: n in s
  }

  lemma ReachesItself(nodes: seq<Node>, x: Id, goal: set<Id>)
    requires x in goal
    ensures Reaches(nodes, x, goal)
  {
    assert Leads(nodes, [x], x, goal);
  }

  lemma DependentReaches(nodes: seq<Node>, n: Id, d: Id, goal: set<Id>)
    requires DependsOn(nodes, n, d) && Reaches(nodes, d, goal)
    ensures Reaches(nodes, n, goal)
  {
    hide DependsOn;
    var chain :| Leads(nodes, chain, d, goal);
    var longer := [n] + chain;
    assert forall i | 0 < i < |longer| :: longer[i] == chain[i - 1];
    assert Leads(nodes, longer, n, goal);
  }

  /** A set that holds the goal and is closed under dependents holds all that reaches the goal. */
  lemma {:induction false} ClosedHolds(nodes: seq<Node>, s: set<Id>, goal: set<Id>, chain: seq<Id>, x: Id)
    requires goal <= s && ClosedUnder(nodes, s) && Leads(nodes, chain, x, goal)
    ensures x in s
    decreases |chain|
  {
    hide DependsOn;
    if |chain| > 1 {
      var rest := chain[1..];
      assert forall i | 0 <= i < |rest| :: rest[i] == chain[i + 1];
      assert DependsOn(nodes, chain[0], chain[1]);
      ClosedHolds(nodes, s, goal, rest, rest[0]);
    }
  }

  predicate HasEdge(reverse: map<Id, set<Id>>, n: Id, d: Id) { d in reverse && n in reverse[d] }

  ghost predicate Reverses(reverse: map<Id, set<Id>>, nodes: seq<Node>) {
    forall n: Id, d: Id :: DependsOn(nodes, n, d) <==> HasEdge(reverse, n, d)
  }

  function With(reverse: map<Id, set<Id>>, d: Id, n: Id): map<Id, set<Id>> {
    reverse[d := (if d in reverse then reverse[d] else {}) + {n}]
  }

  /** The dependency is among those of the first `i` nodes or the next one's first `j`. */
  ghost predicate Listed(nodes: seq<Node>, i: nat, j: nat, n: Id, d: Id)
    requires i <= |nodes| && (i < |nodes| ==> j <= |nodes[i].dependencies|)
  {
    DependsOn(nodes[..i], n, d) || (i < |nodes| && n == nodes[i].id && d in nodes[i].dependencies[..j])
  }

  ghost predicate Partly(reverse: map<Id, set<Id>>, nodes: seq<Node>, i: nat, j: nat)
    requires i <= |nodes| && (i < |nodes| ==> j <= |nodes[i].dependencies|)
  {
    forall n: Id, d: Id :: Listed(nodes, i, j, n, d) <==> HasEdge(reverse, n, d)
  }

  lemma OneMoreEdge(reverse: map<Id, set<Id>>, nodes: seq<Node>, i: nat, j: nat)
    requires i < |nodes| && j < |nodes[i].dependencies| && Partly(reverse, nodes, i, j)
    ensures Partly(With(reverse, nodes[i].dependencies[j], nodes[i].id), nodes, i, j + 1)
  {
    hide DependsOn, Listed;
    var more := With(reverse, nodes[i].dependencies[j], nodes[i].id);
    forall n: Id, d: Id ensures Listed(nodes, i, j + 1, n, d) <==> HasEdge(more, n, d) {
      OneMoreListed(nodes, i, j, n, d);
      assert HasEdge(more, n, d) <==> HasEdge(reverse, n, d) || (n == nodes[i].id && d == nodes[i].dependencies[j]);
    }
  }

  lemma OneMoreListed(nodes: seq<Node>, i: nat, j: nat, n: Id, d: Id)
    requires i < |nodes| && j < |nodes[i].dependencies|
    ensures Listed(nodes, i, j + 1, n, d) <==>
      Listed(nodes, i, j, n, d) || (n == nodes[i].id && d == nodes[i].dependencies[j])
  {
    hide DependsOn;
    var deps := nodes[i].dependencies;
    assert deps[..j + 1] == deps[..j] + [deps[j]];
  }

  lemma OneMoreNode(reverse: map<Id, set<Id>>, nodes: seq<Node>, i: nat)
    requires i < |nodes| && Partly(reverse, nodes, i, |nodes[i].dependencies|)
    ensures Partly(reverse, nodes, i + 1, 0)
  {
    hide DependsOn, Listed;
    forall n: Id, d: Id ensures Listed(nodes, i + 1, 0, n, d) <==> Listed(nodes, i, |nodes[i].dependencies|, n, d) {
      NodeListed(nodes, i, n, d);
    }
  }

  lemma NodeListed(nodes: seq<Node>, i: nat, n: Id, d: Id)
    requires i < |nodes|
    ensures Listed(nodes, i + 1, 0, n, d) <==> Listed(nodes, i, |nodes[i].dependencies|, n, d)
  {
    hide DependsOn;
    var deps := nodes[i].dependencies;
    assert deps[..|deps|] == deps;
    assert nodes[..i + 1] == nodes[..i] + [nodes[i]];
    LastNode(nodes[..i], nodes[i], n, d);
  }

  lemma LastNode(nodes: seq<Node>, last: Node, n: Id, d: Id)
    ensures DependsOn(nodes + [last], n, d) <==> DependsOn(nodes, n, d) || (n == last.id && d in last.dependencies)
  {
    var longer := nodes + [last];
    if DependsOn(nodes, n, d) {
      var k :| 0 <= k < |nodes| && nodes[k].id == n && d in nodes[k].dependencies;
      assert longer[k] == nodes[k];
    }
    if n == last.id && d in last.dependencies {
      assert longer[|nodes|] == last;
    }
  }

  method BuildReverse(nodes: seq<Node>) returns (reverse: map<Id, set<Id>>)
    ensures Reverses(reverse, nodes)
  {
    hide DependsOn, Partly;
    reverse := map[];
    NothingReversed(nodes);
    for i := 0 to |nodes|
      invariant Partly(reverse, nodes, i, 0)
    {
      for j := 0 to |nodes[i].dependencies|
        invariant Partly(reverse, nodes, i, j)
      {
        OneMoreEdge(reverse, nodes, i, j);
        reverse := With(reverse, nodes[i].dependencies[j], nodes[i].id);
      }
      OneMoreNode(reverse, nodes, i);
    }
    AllReversed(reverse, nodes);
  }

  lemma NothingReversed(nodes: seq<Node>)
    ensures Partly(map[], nodes, 0, 0)
  {
  }

  lemma AllReversed(reverse: map<Id, set<Id>>, nodes: seq<Node>)
    requires Partly(reverse, nodes, |nodes|, 0)
    ensures Reverses(reverse, nodes)
  {
    hide DependsOn;
    assert nodes[..|nodes|] == nodes;
    assert forall n: Id, d: Id :: Listed(nodes, |nodes|, 0, n, d) <==> DependsOn(nodes, n, d);
  }

  // ---- The worklist

  /** Everything found so far reaches the start, and what is not waiting has its dependents found. */
  ghost predicate Exploring(nodes: seq<Node>, start: set<Id>, found: set<Id>, pending: seq<Id>) {
    && start <= found && (forall x | x in pending :: x in found)
    && (forall x | x in found :: Reaches(nodes, x, start))
    && (forall n, d | d in found && d !in pending && DependsOn(nodes, n, d) :: n in found)
  }

  lemma ExploredExactly(nodes: seq<Node>, start: set<Id>, found: set<Id>)
    requires Exploring(nodes, start, found, [])
    ensures forall x :: x in found <==> Reaches(nodes, x, start)
  {
    hide DependsOn;
    assert ClosedUnder(nodes, found);
    forall x | Reaches(nodes, x, start) ensures x in found {
      var chain :| Leads(nodes, chain, x, start);
      ClosedHolds(nodes, found, start, chain, x);
    }
  }

  function Universe(reverse: map<Id, set<Id>>): set<Id> { set d, n | d in reverse && n in reverse[d] :: n }

  function Dependents(reverse: map<Id, set<Id>>, d: Id): set<Id> { if d in reverse then reverse[d] else {} }

  /** After taking `x` off the list and finding some of its dependents, `left` remain. */
  ghost predicate Finding(nodes: seq<Node>, start: set<Id>, found: set<Id>, pending: seq<Id>, x: Id, left: set<Id>) {
    && start <= found && (forall y | y in pending :: y in found) && x in found
    && (forall y | y in found :: Reaches(nodes, y, start))
    && (forall n | n in left :: DependsOn(nodes, n, x))
    && (forall n, d | d in found && d !in pending && DependsOn(nodes, n, d) :: n in found || (d == x && n in left))
  }

  lemma Popped(reverse: map<Id, set<Id>>, nodes: seq<Node>, start: set<Id>, found: set<Id>, pending: seq<Id>)
    requires Reverses(reverse, nodes) && Exploring(nodes, start, found, pending) && pending != []
    ensures var x := pending[|pending| - 1];
      Finding(nodes, start, found, pending[..|pending| - 1], x, Dependents(reverse, x) - found)
  {
    hide DependsOn, Reaches;
    var x, rest := pending[|pending| - 1], pending[..|pending| - 1];
    assert pending == rest + [x];
  }

  lemma FoundOne(nodes: seq<Node>, start: set<Id>, found: set<Id>, pending: seq<Id>, x: Id, left: set<Id>, n: Id)
    requires Finding(nodes, start, found, pending, x, left) && n in left
    ensures Finding(nodes, start, found + {n}, pending + [n], x, left - {n})
  {
    hide DependsOn, Reaches;
    DependentReaches(nodes, n, x, start);
  }

  method CloseUnderDependents(reverse: map<Id, set<Id>>, ghost nodes: seq<Node>, changed: set<Id>)
    returns (found: set<Id>)
    requires Reverses(reverse, nodes)
    ensures forall x :: x in found <==> Reaches(nodes, x, changed)
  {
    hide DependsOn, Reaches, Exploring, Finding, Reverses;
    found := changed;
    var pending := ListOf(changed);
    ghost var universe := Universe(reverse) + changed;
    Started(nodes, changed, pending);
    while pending != []
      invariant found <= universe && Exploring(nodes, changed, found, pending)
      decreases |universe - found|, |pending|
    {
      Popped(reverse, nodes, changed, found, pending);
      ghost var before := found;
      var x := pending[|pending| - 1];
      pending := pending[..|pending| - 1];
      var left := Dependents(reverse, x) - found;
      assert left <= universe;
      ghost var size := |pending|;
      while left != {}
        invariant before <= found <= universe && left <= universe && left !! found
        invariant found == before ==> |pending| == size
        invariant Finding(nodes, changed, found, pending, x, left)
        decreases |left|
      {
        var n :| n in left;
        FoundOne(nodes, changed, found, pending, x, left, n);
        found, pending, left := found + {n}, pending + [n], left - {n};
      }
      FoundAll(nodes, changed, found, pending, x);
      Shrinks(universe, before, found);
    }
    ExploredExactly(nodes, changed, found);
  }

  lemma Shrinks(universe: set<Id>, before: set<Id>, found: set<Id>)
    requires before <= found <= universe
    ensures found == before || |universe - found| < |universe - before|
  {
    if found != before {
      var x :| x in found && x !in before;
      assert universe - found <= universe - before - {x};
      SubsetSize(universe - found, universe - before - {x});
    }
  }

  lemma {:induction false} SubsetSize(a: set<Id>, b: set<Id>)
    requires a <= b
    ensures |a| <= |b|
  {
    if a != {} {
      var x :| x in a;
      SubsetSize(a - {x}, b - {x});
    }
  }

  lemma FoundAll(nodes: seq<Node>, start: set<Id>, found: set<Id>, pending: seq<Id>, x: Id)
    requires Finding(nodes, start, found, pending, x, {})
    ensures Exploring(nodes, start, found, pending)
  {
    hide DependsOn, Reaches;
  }

  lemma Started(nodes: seq<Node>, start: set<Id>, pending: seq<Id>)
    requires forall x :: x in pending <==> x in start
    ensures Exploring(nodes, start, start, pending)
  {
    hide DependsOn, Reaches;
    forall x | x in start ensures Reaches(nodes, x, start) {
      ReachesItself(nodes, x, start);
    }
  }

  method ListOf(ids: set<Id>) returns (list: seq<Id>)
    ensures forall x :: x in list <==> x in ids
  {
    list := [];
    var left := ids;
    while left != {}
      invariant left <= ids && forall x :: x in list <==> x in ids - left
      decreases |left|
    {
      var x :| x in left;
      list, left := list + [x], left - {x};
    }
  }

  // ---- The selection

  ghost function Affects(md: Metadata, changed: set<Id>): set<Id>
    requires md.resolve.Some?
  {
    set m | m in md.members && Reaches(md.resolve.value, m, changed)
  }

  function PackageIds(packages: seq<Package>): set<Id> { set p | p in packages :: p.id }

  ghost function Selection(md: Metadata, paths: seq<Path>): Outcome {
    if !(md.members <= PackageIds(md.packages)) then MissingPackage
    else
      match Scanned(md, paths, {})
      case Stopped(outcome) => outcome
      case Changed(ids) =>
        if md.resolve.None? then NoGraph
        else
          var crates := Affects(md, ids);
          Chosen(crates, if crates == {} then NoRustChanges else ReverseDependencies)
  }

  method SelectIds(md: Metadata, paths: seq<Path>) returns (outcome: Outcome)
    ensures outcome == Selection(md, paths)
  {
    hide Judge, Reaches;
    if !(md.members <= PackageIds(md.packages)) {
      return MissingPackage;
    }
    var changed: set<Id> := {};
    var i := 0;
    while i < |paths|
      invariant i <= |paths| && Scanned(md, paths[i..], changed) == Scanned(md, paths, {})
    {
      assert paths[i..][1..] == paths[i + 1..];
      match Judge(md.packages, paths[i])
      case Outside => return NotRelative(paths[i]);
      case Shared => return Chosen(md.members, SharedInput(paths[i]));
      case Unowned => return Chosen(md.members, UnownedInput(paths[i]));
      case Touches(ids) => changed := changed + ids;
      i := i + 1;
    }
    if md.resolve.None? {
      return NoGraph;
    }
    var reverse := BuildReverse(md.resolve.value);
    var found := CloseUnderDependents(reverse, md.resolve.value, changed);
    var crates := md.members * found;
    assert crates == Affects(md, changed);
    outcome := Chosen(crates, if crates == {} then NoRustChanges else ReverseDependencies);
  }

  // ---- The names

  /** The name under a package id; the last package of an id is the one kept. */
  function NameOf(packages: seq<Package>, id: Id): string {
    if packages == [] then ""
    else if packages[|packages| - 1].id == id then packages[|packages| - 1].name
    else NameOf(packages[..|packages| - 1], id)
  }

  lemma {:induction false} NameExactly(packages: seq<Package>, id: Id, i: nat)
    requires i < |packages| && packages[i].id == id && forall j | i < j < |packages| :: packages[j].id != id
    ensures NameOf(packages, id) == packages[i].name
    decreases |packages|
  {
    if i < |packages| - 1 {
      NameExactly(packages[..|packages| - 1], id, i);
    }
  }

  /** The order of strings by their characters. */
  predicate AtMost(a: string, b: string) {
    a == "" || (b != "" && (a[0] < b[0] || (a[0] == b[0] && AtMost(a[1..], b[1..]))))
  }

  /** One string comes before another where they first differ, or when it ends there. */
  lemma {:induction false} AtMostExactly(a: string, b: string, k: nat)
    requires k <= |a| && k <= |b| && a[..k] == b[..k]
    ensures k == |a| ==> AtMost(a, b)
    ensures k < |a| && k == |b| ==> !AtMost(a, b)
    ensures k < |a| && k < |b| && a[k] != b[k] ==> (AtMost(a, b) <==> a[k] < b[k])
  {
    if k > 0 {
      assert a[0] == a[..k][0] && b[0] == b[..k][0];
      assert a[1..][..k - 1] == a[..k][1..] && b[1..][..k - 1] == b[..k][1..];
      AtMostExactly(a[1..], b[1..], k - 1);
    }
  }

  lemma {:induction false} AtMostTotal(a: string, b: string)
    ensures AtMost(a, b) || AtMost(b, a)
  {
    if a != "" && b != "" {
      AtMostTotal(a[1..], b[1..]);
    }
  }

  lemma {:induction false} AtMostTransitive(a: string, b: string, c: string)
    requires AtMost(a, b) && AtMost(b, c)
    ensures AtMost(a, c)
  {
    if a != "" && a[0] == b[0] == c[0] {
      AtMostTransitive(a[1..], b[1..], c[1..]);
    }
  }

  ghost predicate Alphabetical(names: seq<string>) { forall i, j | 0 <= i < j < |names| :: AtMost(names[i], names[j]) }

  function InsertName(name: string, sorted: seq<string>): seq<string> {
    if sorted == [] || AtMost(name, sorted[0]) then [name] + sorted else [sorted[0]] + InsertName(name, sorted[1..])
  }

  lemma {:induction false} InsertNameExact(name: string, sorted: seq<string>)
    requires Alphabetical(sorted)
    ensures Alphabetical(InsertName(name, sorted))
    ensures multiset(InsertName(name, sorted)) == multiset(sorted) + multiset{name}
  {
    hide AtMost;
    if sorted != [] {
      var first, rest := sorted[0], sorted[1..];
      assert sorted == [first] + rest;
      if AtMost(name, first) {
        forall j | 0 <= j < |sorted| ensures AtMost(name, sorted[j]) {
          if j > 0 { AtMostTransitive(name, first, sorted[j]); }
        }
      } else {
        AtMostTotal(name, first);
        InsertNameExact(name, rest);
        var tail := InsertName(name, rest);
        forall j | 0 <= j < |tail| ensures AtMost(first, tail[j]) {
          assert tail[j] in multiset(tail);
          assert tail[j] == name || tail[j] in rest;
        }
      }
    }
  }

  /** Those of the packages that go by `name`. */
  function Named(packages: seq<Package>, ids: set<Id>, name: string): set<Id> {
    set id | id in ids && NameOf(packages, id) == name
  }

  /** The names of exactly these packages, one for each, in order. */
  ghost predicate NamesOf(packages: seq<Package>, ids: set<Id>, names: seq<string>) {
    Alphabetical(names) && forall name :: multiset(names)[name] == |Named(packages, ids, name)|
  }

  lemma OneMoreName(packages: seq<Package>, ids: set<Id>, names: seq<string>, id: Id)
    requires NamesOf(packages, ids, names) && id !in ids
    ensures NamesOf(packages, ids + {id}, InsertName(NameOf(packages, id), names))
  {
    hide NameOf, Alphabetical, InsertName;
    var name := NameOf(packages, id);
    InsertNameExact(name, names);
    forall n ensures multiset(InsertName(name, names))[n] == |Named(packages, ids + {id}, n)| {
      if n == name {
        assert Named(packages, ids + {id}, n) == Named(packages, ids, n) + {id};
      } else {
        assert Named(packages, ids + {id}, n) == Named(packages, ids, n);
      }
    }
  }

  method SortedNames(packages: seq<Package>, ids: set<Id>) returns (names: seq<string>)
    ensures NamesOf(packages, ids, names)
  {
    hide NamesOf, NameOf, InsertName;
    names := [];
    var left := ids;
    NoNames(packages);
    while left != {}
      invariant left <= ids && NamesOf(packages, ids - left, names)
      decreases |left|
    {
      var id :| id in left;
      OneMoreName(packages, ids - left, names, id);
      assert ids - left + {id} == ids - (left - {id});
      names, left := InsertName(NameOf(packages, id), names), left - {id};
    }
    assert ids - left == ids;
  }

  lemma NoNames(packages: seq<Package>)
    ensures forall ids: set<Id> :: ids == {} ==> NamesOf(packages, ids, [])
  {
    forall ids: set<Id>, name | ids == {} ensures Named(packages, ids, name) == {} {}
  }

  /** The outcome with the names of the selected crates, sorted. */
  method SelectCrates(md: Metadata, paths: seq<Path>) returns (outcome: Outcome, names: seq<string>)
    ensures outcome == Selection(md, paths)
    ensures outcome.Chosen? ==> NamesOf(md.packages, outcome.crates, names)
  {
    hide NamesOf, Selection;
    names := [];
    outcome := SelectIds(md, paths);
    if outcome.Chosen? {
      names := SortedNames(md.packages, outcome.crates);
    }
  }
}
