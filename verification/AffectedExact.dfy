/** What the selection of affected crates promises, told by the paths, packages and
dependencies themselves. */
module AffectedExact {
  import opened JsonValue
  import opened Affected

  // ---- The rules for one path

  predicate SharedFile(parts: seq<string>) {
    parts == ["Cargo.toml"] || parts == ["Cargo.lock"] || parts == ["rust-toolchain"] ||
      parts == ["rust-toolchain.toml"]
  }

  /** The two halves of the parity ledger. */
  predicate LedgerText(parts: seq<string>) { parts == ["docs", "design", "agent-parity.md"] }

  predicate LedgerData(parts: seq<string>) { parts == ["docs", "design", "agent-parity.generated.json"] }

  ghost predicate InPackage(packages: seq<Package>, parts: seq<string>) {
    exists p :: p in packages && p.directory.Some? && p.directory.value <= parts
  }

  predicate UnderIgnored(parts: seq<string>) {
    parts != [] && (parts[0] == "docs" || parts[0] == "web" || parts[0] == "skills")
  }

  ghost predicate TopLevelMarkdown(parts: seq<string>) { exists stem: string :: stem != "" && parts == [stem + ".md"] }

  /** A named shared file, or a path no rule places: then every member is selected. */
  ghost predicate SelectsAll(packages: seq<Package>, path: Path) {
    || SharedFile(path.parts)
    || (&& !LedgerText(path.parts) && !LedgerData(path.parts) && !InPackage(packages, path.parts)
        && !UnderIgnored(path.parts) && !TopLevelMarkdown(path.parts))
  }

  predicate FirstOfName(packages: seq<Package>, i: nat, name: string) {
    i < |packages| && packages[i].name == name && forall j | 0 <= j < i :: packages[j].name != name
  }

  ghost predicate IsNamed(packages: seq<Package>, name: string, id: Id) {
    exists i: nat :: FirstOfName(packages, i, name) && packages[i].id == id
  }

  predicate Around(p: Package, parts: seq<string>) { p.directory.Some? && p.directory.value <= parts }

  /** Package `i` is around the path, none around it lies deeper, and none before it as deep. */
  ghost predicate Owns(packages: seq<Package>, parts: seq<string>, i: nat) {
    && i < |packages| && Around(packages[i], parts)
    && forall j | 0 <= j < |packages| && Around(packages[j], parts) ::
      && |packages[j].directory.value| <= |packages[i].directory.value|
      && (j < i ==> |packages[j].directory.value| < |packages[i].directory.value|)
  }

  ghost predicate IsOwner(packages: seq<Package>, parts: seq<string>, id: Id) {
    exists i: nat :: Owns(packages, parts, i) && packages[i].id == id
  }

  /** The ledgers touch the crates that check them; any other path its owner. */
  ghost predicate TouchesId(packages: seq<Package>, path: Path, id: Id) {
    if SharedFile(path.parts) then false
    else if LedgerText(path.parts) then IsNamed(packages, "remuda", id) || IsNamed(packages, "remuda-driver", id)
    else if LedgerData(path.parts) then IsNamed(packages, "remuda", id)
    else IsOwner(packages, path.parts, id)
  }

  // ---- The code follows the rules

  lemma {:induction false} FirstNamedIs(packages: seq<Package>, name: string) returns (i: nat)
    ensures i <= |packages| && forall j | 0 <= j < i :: packages[j].name != name
    ensures i < |packages| ==> packages[i].name == name
  {
    i := 0;
    while i < |packages| && packages[i].name != name
      invariant i <= |packages| && forall j | 0 <= j < i :: packages[j].name != name
    {
      i := i + 1;
    }
  }

  lemma NamedExactly(packages: seq<Package>, name: string, id: Id)
    ensures FirstNamed(packages, name) == Some(id) <==> IsNamed(packages, name, id)
  {
    hide FirstNamed;
    var i := FirstNamedIs(packages, name);
    FirstNamedExact(packages, name, i);
    if i < |packages| {
      assert FirstOfName(packages, i, name);
    }
  }

  lemma LedgerTouches(packages: seq<Package>, id: Id)
    ensures id in NamedIds(packages, ["remuda"]) <==> IsNamed(packages, "remuda", id)
    ensures id in NamedIds(packages, ["remuda", "remuda-driver"]) <==>
      IsNamed(packages, "remuda", id) || IsNamed(packages, "remuda-driver", id)
  {
    hide FirstNamed, IsNamed;
    NamedExactly(packages, "remuda", id);
    NamedExactly(packages, "remuda-driver", id);
    var two, one := ["remuda", "remuda-driver"], ["remuda-driver"];
    assert ["remuda"][1..] == [] && two[1..] == one && one[1..] == [];
    assert NamedIds(packages, []) == {};
    assert NamedIds(packages, two) ==
      (if FirstNamed(packages, "remuda").Some? then {FirstNamed(packages, "remuda").value}
        else {}) + NamedIds(packages, one);
  }

  lemma {:induction false} DirectoriesConcat(a: seq<Package>, b: seq<Package>)
    ensures Directories(a + b) == Directories(a) + Directories(b)
  {
    if a == [] {
      assert a + b == b;
    } else {
      assert (a + b)[1..] == a[1..] + b;
      DirectoriesConcat(a[1..], b);
    }
  }

  /** The owner among the packages is the deepest of their directories. */
  lemma OwnerIsDeepestDirectory(packages: seq<Package>, parts: seq<string>, i: nat) returns (k: nat)
    requires Owns(packages, parts, i)
    ensures k < |Directories(packages)| && DeepestAt(Directories(packages), parts, k)
    ensures Directories(packages)[k].owner == packages[i].id
  {
    hide Directories;
    var before, p, after := packages[..i], packages[i], packages[i + 1..];
    var d := Directory(p.directory.value, p.id);
    assert packages == before + ([p] + after);
    DirectoriesConcat(before, [p] + after);
    DirectoriesConcat([p], after);
    OneDirectory(p);
    k := |Directories(before)|;
    var dirs := Directories(packages);
    assert dirs == Directories(before) + ([d] + Directories(after));
    assert dirs[k] == d;
    DirectoriesExact(packages);
    DirectoriesExact(before);
    forall x | x in dirs && Contains(x, parts) ensures |x.parts| <= |d.parts| {
      var q :| q in packages && q.directory == Some(x.parts) && q.id == x.owner;
      var j :| 0 <= j < |packages| && packages[j] == q;
    }
    forall j | 0 <= j < k && Contains(dirs[j], parts) ensures |dirs[j].parts| < |d.parts| {
      assert dirs[j] == Directories(before)[j] && dirs[j] in Directories(before);
      var q :| q in before && q.directory == Some(dirs[j].parts) && q.id == dirs[j].owner;
      var m :| 0 <= m < |before| && before[m] == q;
      assert packages[m] == q;
    }
  }

  lemma OneDirectory(p: Package)
    requires p.directory.Some?
    ensures Directories([p]) == [Directory(p.directory.value, p.id)]
  {
    assert [p][1..] == [];
    assert Directories([p][1..]) == [];
  }

  lemma {:induction false} SomeOwner(packages: seq<Package>, parts: seq<string>) returns (i: nat)
    requires InPackage(packages, parts)
    ensures Owns(packages, parts, i)
  {
    var n := |packages| - 1;
    var front, last := packages[..n], packages[n];
    assert packages == front + [last];
    if InPackage(front, parts) {
      i := SomeOwner(front, parts);
      if Around(last, parts) && |last.directory.value| > |front[i].directory.value| {
        i := n;
      }
    } else {
      i := n;
      assert forall j | 0 <= j < n :: packages[j] in front;
    }
  }

  lemma OwnerExactly(packages: seq<Package>, parts: seq<string>, id: Id)
    ensures OwnerOf(packages, parts).Some? <==> InPackage(packages, parts)
    ensures OwnerOf(packages, parts) == Some(id) <==> IsOwner(packages, parts, id)
  {
    hide Directories, DeepestFirst, FirstOwner, DeepestAt;
    var dirs := Directories(packages);
    OwnerIsDeepest(dirs, parts);
    if InPackage(packages, parts) {
      var i := SomeOwner(packages, parts);
      var k := OwnerIsDeepestDirectory(packages, parts, i);
      if IsOwner(packages, parts, id) {
        var j: nat :| Owns(packages, parts, j) && packages[j].id == id;
        var m := OwnerIsDeepestDirectory(packages, parts, j);
      }
    } else {
      NobodyAround(packages, parts, id);
    }
  }

  lemma NobodyAround(packages: seq<Package>, parts: seq<string>, id: Id)
    requires !InPackage(packages, parts)
    ensures !IsOwner(packages, parts, id)
    ensures forall x | x in Directories(packages) :: !Contains(x, parts)
  {
    hide Directories;
    DirectoriesExact(packages);
    assert forall i | 0 <= i < |packages| :: packages[i] in packages;
  }

  lemma MarkdownExactly(parts: seq<string>)
    ensures TopLevelMarkdown(parts) <==> |parts| == 1 && MarkdownName(parts[0])
  {
    if |parts| == 1 && MarkdownName(parts[0]) {
      var name := parts[0];
      var stem := name[..|name| - 3];
      assert name == stem + ".md" && parts == [stem + ".md"];
    }
  }

  /** A relative path is judged exactly by the rules. */
  lemma JudgeExactly(packages: seq<Package>, path: Path)
    requires !path.absolute && ".." !in path.parts
    ensures !Judge(packages, path).Outside?
    ensures Judge(packages, path).Shared? || Judge(packages, path).Unowned? <==> SelectsAll(packages, path)
    ensures Judge(packages, path).Shared? <==> SharedFile(path.parts)
    ensures Judge(packages, path).Touches? ==>
      forall id :: id in Judge(packages, path).ids <==> TouchesId(packages, path, id)
  {
    hide OwnerOf, NamedIds, MarkdownName, IsNamed, IsOwner, InPackage, TopLevelMarkdown;
    MarkdownExactly(path.parts);
    forall id ensures id in NamedIds(packages, ["remuda"]) <==> IsNamed(packages, "remuda", id)
              ensures id in NamedIds(packages, ["remuda", "remuda-driver"]) <==>
                        IsNamed(packages, "remuda", id) || IsNamed(packages, "remuda-driver", id)
              ensures OwnerOf(packages, path.parts).Some? <==> InPackage(packages, path.parts)
              ensures OwnerOf(packages, path.parts) == Some(id) <==> IsOwner(packages, path.parts, id)
    {
      LedgerTouches(packages, id);
      OwnerExactly(packages, path.parts, id);
    }
    OwnerExactly(packages, path.parts, "");
  }

  // ---- The whole selection

  predicate AllRelative(paths: seq<Path>) { forall p | p in paths :: !p.absolute && ".." !in p.parts }

  ghost predicate AnySelectsAll(md: Metadata, paths: seq<Path>) { exists p :: p in paths && SelectsAll(md.packages, p) }

  /** The packages some path touches. */
  ghost predicate Touched(md: Metadata, paths: seq<Path>, id: Id) {
    exists p :: p in paths && TouchesId(md.packages, p, id)
  }

  lemma {:induction false} ScanCollects(md: Metadata, paths: seq<Path>, changed: set<Id>)
    requires AllRelative(paths)
    ensures AnySelectsAll(md, paths) ==>
      var r := Scanned(md, paths, changed); r.Stopped? && r.outcome.Chosen? && r.outcome.crates == md.members
    ensures !AnySelectsAll(md, paths) ==>
      var r := Scanned(md, paths, changed); r.Changed? && forall id :: id in r.ids <==>
        id in changed || Touched(md, paths, id)
    decreases |paths|
  {
    hide Judge, SelectsAll, TouchesId;
    if paths != [] {
      var p, rest := paths[0], paths[1..];
      assert paths == [p] + rest;
      var verdict := Judge(md.packages, p);
      JudgeExactly(md.packages, p);
      if verdict.Touches? {
        TouchedSplit(md, p, rest);
        ScanCollects(md, rest, changed + verdict.ids);
      } else {
        assert SelectsAll(md.packages, p);
      }
    }
  }

  lemma TouchedSplit(md: Metadata, p: Path, rest: seq<Path>)
    requires !SelectsAll(md.packages, p)
    ensures AnySelectsAll(md, [p] + rest) <==> AnySelectsAll(md, rest)
    ensures forall id :: Touched(md, [p] + rest, id) <==> TouchesId(md.packages, p, id) || Touched(md, rest, id)
  {
    hide SelectsAll, TouchesId;
    var paths := [p] + rest;
    assert forall q :: q in paths <==> q == p || q in rest;
    if AnySelectsAll(md, rest) {
      var q :| q in rest && SelectsAll(md.packages, q);
      assert q in paths;
    }
    forall id ensures Touched(md, paths, id) <==> TouchesId(md.packages, p, id) || Touched(md, rest, id) {
      if TouchesId(md.packages, p, id) {
        assert p in paths;
      }
      if Touched(md, rest, id) {
        var q :| q in rest && TouchesId(md.packages, q, id);
        assert q in paths;
      }
    }
  }

  /** For relative paths: a shared or unowned path selects every member; without one,
      exactly the members that reach a touched package through dependencies are. */
  lemma SelectionExact(md: Metadata, paths: seq<Path>)
    requires AllRelative(paths) && md.members <= PackageIds(md.packages)
    ensures AnySelectsAll(md, paths) ==> Selection(md, paths).Chosen? && Selection(md, paths).crates == md.members
    ensures !AnySelectsAll(md, paths) && md.resolve.None? ==> Selection(md, paths) == NoGraph
    ensures !AnySelectsAll(md, paths) && md.resolve.Some? ==>
      && Selection(md, paths).Chosen?
      && forall m :: m in Selection(md, paths).crates <==>
        m in md.members && exists id :: Touched(md, paths, id) && Reaches(md.resolve.value, m, {id})
  {
    hide Scanned, Touched, AnySelectsAll;
    ScanCollects(md, paths, {});
    if !AnySelectsAll(md, paths) && md.resolve.Some? {
      var nodes, ids := md.resolve.value, Scanned(md, paths, {}).ids;
      forall m ensures Reaches(nodes, m, ids) <==> exists id :: Touched(md, paths, id) && Reaches(nodes, m, {id}) {
        if Reaches(nodes, m, ids) {
          var chain :| Leads(nodes, chain, m, ids);
          var id := chain[|chain| - 1];
          assert Touched(md, paths, id) && Leads(nodes, chain, m, {id});
        }
        if id :| Touched(md, paths, id) && Reaches(nodes, m, {id}) {
          var chain :| Leads(nodes, chain, m, {id});
          assert Leads(nodes, chain, m, ids);
        }
      }
    }
  }

  /** More relative paths select more crates. */
  lemma SelectionMonotone(md: Metadata, paths: seq<Path>, more: seq<Path>)
    requires AllRelative(more) && forall p | p in paths :: p in more
    requires Selection(md, paths).Chosen? && Selection(md, more).Chosen?
    ensures Selection(md, paths).crates <= Selection(md, more).crates
  {
    hide Scanned, Selection, Reaches, PackageIds, SelectsAll, TouchesId;
    ChosenHasPackages(md, paths);
    SelectionExact(md, paths);
    SelectionExact(md, more);
    CratesAreMembers(md, paths);
    if AnySelectsAll(md, paths) {
      var p :| p in paths && SelectsAll(md.packages, p);
      assert p in more;
    } else if !AnySelectsAll(md, more) {
      forall m | m in Selection(md, paths).crates ensures m in Selection(md, more).crates {
        var id :| Touched(md, paths, id) && Reaches(md.resolve.value, m, {id});
        var p :| p in paths && TouchesId(md.packages, p, id);
        assert p in more;
        assert Touched(md, more, id);
      }
    }
  }

  lemma ChosenHasPackages(md: Metadata, paths: seq<Path>)
    requires Selection(md, paths).Chosen?
    ensures md.members <= PackageIds(md.packages)
  {
  }

  lemma CratesAreMembers(md: Metadata, paths: seq<Path>)
    requires AllRelative(paths) && Selection(md, paths).Chosen?
    ensures Selection(md, paths).crates <= md.members
    ensures !AnySelectsAll(md, paths) ==> md.resolve.Some?
  {
    hide Scanned, Reaches, AnySelectsAll, Touched;
    SelectionExact(md, paths);
  }

  /** The order of relative paths, and repetitions among them, do not matter. */
  lemma OrderIrrelevant(md: Metadata, paths: seq<Path>, others: seq<Path>)
    requires AllRelative(paths) && forall p :: p in paths <==> p in others
    ensures Selection(md, paths).Chosen? <==> Selection(md, others).Chosen?
    ensures Selection(md, paths).Chosen? ==> Selection(md, paths).crates == Selection(md, others).crates
  {
    hide Scanned, Reaches, Touched;
    if md.members <= PackageIds(md.packages) {
      SelectionExact(md, paths);
      SelectionExact(md, others);
      if Selection(md, paths).Chosen? {
        SelectionMonotone(md, paths, others);
        SelectionMonotone(md, others, paths);
      }
    }
  }

  // ---- Reasons

  /** The first path that selects everything is the reason given, whatever comes after it. */
  lemma {:induction false} FirstReason(md: Metadata, paths: seq<Path>, changed: set<Id>, i: nat)
    requires i < |paths| && SelectsAll(md.packages, paths[i])
    requires forall j | 0 <= j <= i :: !paths[j].absolute && ".." !in paths[j].parts
    requires forall j | 0 <= j < i :: !SelectsAll(md.packages, paths[j])
    ensures var reason := if SharedFile(paths[i].parts) then SharedInput(paths[i]) else UnownedInput(paths[i]);
      && Scanned(md, paths, changed) == Stopped(Chosen(md.members, reason))
      && (md.members <= PackageIds(md.packages) && changed == {} ==> Selection(md, paths) == Chosen(md.members, reason))
    decreases |paths|
  {
    hide SelectsAll, TouchesId, Reaches, Judge;
    JudgeExactly(md.packages, paths[0]);
    if i > 0 {
      var ids := Judge(md.packages, paths[0]).ids;
      assert forall j | 0 <= j <= i - 1 :: paths[1..][j] == paths[j + 1];
      FirstReason(md, paths[1..], changed + ids, i - 1);
    }
  }

  /** Without such a path the reason tells whether anything is affected. */
  lemma LastReason(md: Metadata, paths: seq<Path>)
    requires AllRelative(paths) && !AnySelectsAll(md, paths) && Selection(md, paths).Chosen?
    ensures Selection(md, paths).reason == if Selection(md, paths).crates ==
      {} then NoRustChanges else ReverseDependencies
  {
    hide Scanned, Touched, AnySelectsAll, Reaches;
    ScanCollects(md, paths, {});
  }

  // ---- Errors

  /** The first path outside the repository is an error, unless one before it selected everything. */
  lemma {:induction false} OutsideRejected(md: Metadata, paths: seq<Path>, changed: set<Id>, i: nat)
    requires i < |paths| && (paths[i].absolute || ".." in paths[i].parts)
    requires forall j | 0 <= j < i ::
      !paths[j].absolute && ".." !in paths[j].parts && !SelectsAll(md.packages, paths[j])
    ensures Scanned(md, paths, changed) == Stopped(NotRelative(paths[i]))
    ensures md.members <= PackageIds(md.packages) && changed == {} ==> Selection(md, paths) == NotRelative(paths[i])
    decreases |paths|
  {
    hide SelectsAll, TouchesId, Reaches;
    if i == 0 {
      assert Judge(md.packages, paths[0]) == Outside;
    } else {
      hide Judge;
      JudgeExactly(md.packages, paths[0]);
      var ids := Judge(md.packages, paths[0]).ids;
      assert forall j | 0 <= j < i - 1 :: paths[1..][j] == paths[j + 1];
      OutsideRejected(md, paths[1..], changed + ids, i - 1);
    }
  }

  /** A member without a package is an error before anything else. */
  lemma MissingRejected(md: Metadata, paths: seq<Path>)
    ensures Selection(md, paths) == MissingPackage <==>
      exists m :: m in md.members && forall p | p in md.packages :: p.id != m
  {
    hide Judge, Reaches;
    ScanNeverMissing(md, paths, {});
    if m :| m in md.members && forall p | p in md.packages :: p.id != m {
      assert m !in PackageIds(md.packages);
    }
    if !(md.members <= PackageIds(md.packages)) {
      var m :| m in md.members && m !in PackageIds(md.packages);
      assert forall p | p in md.packages :: p.id in PackageIds(md.packages);
    }
  }

  lemma {:induction false} ScanNeverMissing(md: Metadata, paths: seq<Path>, changed: set<Id>)
    ensures Scanned(md, paths, changed) != Stopped(MissingPackage)
    decreases |paths|
  {
    hide Judge;
    if paths != [] && Judge(md.packages, paths[0]).Touches? {
      ScanNeverMissing(md, paths[1..], changed + Judge(md.packages, paths[0]).ids);
    }
  }
}
