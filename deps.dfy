/**
 * The workspace release script (scripts/deps.mjs): it reads every package
 * manifest under packages/, records which workspace packages each one
 * depends on through `workspace:^`, closes the chosen packages under
 * "is depended on by", and bumps the patch version of every package in
 * that closure.
 */
module Deps {
  import opened Wrappers

  const WORKSPACE: string := "workspace:^"

  datatype PackageJson = PackageJson(name: string, version: string, dependencies: Option<map<string, string>>)

  /** One package directory: the path of its package.json and the parsed file. */
  datatype Manifest = Manifest(file: string, pkg: PackageJson)

  /** A value of the `packages` map: `{ file, pkg, pool }`. */
  datatype Entry = Entry(file: string, pkg: PackageJson, pool: set<string>)

  /** The `packages` map: its keys in insertion order, and the entries. */
  datatype Packages = Packages(order: seq<string>, table: map<string, Entry>)

  /** The answer to the first prompt: `target` is either not an array or a list of names. */
  datatype Selection = NotAnArray | Chosen(names: seq<string>)

  /** One `writeFileSync(file, JSON.stringify(pkg, null, 2))`. */
  datatype Write = Write(file: string, pkg: PackageJson)

  predicate NoDup(s: seq<string>) {
    forall i, j :: 0 <= i < j < |s| ==> s[i] != s[j]
  }

  // ---------------------------------------------------------------------
  // Reading the manifests
  // ---------------------------------------------------------------------

  /** The dependencies declared with the `workspace:^` protocol; a manifest without `dependencies` has none. */
  function WorkspaceDeps(pkg: PackageJson): (r: set<string>)
    ensures forall k :: k in r <==> pkg.dependencies.Some? && k in pkg.dependencies.value && pkg.dependencies.value[k] == WORKSPACE
  {
    match pkg.dependencies
    case None => {}
    case Some(deps) => set k | k in deps && deps[k] == WORKSPACE
  }

  function Names(ms: seq<Manifest>): (r: seq<string>)
    ensures |r| == |ms| && forall i :: 0 <= i < |ms| ==> r[i] == ms[i].pkg.name
  {
    seq(|ms|, i requires 0 <= i < |ms| => ms[i].pkg.name)
  }

  /** The elements of `s` in order of first appearance, as a `Set` built from `s` keeps them. */
  function Distinct(s: seq<string>): (r: seq<string>)
    ensures NoDup(r)
    ensures forall x :: x in r <==> x in s
    decreases |s|
  {
    if s == [] then []
    else
      var d := Distinct(s[..|s| - 1]);
      assert s == s[..|s| - 1] + [s[|s| - 1]];
      if s[|s| - 1] in d then d else d + [s[|s| - 1]]
  }

  /** One iteration of the reading loop: the first manifest of a name creates its entry; every manifest of that name adds to the pool. */
  function Record(p: Packages, m: Manifest): Packages {
    var name := m.pkg.name;
    var q := if name in p.table then p else Packages(p.order + [name], p.table[name := Entry(m.file, m.pkg, {})]);
    Packages(q.order, q.table[name := q.table[name].(pool := q.table[name].pool + WorkspaceDeps(m.pkg))])
  }

  /** The `packages` map after reading the manifests `ms` in directory order. */
  function Load(ms: seq<Manifest>): (p: Packages)
    ensures forall x :: x in p.table <==> x in p.order
    ensures forall x :: x in p.table ==> p.table[x].pkg.name == x
    decreases |ms|
  {
    if ms == [] then Packages([], map[]) else Record(Load(ms[..|ms| - 1]), ms[|ms| - 1])
  }

  /** The reading loop. */
  method LoadPackages(ms: seq<Manifest>) returns (order: seq<string>, table: map<string, Entry>)
    ensures Packages(order, table) == Load(ms)
  {
    order, table := [], map[];
    var i := 0;
    while i < |ms|
      invariant 0 <= i <= |ms|
      invariant Packages(order, table) == Load(ms[..i])
    {
      var m := ms[i];
      var name := m.pkg.name;
      if name !in table {
        order := order + [name];
        table := table[name := Entry(m.file, m.pkg, {})];
      }
      table := table[name := table[name].(pool := table[name].pool + WorkspaceDeps(m.pkg))];
      assert ms[..i + 1][..i] == ms[..i];
      i := i + 1;
    }
    assert ms[..|ms|] == ms;
  }

  /** The map's keys are the package names, each once, in order of first appearance. */
  lemma {:induction false} LoadOrder(ms: seq<Manifest>)
    ensures Load(ms).order == Distinct(Names(ms))
    decreases |ms|
  {
    if ms != [] {
      var init := ms[..|ms| - 1];
      LoadOrder(init);
      assert Names(ms)[..|ms| - 1] == Names(init);
    }
  }

  /** The position of the first manifest named `name`, or -1 when there is none. */
  function FirstIndex(ms: seq<Manifest>, name: string): (j: int)
    ensures -1 <= j < |ms|
    ensures j >= 0 ==> ms[j].pkg.name == name
    ensures forall i :: 0 <= i < |ms| && (j < 0 || i < j) ==> ms[i].pkg.name != name
    decreases |ms|
  {
    if ms == [] then -1
    else
      var init := ms[..|ms| - 1];
      var r := FirstIndex(init, name);
      assert forall i :: 0 <= i < |init| ==> ms[i] == init[i];
      if r >= 0 then r else if ms[|ms| - 1].pkg.name == name then |ms| - 1 else -1
  }

  /**
   * A name has an entry exactly when some manifest carries it, and the
   * entry's file and parsed manifest are those of the first directory
   * with that name.
   */
  lemma {:induction false} LoadFirst(ms: seq<Manifest>, name: string)
    ensures name in Load(ms).table <==> FirstIndex(ms, name) >= 0
    ensures name in Load(ms).table ==>
      Load(ms).table[name].file == ms[FirstIndex(ms, name)].file && Load(ms).table[name].pkg == ms[FirstIndex(ms, name)].pkg
    decreases |ms|
  {
    if ms != [] {
      var init := ms[..|ms| - 1];
      LoadFirst(init, name);
      if FirstIndex(init, name) >= 0 {
        assert ms[FirstIndex(init, name)] == init[FirstIndex(init, name)];
      }
    }
  }

  /** Some manifest named `name` declares `dep` with `workspace:^`. */
  ghost predicate Declares(ms: seq<Manifest>, name: string, dep: string) {
    exists j :: 0 <= j < |ms| && ms[j].pkg.name == name && dep in WorkspaceDeps(ms[j].pkg)
  }

  lemma DeclaresSplit(ms: seq<Manifest>, name: string, dep: string)
    requires ms != []
    ensures Declares(ms, name, dep) <==>
      Declares(ms[..|ms| - 1], name, dep) || (ms[|ms| - 1].pkg.name == name && dep in WorkspaceDeps(ms[|ms| - 1].pkg))
  {
    var init := ms[..|ms| - 1];
    if Declares(init, name, dep) {
      var j :| 0 <= j < |init| && init[j].pkg.name == name && dep in WorkspaceDeps(init[j].pkg);
      assert ms[j] == init[j];
    }
    if Declares(ms, name, dep) {
      var j :| 0 <= j < |ms| && ms[j].pkg.name == name && dep in WorkspaceDeps(ms[j].pkg);
      if j < |ms| - 1 {
        assert init[j] == ms[j];
      }
    }
  }

  /** One reading step adds the manifest's `workspace:^` dependencies to its own name's pool only. */
  lemma RecordPool(p: Packages, m: Manifest, name: string)
    requires name in Record(p, m).table
    ensures Record(p, m).table[name].pool ==
      (if name in p.table then p.table[name].pool else {}) + (if m.pkg.name == name then WorkspaceDeps(m.pkg) else {})
  {
  }

  /** A pool holds the `workspace:^` dependencies of every manifest with that name, and nothing else. */
  lemma {:induction false} LoadPool(ms: seq<Manifest>, name: string, dep: string)
    requires name in Load(ms).table
    ensures dep in Load(ms).table[name].pool <==> Declares(ms, name, dep)
    decreases |ms|
  {
    var init := ms[..|ms| - 1];
    RecordPool(Load(init), ms[|ms| - 1], name);
    DeclaresSplit(ms, name, dep);
    if name in Load(init).table {
      LoadPool(init, name, dep);
    } else {
      LoadFirst(init, name);
    }
  }

  // ---------------------------------------------------------------------
  // Closing the selection under dependants
  // ---------------------------------------------------------------------

  /** No package outside `rel` depends through `workspace:^` on a package inside it. */
  predicate Closed(rel: seq<string>, table: map<string, Entry>) {
    forall name, key :: name in rel && key in table && name in table[key].pool ==> key in rel
  }

  predicate ClosedSet(s: set<string>, table: map<string, Entry>) {
    forall name, key :: name in s && key in table && name in table[key].pool ==> key in s
  }

  /** Every element was chosen, or is a package depending on an element added before it. */
  predicate Justified(rel: seq<string>, seeds: seq<string>, table: map<string, Entry>) {
    forall i :: 0 <= i < |rel| ==> rel[i] in seeds || Depends(rel, i, table)
  }

  predicate Depends(rel: seq<string>, i: int, table: map<string, Entry>)
    requires 0 <= i < |rel|
  {
    rel[i] in table && exists j :: 0 <= j < i && rel[j] in table[rel[i]].pool
  }

  function Remaining(order: seq<string>, rel: seq<string>): set<string> {
    set k | k in order && k !in rel
  }

  /**
   * The inner loop of `doit` for the name at position `i`: every package,
   * in map order, whose pool holds that name and that is not yet in the
   * set is appended.
   */
  method AddDependants(rel0: seq<string>, i: nat, order: seq<string>, table: map<string, Entry>) returns (rel: seq<string>)
    requires forall k :: k in table <==> k in order
    requires i < |rel0| && NoDup(rel0)
    ensures |rel| >= |rel0| && rel[..|rel0|] == rel0
    ensures NoDup(rel)
    ensures forall key :: key in table && rel0[i] in table[key].pool ==> key in rel
    ensures forall a :: |rel0| <= a < |rel| ==> rel[a] in table && rel0[i] in table[rel[a]].pool
    ensures (forall key :: key in table && rel0[i] in table[key].pool ==> key in rel0) ==> rel == rel0
    ensures Remaining(order, rel) <= Remaining(order, rel0)
    ensures |rel| > |rel0| ==> Remaining(order, rel) < Remaining(order, rel0)
  {
    var name := rel0[i];
    rel := rel0;
    var j := 0;
    while j < |order|
      invariant 0 <= j <= |order|
      invariant |rel| >= |rel0| && rel[..|rel0|] == rel0
      invariant NoDup(rel)
      invariant forall a :: |rel0| <= a < |rel| ==> rel[a] in table && name in table[rel[a]].pool
      invariant (forall key :: key in table && name in table[key].pool ==> key in rel0) ==> rel == rel0
      invariant forall jj :: 0 <= jj < j && name in table[order[jj]].pool ==> order[jj] in rel
      invariant Remaining(order, rel) <= Remaining(order, rel0)
      invariant |rel| > |rel0| ==> Remaining(order, rel) < Remaining(order, rel0)
    {
      var key := order[j];
      if key != name && name in table[key].pool && key !in rel {
        assert key in Remaining(order, rel);
        rel := rel + [key];
      }
      j := j + 1;
    }
    assert rel[i] == name;
    forall key | key in table && name in table[key].pool
      ensures key in rel
    {
      var jj :| 0 <= jj < |order| && order[jj] == key;
    }
  }

  /** Packages added while visiting position `i` depend on the name at `i`. */
  lemma DependsStep(before: seq<string>, rel: seq<string>, i: nat, table: map<string, Entry>)
    requires i < |before| <= |rel| && rel[..|before|] == before
    requires forall a :: |before| <= a < |rel| ==> rel[a] in table && before[i] in table[rel[a]].pool
    ensures forall a :: |before| <= a < |rel| ==> Depends(rel, a, table)
  {
    forall a | |before| <= a < |rel|
      ensures Depends(rel, a, table)
    {
      assert rel[i] == before[i];
    }
  }

  /** After visiting position `i`, every dependant of positions up to `i` is in the set. */
  lemma ClosedStep(before: seq<string>, rel: seq<string>, i: nat, table: map<string, Entry>)
    requires i < |before| <= |rel| && rel[..|before|] == before
    requires forall a, key :: 0 <= a < i && key in table && before[a] in table[key].pool ==> key in before
    requires forall key :: key in table && before[i] in table[key].pool ==> key in rel
    ensures forall a, key :: 0 <= a < i + 1 && key in table && rel[a] in table[key].pool ==> key in rel
  {
    forall a, key | 0 <= a < i + 1 && key in table && rel[a] in table[key].pool
      ensures key in rel
    {
      assert rel[a] == before[a];
      if a < i {
        assert key in before;
      }
    }
  }

  /** Extending the set keeps the earlier elements' justifications. */
  lemma ExtendKeeps(rel0: seq<string>, rel: seq<string>, table: map<string, Entry>)
    requires |rel| >= |rel0| && rel[..|rel0|] == rel0
    ensures forall a :: 0 <= a < |rel0| && Depends(rel0, a, table) ==> Depends(rel, a, table)
  {
    forall a | 0 <= a < |rel0| && Depends(rel0, a, table)
      ensures Depends(rel, a, table)
    {
      var j :| 0 <= j < a && rel0[j] in table[rel0[a]].pool;
      assert rel[j] == rel0[j] && rel[a] == rel0[a];
    }
  }

  /**
   * `doit`: walks `relatives` while it grows (a `Set` iterator also visits
   * elements added during the walk) and adds every package whose pool
   * holds the current name. One walk therefore already closes the set.
   */
  method Doit(rel0: seq<string>, order: seq<string>, table: map<string, Entry>) returns (rel: seq<string>, next: bool)
    requires forall k :: k in table <==> k in order
    requires NoDup(rel0)
    ensures |rel| >= |rel0| && rel[..|rel0|] == rel0
    ensures NoDup(rel)
    ensures Closed(rel, table)
    ensures next <==> |rel| > |rel0|
    ensures Closed(rel0, table) ==> !next
    ensures forall i :: |rel0| <= i < |rel| ==> Depends(rel, i, table)
  {
    rel, next := rel0, false;
    var i := 0;
    while i < |rel|
      invariant 0 <= i <= |rel|
      invariant |rel| >= |rel0| && rel[..|rel0|] == rel0
      invariant NoDup(rel)
      invariant next <==> |rel| > |rel0|
      invariant Closed(rel0, table) ==> rel == rel0
      invariant forall a, key :: 0 <= a < i && key in table && rel[a] in table[key].pool ==> key in rel
      invariant forall a :: |rel0| <= a < |rel| ==> Depends(rel, a, table)
      decreases Remaining(order, rel), |rel| - i
    {
      var before := rel;
      if Closed(rel0, table) {
        assert before[i] in rel0;
      }
      rel := AddDependants(rel, i, order, table);
      next := next || |rel| > |before|;
      ExtendKeeps(before, rel, table);
      DependsStep(before, rel, i, table);
      ClosedStep(before, rel, i, table);
      i := i + 1;
    }
  }

  /**
   * `new Set(target)` followed by `while (next) next = doit()`. The loop
   * runs at most twice: the first walk closes the set, so the second
   * finds nothing to add.
   */
  method Relatives(target: seq<string>, order: seq<string>, table: map<string, Entry>) returns (rel: seq<string>)
    requires forall k :: k in table <==> k in order
    ensures forall x :: x in target ==> x in rel
    ensures NoDup(rel)
    ensures Closed(rel, table)
    ensures Justified(rel, target, table)
  {
    rel := Distinct(target);
    var next := true;
    ghost var rounds := 0;
    while next
      invariant NoDup(rel)
      invariant forall x :: x in target ==> x in rel
      invariant Justified(rel, target, table)
      invariant rounds <= 2
      invariant rounds == 0 ==> next
      invariant rounds >= 1 ==> Closed(rel, table)
      invariant next ==> rounds <= 1
      decreases 2 - rounds
    {
      ghost var prev := rel;
      rel, next := Doit(rel, order, table);
      forall i | 0 <= i < |rel|
        ensures rel[i] in target || Depends(rel, i, table)
      {
        if i < |prev| {
          assert rel[i] == prev[i];
          if !(prev[i] in target) {
            var j :| 0 <= j < i && prev[j] in table[prev[i]].pool;
            assert rel[j] == prev[j];
          }
        }
      }
      rounds := rounds + 1;
    }
  }

  /** What `Relatives` returns is the least closed set containing the choice: every closed superset of the choice contains it. */
  lemma {:induction false} JustifiedIsLeast(rel: seq<string>, seeds: seq<string>, table: map<string, Entry>, s: set<string>, n: nat)
    requires n <= |rel|
    requires Justified(rel, seeds, table)
    requires forall x :: x in seeds ==> x in s
    requires ClosedSet(s, table)
    ensures forall i :: 0 <= i < n ==> rel[i] in s
  {
    if n > 0 {
      JustifiedIsLeast(rel, seeds, table, s, n - 1);
      if rel[n - 1] !in seeds {
        var j :| 0 <= j < n - 1 && rel[j] in table[rel[n - 1]].pool;
      }
    }
  }

  // ---------------------------------------------------------------------
  // Bumping versions
  // ---------------------------------------------------------------------

  predicate NoDot(s: string) {
    forall k :: 0 <= k < |s| ==> s[k] != '.'
  }

  /** `version.split('.')`. */
  function Split(s: string): (r: seq<string>)
    ensures |r| >= 1
    decreases |s|
  {
    if s == [] then [""]
    else if s[0] == '.' then [""] + Split(s[1..])
    else
      var t := Split(s[1..]);
      [[s[0]] + t[0]] + t[1..]
  }

  /** A missing part of the split prints as `undefined` in the template. */
  function Part(parts: seq<string>, i: nat): string {
    if i < |parts| then parts[i] else "undefined"
  }

  predicate IsDigit(c: char) {
    '0' <= c <= '9'
  }

  predicate AllDigits(s: string) {
    forall k :: 0 <= k < |s| ==> IsDigit(s[k])
  }

  function Parse(s: string): nat
    requires AllDigits(s)
    decreases |s|
  {
    if s == [] then 0 else 10 * Parse(s[..|s| - 1]) + (s[|s| - 1] as int - '0' as int)
  }

  /** The decimal spelling of a number, as a template literal prints it. */
  function Decimal(n: nat): (r: string)
    ensures |r| >= 1
    decreases n
  {
    if n < 10 then [('0' as int + n) as char] else Decimal(n / 10) + [('0' as int + n % 10) as char]
  }

  /** `${Number(part) + 1}` for a part that is missing (`undefined`), empty, or made of decimal digits. */
  function NextPatch(part: Option<string>): string {
    match part
    case None => "NaN"
    case Some(s) => if AllDigits(s) then Decimal(Parse(s) + 1) else "NaN"
  }

  /** The new version: major and minor as they were, the patch number plus one. */
  function Bump(version: string): string {
    var sp := Split(version);
    Part(sp, 0) + "." + Part(sp, 1) + "." + NextPatch(if |sp| > 2 then Some(sp[2]) else None)
  }

  lemma {:induction false} DecimalDigits(n: nat)
    ensures AllDigits(Decimal(n)) && NoDot(Decimal(n))
    ensures Parse(Decimal(n)) == n
    decreases n
  {
    if n >= 10 {
      DecimalDigits(n / 10);
      var d := Decimal(n);
      assert d[..|d| - 1] == Decimal(n / 10);
    }
  }

  lemma {:induction false} SplitNoDotPrefix(a: string, rest: string)
    requires NoDot(a)
    ensures Split(a + rest) == [a + Split(rest)[0]] + Split(rest)[1..]
    decreases |a|
  {
    if a != [] {
      SplitNoDotPrefix(a[1..], rest);
      assert (a + rest)[1..] == a[1..] + rest;
      var t := Split(a[1..] + rest);
      assert t[0] == a[1..] + Split(rest)[0];
      assert t[1..] == Split(rest)[1..];
      assert [a[0]] + (a[1..] + Split(rest)[0]) == a + Split(rest)[0];
    } else {
      assert a + rest == rest;
      assert a + Split(rest)[0] == Split(rest)[0];
      assert Split(rest) == [Split(rest)[0]] + Split(rest)[1..];
    }
  }

  lemma SplitField(a: string, rest: string)
    requires NoDot(a)
    ensures Split(a + "." + rest) == [a] + Split(rest)
  {
    SplitNoDotPrefix(a, "." + rest);
    assert ("." + rest)[1..] == rest;
    assert Split("." + rest) == [""] + Split(rest);
    assert a + "" == a;
    assert a + "." + rest == a + ("." + rest);
  }

  lemma SplitLast(a: string)
    requires NoDot(a)
    ensures Split(a) == [a]
  {
    SplitNoDotPrefix(a, "");
    assert a + "" == a;
  }

  /** A version `major.minor.patch` becomes `major.minor.(patch + 1)`. */
  lemma BumpPatch(major: string, minor: string, patch: nat)
    requires NoDot(major) && NoDot(minor)
    ensures Bump(major + "." + minor + "." + Decimal(patch)) == major + "." + minor + "." + Decimal(patch + 1)
  {
    var p := Decimal(patch);
    DecimalDigits(patch);
    SplitLast(p);
    SplitField(minor, p);
    var v := major + "." + minor + "." + p;
    assert v == major + "." + (minor + "." + p);
    SplitField(major, minor + "." + p);
    assert Split(v) == [major, minor, p];
    assert NextPatch(Some(p)) == Decimal(patch + 1);
  }

  /** A version with no patch part gets the patch `NaN`. */
  lemma BumpWithoutPatch(major: string, minor: string)
    requires NoDot(major) && NoDot(minor)
    ensures Bump(major + "." + minor) == major + "." + minor + ".NaN"
  {
    SplitLast(minor);
    SplitField(major, minor);
  }

  /** The file written for `key`, holding its manifest with the version bumped. */
  function Written(table: map<string, Entry>, key: string): Write
    requires key in table
  {
    Write(table[key].file, table[key].pkg.(version := Bump(table[key].pkg.version)))
  }

  /** The writes of the bump loop: every package of the map, in its order, that is in `rel`. */
  function Bumped(order: seq<string>, table: map<string, Entry>, rel: seq<string>): seq<Write>
    requires forall k :: k in order ==> k in table
    decreases |order|
  {
    if order == [] then []
    else
      var init := Bumped(order[..|order| - 1], table, rel);
      var key := order[|order| - 1];
      if key in rel then init + [Written(table, key)] else init
  }

  /** The bump loop over `packages.entries()`. */
  method BumpRelatives(order: seq<string>, table: map<string, Entry>, rel: seq<string>) returns (writes: seq<Write>)
    requires forall k :: k in order ==> k in table
    ensures writes == Bumped(order, table, rel)
  {
    writes := [];
    var i := 0;
    while i < |order|
      invariant 0 <= i <= |order|
      invariant writes == Bumped(order[..i], table, rel)
    {
      var key := order[i];
      if key in rel {
        var e := table[key];
        writes := writes + [Write(e.file, e.pkg.(version := Bump(e.pkg.version)))];
      }
      assert order[..i + 1][..i] == order[..i];
      i := i + 1;
    }
    assert order[..|order|] == order;
  }

  /** A package of the map is written, with only its version changed, exactly when it is in `rel`. */
  lemma {:induction false} BumpedWrites(order: seq<string>, table: map<string, Entry>, rel: seq<string>, key: string)
    requires forall k :: k in order ==> k in table
    requires forall k :: k in table ==> table[k].pkg.name == k
    requires key in table
    ensures key in order && key in rel <==> Written(table, key) in Bumped(order, table, rel)
    decreases |order|
  {
    if order != [] {
      var init := order[..|order| - 1];
      var last := order[|order| - 1];
      BumpedWrites(init, table, rel, key);
      assert order == init + [last];
      if Written(table, key) == Written(table, last) {
        assert table[key].pkg.name == table[last].pkg.name;
      }
    }
  }

  /** Nothing else is written: every write belongs to a package of the map that is in `rel`. */
  lemma {:induction false} BumpedOnly(order: seq<string>, table: map<string, Entry>, rel: seq<string>, w: Write)
    requires forall k :: k in order ==> k in table
    requires w in Bumped(order, table, rel)
    ensures exists k :: k in order && k in rel && w == Written(table, k)
    decreases |order|
  {
    var init := order[..|order| - 1];
    var last := order[|order| - 1];
    if w in Bumped(init, table, rel) {
      BumpedOnly(init, table, rel, w);
      var k :| k in init && k in rel && w == Written(table, k);
      assert k in order;
    }
  }

  /**
   * The whole script after the manifests are read: `selection` is the
   * answer to the first prompt and `ok` the answer to the second.
   */
  method Release(ms: seq<Manifest>, selection: Selection, ok: bool) returns (relatives: seq<string>, writes: seq<Write>)
    ensures selection.NotAnArray? ==> relatives == [] && writes == []
    ensures selection.Chosen? ==>
      (forall x :: x in selection.names ==> x in relatives)
      && Closed(relatives, Load(ms).table) && Justified(relatives, selection.names, Load(ms).table)
    ensures writes == (if selection.Chosen? && ok then Bumped(Load(ms).order, Load(ms).table, relatives) else [])
  {
    var order, table := LoadPackages(ms);
    LoadOrder(ms);
    if selection.NotAnArray? {
      return [], [];
    }
    relatives := Relatives(selection.names, order, table);
    writes := [];
    if ok {
      writes := BumpRelatives(order, table, relatives);
    }
  }
}
