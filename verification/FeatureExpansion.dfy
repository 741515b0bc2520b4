/**
 * Features of the published crate. An entry of a feature may name a feature of one of the internal
 * crates that are merged into it; such an entry is replaced by everything that feature stands for.
 */
module FeatureExpansion {
  import opened Common

  datatype Item = Text(text: string) | NotText

  datatype FeatureValue = List(items: seq<Item>) | NotAList

  /** The feature tables of the internal crates, by crate name. */
  type Tables = map<string, map<string, FeatureValue>>

  datatype Node = Node(crateName: string, feature: string)

  datatype Kind = Internal | Edge(node: Node) | Plain

  datatype ExpandError = Cycle(node: Node) | NotFound(node: Node) | NotArray(node: Node)

  // ---------------------------------------------------------------- reading an entry

  function StripQuestion(s: string): string {
    if s != [] && s[|s| - 1] == '?' then s[..|s| - 1] else s
  }

  function StripDep(s: string): string {
    if "dep:" <= s then s[4..] else s
  }

  /** The position of the first slash. */
  function Slash(s: string): (i: Option<nat>)
    ensures i.Some? ==> i.value < |s| && s[i.value] == '/' && '/' !in s[..i.value]
    ensures i.None? ==> '/' !in s
  {
    if s == [] then None
    else if s[0] == '/' then Some(0)
    else
      match Slash(s[1..])
      case None => None
      case Some(i) =>
        assert s[..i + 1] == [s[0]] + s[1..][..i];
        Some(i + 1)
  }

  function KindOf(t: Tables, entry: string): Kind {
    if StripQuestion(StripDep(entry)) in t then Internal
    else
      match Slash(entry)
      case None => Plain
      case Some(i) =>
        var crateName := StripQuestion(entry[..i]);
        if crateName in t then Edge(Node(crateName, entry[i + 1..])) else Plain
  }

  /** Names of crates have no slash, do not end in a question mark and do not start like a dependency. */
  predicate NamesAreCrates(t: Tables) {
    forall c :: c in t ==> '/' !in c && (c != [] ==> c[|c| - 1] != '?') && !("dep:" <= c)
  }

  lemma StrippedDep(c: string)
    ensures StripDep("dep:" + c) == c
  {
    assert ("dep:" + c)[4..] == c && "dep:" <= "dep:" + c;
  }

  lemma StrippedQuestion(c: string)
    ensures StripQuestion(c + "?") == c
  {
    assert (c + "?")[..|c|] == c;
  }

  lemma SlashKept(s: string)
    requires '/' in s
    ensures '/' in StripQuestion(StripDep(s))
  {
    var i :| 0 <= i < |s| && s[i] == '/';
    var d := StripDep(s);
    assert "dep:" <= s ==> s[..4] == "dep:" && i >= 4 && d[i - 4] == '/';
    assert '/' in d;
    var j :| 0 <= j < |d| && d[j] == '/';
    assert StripQuestion(d) != d ==> StripQuestion(d)[j] == '/';
  }

  /** An entry names an internal crate itself: as a dependency, as an optional one, or plainly. */
  predicate NamesCrate(entry: string, c: string) {
    entry == c || entry == c + "?" || entry == "dep:" + c || entry == "dep:" + c + "?"
  }

  /** An entry names a feature of an internal crate. */
  predicate NamesFeature(entry: string, n: Node) {
    entry == n.crateName + "/" + n.feature || entry == n.crateName + "?/" + n.feature
  }

  lemma CrateIff(t: Tables, entry: string)
    requires NamesAreCrates(t)
    ensures KindOf(t, entry) == Internal <==> exists c :: c in t && NamesCrate(entry, c)
  {
    var d := StripDep(entry);
    var c := StripQuestion(d);
    assert "dep:" <= entry ==> entry == "dep:" + d;
    assert c != d ==> d == c + "?";
    assert NamesCrate(entry, c);
    forall x | x in t && NamesCrate(entry, x) ensures x == c {
      NamedCrate(t, entry, x);
    }
  }

  lemma NamedCrate(t: Tables, entry: string, x: string)
    requires NamesAreCrates(t) && x in t && NamesCrate(entry, x)
    ensures StripQuestion(StripDep(entry)) == x
  {
    StrippedDep(x);
    StrippedDep(x + "?");
    StrippedQuestion(x);
    assert "dep:" + x + "?" == "dep:" + (x + "?");
    assert |x| >= 4 ==> (x + "?")[..4] == x[..4];
    assert |x| == 3 ==> (x + "?")[3] == '?';
  }

  lemma SlashAfter(c: string, f: string)
    requires '/' !in c
    ensures Slash(c + "/" + f) == Some(|c|)
  {
    var s := c + "/" + f;
    assert s[|c|] == '/';
    forall k | 0 <= k < |c| ensures s[k] != '/' {
      assert s[k] == c[k];
    }
    forall k | |c| < k <= |s| ensures '/' in s[..k] {
      assert s[..k][|c|] == '/';
    }
  }

  lemma NamedFeature(t: Tables, entry: string, n: Node)
    requires NamesAreCrates(t) && n.crateName in t && NamesFeature(entry, n)
    ensures KindOf(t, entry) == Edge(n)
  {
    var c := n.crateName;
    if entry == c + "/" + n.feature {
      EdgeText(t, c, n);
    } else {
      StrippedQuestion(c);
      assert entry == (c + "?") + "/" + n.feature;
      EdgeText(t, c + "?", n);
    }
  }

  lemma EdgeText(t: Tables, part: string, n: Node)
    requires NamesAreCrates(t) && n.crateName in t && '/' !in part && StripQuestion(part) == n.crateName
    ensures KindOf(t, part + "/" + n.feature) == Edge(n)
  {
    hide StripQuestion, StripDep, Slash;
    var entry := part + "/" + n.feature;
    SlashAfter(part, n.feature);
    assert entry[..|part|] == part && entry[|part| + 1..] == n.feature && entry[|part|] == '/';
    SlashKept(entry);
  }

  lemma Unstripped(s: string)
    ensures s == StripQuestion(s) || s == StripQuestion(s) + "?"
  {
  }

  lemma EdgeIsNamed(t: Tables, entry: string, n: Node)
    requires KindOf(t, entry) == Edge(n)
    ensures n.crateName in t && NamesFeature(entry, n)
  {
    hide StripQuestion, StripDep;
    var i := Slash(entry).value;
    Unstripped(entry[..i]);
    assert entry == entry[..i] + "/" + entry[i + 1..];
    assert n.crateName + "?/" + n.feature == n.crateName + "?" + "/" + n.feature;
  }

  /** The texts of internal edges are exactly crate/feature and crate?/feature. */
  lemma EdgeIff(t: Tables, entry: string, n: Node)
    requires NamesAreCrates(t)
    ensures KindOf(t, entry) == Edge(n) <==> n.crateName in t && NamesFeature(entry, n)
  {
    hide KindOf, NamesFeature;
    if KindOf(t, entry) == Edge(n) {
      EdgeIsNamed(t, entry, n);
    }
    if n.crateName in t && NamesFeature(entry, n) {
      NamedFeature(t, entry, n);
    }
  }

  predicate IsKnown(t: Tables, n: Node) {
    n.crateName in t && n.feature in t[n.crateName] && t[n.crateName][n.feature].List?
  }

  function Texts(items: seq<Item>): seq<string> {
    if items == [] then []
    else (if items[0].Text? then [items[0].text] else []) + Texts(items[1..])
  }

  /** A feature lists its texts; whatever else its list holds is passed over. */
  lemma {:induction false} TextsIff(items: seq<Item>, x: string)
    ensures x in Texts(items) <==> Text(x) in items
  {
    if items == [] {
    } else {
      TextsIff(items[1..], x);
      assert items == [items[0]] + items[1..];
    }
  }

  function Entries(t: Tables, n: Node): seq<string>
    requires IsKnown(t, n)
  {
    Texts(t[n.crateName][n.feature].items)
  }

  // ---------------------------------------------------------------- reachability

  predicate StepsTo(t: Tables, entry: string, next: string) {
    var k := KindOf(t, entry);
    k.Edge? && IsKnown(t, k.node) && next in Entries(t, k.node)
  }

  /** A way through the tables: each entry stands for a feature that lists the next one. */
  predicate PathFrom(t: Tables, start: string, path: seq<string>) {
    path != [] && path[0] == start && forall i :: 0 <= i < |path| - 1 ==> StepsTo(t, path[i], path[i + 1])
  }

  /** Everything that is left of `entry` when internal features are replaced by what they list. */
  ghost predicate Reaches(t: Tables, entry: string, x: string) {
    KindOf(t, x) == Plain && exists path :: PathFrom(t, entry, path) && path != [] && path[|path| - 1] == x
  }

  predicate Passes(t: Tables, path: seq<string>, n: Node) {
    exists i :: 0 <= i < |path| - 1 && KindOf(t, path[i]) == Edge(n)
  }

  /** What is wrong with the last entry of a path, if anything. */
  function Fault(t: Tables, path: seq<string>, stack: seq<Node>): Option<ExpandError>
    requires path != []
  {
    var k := KindOf(t, path[|path| - 1]);
    if !k.Edge? then None
    else if k.node in stack || Passes(t, path, k.node) then Some(Cycle(k.node))
    else if k.node.crateName !in t || k.node.feature !in t[k.node.crateName] then Some(NotFound(k.node))
    else if t[k.node.crateName][k.node.feature].NotAList? then Some(NotArray(k.node))
    else None
  }

  ghost predicate HasFault(t: Tables, entry: string, stack: seq<Node>, error: ExpandError) {
    exists path :: PathFrom(t, entry, path) && path != [] && Fault(t, path, stack) == Some(error)
  }

  /** No cycle, missing feature or malformed feature can be reached. */
  ghost predicate Sound(t: Tables, entry: string, stack: seq<Node>) {
    forall path :: PathFrom(t, entry, path) && path != [] ==> Fault(t, path, stack).None?
  }

  // ---------------------------------------------------------------- one step of the search

  lemma PathTail(t: Tables, entry: string, path: seq<string>)
    requires PathFrom(t, entry, path) && |path| > 1
    ensures StepsTo(t, entry, path[1]) && PathFrom(t, path[1], path[1..])
  {
    hide StepsTo;
    assert StepsTo(t, path[0], path[0 + 1]);
    forall i | 0 <= i < |path[1..]| - 1 ensures StepsTo(t, path[1..][i], path[1..][i + 1]) {
      assert StepsTo(t, path[i + 1], path[i + 1 + 1]);
    }
  }

  lemma PathCons(t: Tables, entry: string, next: string, path: seq<string>)
    requires StepsTo(t, entry, next) && PathFrom(t, next, path)
    ensures PathFrom(t, entry, [entry] + path)
  {
    hide StepsTo;
    var longer := [entry] + path;
    forall i | 0 <= i < |longer| - 1 ensures StepsTo(t, longer[i], longer[i + 1]) {
      if i > 0 { assert StepsTo(t, path[i - 1], path[i - 1 + 1]); }
    }
  }

  lemma PassesFirst(t: Tables, entry: string, n: Node, path: seq<string>)
    requires KindOf(t, entry) == Edge(n) && path != []
    ensures Passes(t, [entry] + path, n)
  {
    hide KindOf;
    assert KindOf(t, ([entry] + path)[0]) == Edge(n);
  }

  lemma PassesLater(t: Tables, entry: string, n: Node, path: seq<string>, m: Node)
    requires KindOf(t, entry) == Edge(n) && path != [] && m != n
    ensures Passes(t, [entry] + path, m) <==> Passes(t, path, m)
  {
    hide KindOf;
    var longer := [entry] + path;
    if Passes(t, path, m) {
      var i :| 0 <= i < |path| - 1 && KindOf(t, path[i]) == Edge(m);
      assert KindOf(t, longer[i + 1]) == Edge(m);
    }
    if Passes(t, longer, m) {
      var i :| 0 <= i < |longer| - 1 && KindOf(t, longer[i]) == Edge(m);
      assert i != 0 && KindOf(t, path[i - 1]) == Edge(m);
    }
  }

  /** A fault below an entry, seen from above: the entry's own node is on the stack for what it lists. */
  lemma FaultBelow(t: Tables, entry: string, n: Node, path: seq<string>, stack: seq<Node>)
    requires KindOf(t, entry) == Edge(n) && path != []
    ensures Fault(t, [entry] + path, stack) == Fault(t, path, stack + [n])
  {
    hide KindOf, Passes;
    var k := KindOf(t, path[|path| - 1]);
    assert ([entry] + path)[|path|] == path[|path| - 1];
    if k == Edge(n) {
      PassesFirst(t, entry, n, path);
    } else if k.Edge? {
      PassesLater(t, entry, n, path, k.node);
    }
  }

  lemma FaultFromChild(t: Tables, entry: string, n: Node, child: string, stack: seq<Node>, error: ExpandError)
    requires KindOf(t, entry) == Edge(n) && StepsTo(t, entry, child) && HasFault(t, child, stack + [n], error)
    ensures HasFault(t, entry, stack, error)
  {
    hide KindOf, StepsTo, PathFrom, Fault;
    var path :| PathFrom(t, child, path) && path != [] && Fault(t, path, stack + [n]) == Some(error);
    PathCons(t, entry, child, path);
    FaultBelow(t, entry, n, path, stack);
  }

  lemma PathNotEmpty(t: Tables, entry: string, path: seq<string>)
    requires PathFrom(t, entry, path)
    ensures path != [] && path[0] == entry
  {
  }

  lemma OwnFault(t: Tables, entry: string, stack: seq<Node>, error: ExpandError)
    requires Fault(t, [entry], stack) == Some(error)
    ensures HasFault(t, entry, stack, error)
  {
    assert PathFrom(t, entry, [entry]);
  }

  lemma NoFaultHere(t: Tables, entry: string, n: Node, stack: seq<Node>)
    requires KindOf(t, entry) == Edge(n) && IsKnown(t, n) && n !in stack
    ensures Fault(t, [entry], stack).None?
  {
    hide KindOf;
  }

  lemma ListedChild(t: Tables, entry: string, n: Node, child: string)
    requires KindOf(t, entry) == Edge(n) && IsKnown(t, n)
    ensures StepsTo(t, entry, child) <==> child in Entries(t, n)
  {
    hide KindOf;
  }

  lemma SoundFromChildren(t: Tables, entry: string, n: Node, stack: seq<Node>)
    requires KindOf(t, entry) == Edge(n) && IsKnown(t, n) && n !in stack
    requires forall child :: child in Entries(t, n) ==> Sound(t, child, stack + [n])
    ensures Sound(t, entry, stack)
  {
    hide KindOf, StepsTo, PathFrom, Fault, IsKnown, Entries;
    forall path | PathFrom(t, entry, path) && path != [] ensures Fault(t, path, stack).None? {
      PathNotEmpty(t, entry, path);
      if |path| == 1 {
        NoFaultHere(t, entry, n, stack);
        assert path == [entry];
      } else {
        PathTail(t, entry, path);
        ListedChild(t, entry, n, path[1]);
        FaultBelow(t, entry, n, path[1..], stack);
        assert path == [entry] + path[1..];
        assert Sound(t, path[1], stack + [n]);
      }
    }
  }

  lemma ReachesThroughChild(t: Tables, entry: string, n: Node, x: string)
    requires KindOf(t, entry) == Edge(n) && IsKnown(t, n)
    ensures Reaches(t, entry, x) <==> exists child :: child in Entries(t, n) && Reaches(t, child, x)
  {
    hide KindOf, StepsTo, PathFrom, IsKnown, Entries;
    if Reaches(t, entry, x) {
      var path :| PathFrom(t, entry, path) && path != [] && path[|path| - 1] == x;
      PathNotEmpty(t, entry, path);
      assert |path| > 1;
      PathTail(t, entry, path);
      ListedChild(t, entry, n, path[1]);
      assert path[1..][|path[1..]| - 1] == x;
      assert Reaches(t, path[1], x);
    }
    if child :| child in Entries(t, n) && Reaches(t, child, x) {
      var path :| PathFrom(t, child, path) && path != [] && path[|path| - 1] == x;
      ListedChild(t, entry, n, child);
      PathCons(t, entry, child, path);
      assert ([entry] + path)[|[entry] + path| - 1] == x;
    }
  }

  lemma LeafReaches(t: Tables, entry: string, x: string)
    requires !KindOf(t, entry).Edge?
    ensures Reaches(t, entry, x) <==> KindOf(t, entry) == Plain && x == entry
    ensures forall stack :: Sound(t, entry, stack)
  {
    forall path | PathFrom(t, entry, path) ensures path == [entry] {
      assert |path| > 1 ==> StepsTo(t, path[0], path[0 + 1]);
    }
    if KindOf(t, entry) == Plain {
      assert PathFrom(t, entry, [entry]) && [entry][|[entry]| - 1] == entry;
    }
  }

  // ---------------------------------------------------------------- the search

  predicate Distinct<T(==)>(s: seq<T>) {
    forall i, j :: 0 <= i < j < |s| ==> s[i] != s[j]
  }

  function Nodes(stack: seq<Node>): set<Node> {
    set n | n in stack
  }

  /** All features of all internal crates. */
  function AllNodes(t: Tables): set<Node> {
    set c, f | c in t && f in t[c] :: Node(c, f)
  }

  method AddNew(expanded: seq<string>, more: seq<string>) returns (all: seq<string>)
    requires Distinct(expanded)
    ensures Distinct(all) && expanded <= all
    ensures forall x :: x in all <==> x in expanded || x in more
  {
    all := expanded;
    for i := 0 to |more|
      invariant Distinct(all) && expanded <= all
      invariant forall x :: x in all <==> x in expanded || x in more[..i]
    {
      assert more[..i + 1] == more[..i] + [more[i]];
      if more[i] !in all {
        all := all + [more[i]];
      }
    }
    assert more[..|more|] == more;
  }

  /**
   * Depth-first replacement of one entry. It ends because each level puts a different internal
   * feature on the stack. It fails exactly when a cycle, a missing feature or a malformed one can be
   * reached, and then names one; otherwise it returns what can be reached, each entry once.
   */
  method ExpandEntry(t: Tables, entry: string, stack: seq<Node>) returns (r: Result<seq<string>, ExpandError>)
    ensures r.Ok? <==> Sound(t, entry, stack)
    ensures r.Err? ==> HasFault(t, entry, stack, r.error)
    ensures r.Ok? ==> Distinct(r.value) && forall x :: x in r.value <==> Reaches(t, entry, x)
    decreases AllNodes(t) - Nodes(stack), 1
  {
    var k := KindOf(t, entry);
    if !k.Edge? {
      forall x ensures Reaches(t, entry, x) <==> k == Plain && x == entry {
        LeafReaches(t, entry, x);
      }
      LeafReaches(t, entry, entry);
      return Ok(if k == Internal then [] else [entry]);
    }
    if k.node in stack {
      OwnFault(t, entry, stack, Cycle(k.node));
      return Err(Cycle(k.node));
    }
    if k.node.feature !in t[k.node.crateName] {
      OwnFault(t, entry, stack, NotFound(k.node));
      return Err(NotFound(k.node));
    }
    if t[k.node.crateName][k.node.feature].NotAList? {
      OwnFault(t, entry, stack, NotArray(k.node));
      return Err(NotArray(k.node));
    }
    assert k.node in AllNodes(t) - Nodes(stack) && k.node in Nodes(stack + [k.node]);
    r := ExpandList(t, Entries(t, k.node), stack + [k.node]);
    Assemble(t, entry, k.node, stack, r);
  }

  /** Replaces the entries of one feature, in order, keeping the first of equal results. */
  method ExpandList(t: Tables, entries: seq<string>, stack: seq<Node>) returns (r: Result<seq<string>, ExpandError>)
    ensures r.Ok? <==> forall entry :: entry in entries ==> Sound(t, entry, stack)
    ensures r.Err? ==> exists entry :: entry in entries && HasFault(t, entry, stack, r.error)
    ensures r.Ok? ==>
      Distinct(r.value) && forall x :: x in r.value <==> exists entry :: entry in entries && Reaches(t, entry, x)
    decreases AllNodes(t) - Nodes(stack), 2
  {
    hide HasFault, Sound, Reaches, AllNodes, Nodes;
    var expanded: seq<string> := [];
    for i := 0 to |entries|
      invariant Distinct(expanded)
      invariant forall k :: 0 <= k < i ==> Sound(t, entries[k], stack)
      invariant forall x :: x in expanded <==> exists k :: 0 <= k < i && Reaches(t, entries[k], x)
    {
      var one := ExpandEntry(t, entries[i], stack);
      if one.Err? {
        assert entries[i] in entries;
        return one;
      }
      expanded := AddNew(expanded, one.value);
    }
    return Ok(expanded);
  }

  lemma Assemble(t: Tables, entry: string, n: Node, stack: seq<Node>, r: Result<seq<string>, ExpandError>)
    requires KindOf(t, entry) == Edge(n) && IsKnown(t, n) && n !in stack
    requires r.Ok? ==> forall child :: child in Entries(t, n) ==> Sound(t, child, stack + [n])
    requires r.Ok? ==> forall x :: x in r.value <==> exists child :: child in Entries(t, n) && Reaches(t, child, x)
    requires r.Err? ==> exists child :: child in Entries(t, n) && HasFault(t, child, stack + [n], r.error)
    ensures r.Ok? ==> Sound(t, entry, stack) && forall x :: x in r.value <==> Reaches(t, entry, x)
    ensures r.Err? ==> HasFault(t, entry, stack, r.error) && !Sound(t, entry, stack)
  {
    if r.Ok? {
      SoundFromChildren(t, entry, n, stack);
      forall x ensures x in r.value <==> Reaches(t, entry, x) {
        ReachesThroughChild(t, entry, n, x);
      }
    } else {
      var child :| child in Entries(t, n) && HasFault(t, child, stack + [n], r.error);
      FaultFromChild(t, entry, n, child, stack, r.error);
    }
  }

  /** One feature of the published crate: fails exactly when one of its entries does. */
  method NormalizeFeature(t: Tables, value: FeatureValue) returns (r: Result<seq<string>, Option<ExpandError>>)
    ensures value.NotAList? ==> r == Err(None)
    ensures value.List? ==> (r.Ok? <==> forall entry :: entry in Texts(value.items) ==> Sound(t, entry, []))
    ensures value.List? && r.Err? ==>
      r.error.Some? && exists entry :: entry in Texts(value.items) && HasFault(t, entry, [], r.error.value)
    ensures value.List? && r.Ok? ==>
      && Distinct(r.value)
      && forall x :: x in r.value <==> exists entry :: entry in Texts(value.items) && Reaches(t, entry, x)
  {
    hide Sound, Reaches, HasFault;
    if value.NotAList? {
      return Err(None);
    }
    var expanded := ExpandList(t, Texts(value.items), []);
    if expanded.Err? {
      return Err(Some(expanded.error));
    }
    return Ok(expanded.value);
  }
}
