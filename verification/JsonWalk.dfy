/** Walking JSON documents: which paths a column's documents have, and the values found at each. */
module JsonWalk {
  import opened Wrappers
  import opened JsonPath

  const MAX_PATHS: nat := 500
  const MAX_DEPTH: nat := 32

  /** A document; an object's members are in the order of their keys. */
  datatype Json =
    | Obj(fields: seq<Field>) | Arr(items: seq<Json>) | Str(text: string) | Num(text: string) | Null | Bool(b: bool)
  datatype Field = Field(key: string, value: Json)

  /** A place in a document worth a row: a string or a number with its text, or a null with none. */
  datatype Leaf = Leaf(path: seq<Part>, name: string, value: Option<string>)

  function Leaves(v: Json, path: seq<Part>, name: string, depth: nat): seq<Leaf>
    decreases v, 1
  {
    if depth > MAX_DEPTH then []
    else match v
      case Obj(fields) => FieldLeaves(fields, path, depth)
      case Arr(items) => ItemLeaves(items, path, name, depth)
      case Str(text) => [Leaf(path, name, Some(text))]
      case Num(text) => [Leaf(path, name, Some(text))]
      case Null => [Leaf(path, name, None)]
      case Bool(_) => []
  }

  function FieldLeaves(fields: seq<Field>, path: seq<Part>, depth: nat): seq<Leaf>
    decreases fields, 0
  {
    if fields == [] then []
    else
      FieldLeaves(fields[..|fields| - 1], path, depth) +
      Leaves(fields[|fields| - 1].value, path + [Key(fields[|fields| - 1].key)], fields[|fields| - 1].key, depth + 1)
  }

  function ItemLeaves(items: seq<Json>, path: seq<Part>, name: string, depth: nat): seq<Leaf>
    decreases items, 0
  {
    if items == [] then []
    else ItemLeaves(items[..|items| - 1], path, name, depth) + Leaves(items[|items| - 1], path + [Element], name, depth + 1)
  }

  /** The leaves of all documents that are JSON, in order. */
  function AllLeaves(docs: seq<Option<Json>>): seq<Leaf> {
    if docs == [] then []
    else AllLeaves(docs[..|docs| - 1]) + (match docs[|docs| - 1] case None => [] case Some(v) => Leaves(v, [], "", 0))
  }

  function CountBad(docs: seq<Option<Json>>): nat {
    if docs == [] then 0 else CountBad(docs[..|docs| - 1]) + if docs[|docs| - 1].None? then 1 else 0
  }

  // What is found, said of the leaves alone.

  function Distinct(p: Printable, ls: seq<Leaf>): seq<string> {
    if ls == [] then []
    else
      var front := Distinct(p, ls[..|ls| - 1]);
      var path := Render(p, ls[|ls| - 1].path);
      if path in front then front else front + [path]
  }

  function ValuesAt(p: Printable, ls: seq<Leaf>, path: string): seq<string> {
    if ls == [] then []
    else
      var l := ls[|ls| - 1];
      ValuesAt(p, ls[..|ls| - 1], path) + if Render(p, l.path) == path && l.value.Some? then [l.value.value] else []
  }

  /** The name a path goes by: that of the first leaf found there, or the column's for one without. */
  function NameAt(p: Printable, ls: seq<Leaf>, path: string, column: string): string {
    if ls == [] then column
    else
      var front, l := ls[..|ls| - 1], ls[|ls| - 1];
      if path in Distinct(p, front) then NameAt(p, front, path, column)
      else if Render(p, l.path) == path && l.name != "" then l.name
      else column
  }

  datatype Entry = Entry(path: string, name: string, values: seq<string>)
  datatype Found = Found(paths: seq<Entry>, truncated: bool)

  function Kept(p: Printable, ls: seq<Leaf>): seq<string> {
    var all := Distinct(p, ls);
    if |all| <= 500 then all else all[..500]
  }

  /**
   The first five hundred paths are there, each once and in the order found, with every value found at it and
   its name, and `truncated` says whether there were more.
   */
  predicate Summarises(p: Printable, column: string, ls: seq<Leaf>, f: Found) {
    && EntriesOk(p, column, ls, f.paths, Kept(p, ls))
    && (f.truncated <==> |Distinct(p, ls)| > 500)
  }

  predicate EntriesOk(p: Printable, column: string, ls: seq<Leaf>, es: seq<Entry>, paths: seq<string>) {
    |es| == |paths| && forall i :: 0 <= i < |es| ==> EntryOk(p, column, ls, es[i], paths[i])
  }

  predicate EntryOk(p: Printable, column: string, ls: seq<Leaf>, e: Entry, path: string) {
    e.path == path && e.name == NameAt(p, ls, path, column) && e.values == ValuesAt(p, ls, path)
  }

  // What those functions come to.

  /** As many as there are texts that are not JSON. */
  lemma {:induction false} CountBadIs(docs: seq<Option<Json>>)
    ensures CountBad(docs) == |set i | 0 <= i < |docs| && docs[i].None?|
  {
    var bad := set i | 0 <= i < |docs| && docs[i].None?;
    if docs != [] {
      var n := |docs| - 1;
      var front := set i | 0 <= i < |docs[..n]| && docs[..n][i].None?;
      CountBadIs(docs[..n]);
      assert bad == if docs[n].None? then front + {n} else front;
    } else {
      assert bad == {};
    }
  }

  /** Leaf `i` is the first at this path. */
  predicate FirstAt(p: Printable, ls: seq<Leaf>, path: string, i: nat) {
    i < |ls| && Render(p, ls[i].path) == path && forall j :: 0 <= j < i ==> Render(p, ls[j].path) != path
  }

  lemma FirstStays(p: Printable, ls: seq<Leaf>, n: nat, path: string, i: nat)
    requires n <= |ls| && i < n
    ensures FirstAt(p, ls[..n], path, i) <==> FirstAt(p, ls, path, i)
  {
    hide Render;
    assert forall j :: 0 <= j < n ==> ls[..n][j] == ls[j];
  }

  /** The paths found are those of the leaves, each once. */
  lemma {:induction false} DistinctIff(p: Printable, ls: seq<Leaf>, path: string)
    ensures path in Distinct(p, ls) <==> exists i :: FirstAt(p, ls, path, i)
    ensures forall i, j :: 0 <= i < j < |Distinct(p, ls)| ==> Distinct(p, ls)[i] != Distinct(p, ls)[j]
  {
    hide Render;
    if ls != [] {
      var n := |ls| - 1;
      DistinctIff(p, ls[..n], path);
      forall i: nat | i < n ensures FirstAt(p, ls[..n], path, i) <==> FirstAt(p, ls, path, i) {
        FirstStays(p, ls, n, path, i);
      }
      if i :| FirstAt(p, ls[..n], path, i) {
        assert FirstAt(p, ls, path, i);
      } else if Render(p, ls[n].path) == path {
        FirstLast(p, ls, ls[..n], path);
      }
    }
  }

  /** A path of the last leaf that is at none before it. */
  lemma FirstLast(p: Printable, ls: seq<Leaf>, front: seq<Leaf>, path: string)
    requires ls != [] && front == ls[..|ls| - 1] && Render(p, ls[|ls| - 1].path) == path
    requires forall i :: !FirstAt(p, front, path, i)
    ensures FirstAt(p, ls, path, |ls| - 1)
  {
    hide Render;
    var n := |ls| - 1;
    forall j | 0 <= j < n ensures Render(p, ls[j].path) != path {
      if Render(p, ls[j].path) == path {
        assert front[j] == ls[j];
        var i := FirstExists(p, front, path, j);
      }
    }
  }

  lemma {:induction false} FirstExists(p: Printable, ls: seq<Leaf>, path: string, j: nat) returns (i: nat)
    requires j < |ls| && Render(p, ls[j].path) == path
    ensures FirstAt(p, ls, path, i)
  {
    hide Render;
    if k :| 0 <= k < j && Render(p, ls[k].path) == path {
      i := FirstExists(p, ls, path, k);
    } else {
      i := j;
    }
  }

  /** They come in the order they are first found in. */
  lemma {:induction false} DistinctOrder(p: Printable, ls: seq<Leaf>, k: nat, m: nat) returns (i: nat, j: nat)
    requires k < m < |Distinct(p, ls)|
    ensures i < j && FirstAt(p, ls, Distinct(p, ls)[k], i) && FirstAt(p, ls, Distinct(p, ls)[m], j)
  {
    hide Render, FirstAt;
    var n := |ls| - 1;
    var front, all := Distinct(p, ls[..n]), Distinct(p, ls);
    if m < |front| {
      i, j := DistinctOrder(p, ls[..n], k, m);
      InFront(p, ls[..n], front[m], j);
      InFront(p, ls[..n], front[k], i);
      FirstStays(p, ls, n, front[k], i);
      FirstStays(p, ls, n, front[m], j);
    } else {
      DistinctIff(p, ls[..n], front[k]);
      i :| FirstAt(p, ls[..n], front[k], i);
      InFront(p, ls[..n], front[k], i);
      FirstStays(p, ls, n, front[k], i);
      DistinctIff(p, ls[..n], all[m]);
      FirstLast(p, ls, ls[..n], all[m]);
      j := n;
    }
  }

  lemma InFront(p: Printable, ls: seq<Leaf>, path: string, i: nat)
    requires FirstAt(p, ls, path, i)
    ensures i < |ls|
  {
  }

  /** A path goes by the name of the first leaf found there, or by the column's if that has none. */
  lemma {:induction false} NameIs(p: Printable, ls: seq<Leaf>, path: string, column: string, i: nat)
    requires FirstAt(p, ls, path, i)
    ensures NameAt(p, ls, path, column) == if ls[i].name != "" then ls[i].name else column
  {
    hide Render;
    var n := |ls| - 1;
    DistinctIff(p, ls[..n], path);
    if i < n {
      FirstStays(p, ls, n, path, i);
      NameIs(p, ls[..n], path, column, i);
    } else {
      forall j: nat | j < n ensures !FirstAt(p, ls[..n], path, j) {
        FirstStays(p, ls, n, path, j);
      }
    }
  }

  // The recording as the program does it.

  function Find(es: seq<Entry>, path: string): (i: nat)
    ensures i <= |es| && (i < |es| ==> es[i].path == path)
    ensures forall k :: 0 <= k < i ==> es[k].path != path
  {
    if es == [] || es[0].path == path then 0 else 1 + Find(es[1..], path)
  }

  function Record(p: Printable, column: string, f: Found, l: Leaf): Found {
    var path := Render(p, l.path);
    var i := Find(f.paths, path);
    if i < |f.paths| then Noted(f, i, l.value)
    else if |f.paths| >= MAX_PATHS then f.(truncated := true)
    else Noted(f.(paths := f.paths + [Entry(path, if l.name == "" then column else l.name, [])]), i, l.value)
  }

  function Noted(f: Found, i: nat, v: Option<string>): Found
    requires i < |f.paths|
  {
    if v.None? then f else f.(paths := f.paths[i := f.paths[i].(values := f.paths[i].values + [v.value])])
  }

  function RecordAll(p: Printable, column: string, f: Found, ls: seq<Leaf>): Found {
    if ls == [] then f else Record(p, column, RecordAll(p, column, f, ls[..|ls| - 1]), ls[|ls| - 1])
  }

  lemma {:induction false} RecordAllConcat(p: Printable, column: string, f: Found, a: seq<Leaf>, b: seq<Leaf>)
    ensures RecordAll(p, column, f, a + b) == RecordAll(p, column, RecordAll(p, column, f, a), b)
  {
    hide Record;
    if b == [] {
      assert a + b == a;
    } else {
      assert (a + b)[..|a + b| - 1] == a + b[..|b| - 1];
      RecordAllConcat(p, column, f, a, b[..|b| - 1]);
    }
  }

  class Walker {
    const printable: Printable
    const column: string
    var paths: seq<Entry>
    var index: map<string, nat>
    var truncated: bool

    constructor (printable: Printable, column: string)
      ensures this.printable == printable && this.column == column && Valid() && View() == Found([], false)
    {
      this.printable, this.column := printable, column;
      paths, index, truncated := [], map[], false;
    }

    /** The index knows every path kept, and no other, and where it is first. */
    ghost predicate Valid()
      reads this
    {
      forall path :: if path in index then index[path] < |paths| && index[path] == Find(paths, path) else Find(paths, path) == |paths|
    }

    function View(): Found
      reads this
    {
      Found(paths, truncated)
    }

    /** A value found at a path that is there. */
    method Note(i: nat, v: Option<string>)
      requires Valid() && i < |paths|
      modifies `paths
      ensures Valid() && View() == Noted(old(View()), i, v)
    {
      if v.Some? {
        var e := paths[i].(values := paths[i].values + [v.value]);
        FindUpdated(paths, i, e);
        paths := paths[i := e];
      }
    }

    method AddPath(path: string, name: string)
      requires Valid() && path !in index
      modifies `paths, `index
      ensures Valid() && path in index && index[path] == |old(paths)|
      ensures paths == old(paths) + [Entry(path, if name == "" then column else name, [])]
    {
      var e := Entry(path, if name == "" then column else name, []);
      FindAppended(paths, e);
      index := index[path := |paths|];
      paths := paths + [e];
    }

    method Add(path: string, name: string, v: Option<string>, ghost parts: seq<Part>)
      requires Valid() && path == Render(printable, parts)
      modifies `paths, `index, `truncated
      ensures Valid() && View() == Record(printable, column, old(View()), Leaf(parts, name, v))
    {
      hide Render, Noted;
      assert if path in index then index[path] == Find(paths, path) < |paths| else Find(paths, path) == |paths|;
      if path !in index {
        if |paths| >= MAX_PATHS {
          truncated := true;
          return;
        }
        AddPath(path, name);
      }
      hide Valid, Find;
      Note(index[path], v);
    }

    method Walk(v: Json, path: string, name: string, depth: nat, ghost parts: seq<Part>)
      requires Valid() && path == Render(printable, parts)
      modifies `paths, `index, `truncated
      ensures Valid() && View() == RecordAll(printable, column, old(View()), Leaves(v, parts, name, depth))
      decreases v, 1
    {
      hide Render, Record, Find;
      if depth > MAX_DEPTH { return; }
      ghost var f := View();
      assert RecordAll(printable, column, f, []) == f;
      match v
      case Obj(fields) => WalkFields(fields, path, depth, parts);
      case Arr(items) => WalkItems(items, path, name, depth, parts);
      case Str(text) =>
        Add(path, name, Some(text), parts);
        OneLeaf(printable, column, f, Leaf(parts, name, Some(text)));
      case Num(text) =>
        Add(path, name, Some(text), parts);
        OneLeaf(printable, column, f, Leaf(parts, name, Some(text)));
      case Null =>
        Add(path, name, None, parts);
        OneLeaf(printable, column, f, Leaf(parts, name, None));
      case Bool(_) =>
    }

    method WalkFields(fields: seq<Field>, path: string, depth: nat, ghost parts: seq<Part>)
      requires Valid() && path == Render(printable, parts)
      modifies `paths, `index, `truncated
      ensures Valid() && View() == RecordAll(printable, column, old(View()), FieldLeaves(fields, parts, depth))
      decreases fields, 0
    {
      hide Record, Find, Leaves, Valid, Render, ChildPath;
      for i := 0 to |fields|
        invariant Valid() && View() == RecordAll(printable, column, old(View()), FieldLeaves(fields[..i], parts, depth))
      {
        var key := fields[i].key;
        assert fields[..i + 1][..i] == fields[..i];
        RenderKey(printable, parts, key);
        Walk(fields[i].value, ChildPath(printable, path, key), key, depth + 1, parts + [Key(key)]);
        RecordAllConcat(printable, column, old(View()), FieldLeaves(fields[..i], parts, depth),
                        Leaves(fields[i].value, parts + [Key(key)], key, depth + 1));
      }
      assert fields[..|fields|] == fields;
    }

    method WalkItems(items: seq<Json>, path: string, name: string, depth: nat, ghost parts: seq<Part>)
      requires Valid() && path == Render(printable, parts)
      modifies `paths, `index, `truncated
      ensures Valid() && View() == RecordAll(printable, column, old(View()), ItemLeaves(items, parts, name, depth))
      decreases items, 0
    {
      hide Record, Find, Leaves, Valid, Render, ChildPath;
      for i := 0 to |items|
        invariant Valid() && View() == RecordAll(printable, column, old(View()), ItemLeaves(items[..i], parts, name, depth))
      {
        assert items[..i + 1][..i] == items[..i];
        RenderElement(printable, parts);
        Walk(items[i], path + "[*]", name, depth + 1, parts + [Element]);
        RecordAllConcat(printable, column, old(View()), ItemLeaves(items[..i], parts, name, depth),
                        Leaves(items[i], parts + [Element], name, depth + 1));
      }
      assert items[..|items|] == items;
    }
  }

  lemma RenderKey(p: Printable, parts: seq<Part>, key: string)
    ensures Render(p, parts + [Key(key)]) == ChildPath(p, Render(p, parts), key)
  {
    assert (parts + [Key(key)])[..|parts|] == parts;
  }

  lemma RenderElement(p: Printable, parts: seq<Part>)
    ensures Render(p, parts + [Element]) == Render(p, parts) + "[*]"
  {
    assert (parts + [Element])[..|parts|] == parts;
  }

  lemma OneLeaf(p: Printable, column: string, f: Found, l: Leaf)
    ensures RecordAll(p, column, f, [l]) == Record(p, column, f, l)
  {
    hide Record;
    assert [l][..0] == [];
    assert RecordAll(p, column, f, []) == f;
  }

  lemma {:induction false} FindAppended(es: seq<Entry>, e: Entry)
    ensures forall path :: Find(es + [e], path) == FoundAfter(es, e, path)
  {
    forall path ensures Find(es + [e], path) == FoundAfter(es, e, path) {
      FindIn(es + [e], path, FoundAfter(es, e, path));
    }
  }

  /** Where a path is once an entry is added at the end. */
  function FoundAfter(es: seq<Entry>, e: Entry, path: string): nat {
    if Find(es, path) < |es| then Find(es, path) else if e.path == path then |es| else |es| + 1
  }

  lemma FindUpdated(es: seq<Entry>, i: nat, e: Entry)
    requires i < |es| && e.path == es[i].path
    ensures forall path :: Find(es[i := e], path) == Find(es, path)
  {
    forall path ensures Find(es[i := e], path) == Find(es, path) {
      FindIn(es[i := e], path, Find(es, path));
    }
  }

  /** The first place with a path is the one place with none before it. */
  lemma FindIn(es: seq<Entry>, path: string, i: nat)
    requires i <= |es| && (i < |es| ==> es[i].path == path) && forall k :: 0 <= k < i ==> es[k].path != path
    ensures Find(es, path) == i
  {
    var j := Find(es, path);
    assert !(j < i) && !(i < j);
  }

  /** Reads the documents of a column; one that is not JSON is counted and left out. */
  method WalkJson(printable: Printable, docs: seq<Option<Json>>, column: string) returns (f: Found, bad: nat)
    ensures bad == CountBad(docs)
    ensures Summarises(printable, column, AllLeaves(docs), f)
  {
    var w := new Walker(printable, column);
    bad := 0;
    hide Leaves, Record, Find, Summarises, Walker.Valid;
    for i := 0 to |docs|
      invariant w.Valid() && fresh(w) && w.printable == printable && w.column == column && bad == CountBad(docs[..i])
      invariant w.View() == RecordAll(printable, column, Found([], false), AllLeaves(docs[..i]))
    {
      assert docs[..i + 1][..i] == docs[..i];
      if docs[i].None? {
        bad := bad + 1;
        assert AllLeaves(docs[..i + 1]) == AllLeaves(docs[..i]);
      } else {
        w.Walk(docs[i].value, "$", "", 0, []);
        RecordAllConcat(printable, column, Found([], false), AllLeaves(docs[..i]), Leaves(docs[i].value, [], "", 0));
      }
    }
    assert docs[..|docs|] == docs;
    f := w.View();
    WalkSummarises(printable, column, AllLeaves(docs));
  }

  // What the recording comes to.

  lemma {:induction false} ValuesOfNone(p: Printable, ls: seq<Leaf>, path: string)
    requires path !in Distinct(p, ls)
    ensures ValuesAt(p, ls, path) == []
  {
    hide Render;
    if ls != [] {
      ValuesOfNone(p, ls[..|ls| - 1], path);
    }
  }

  lemma {:induction false} DistinctOnce(p: Printable, ls: seq<Leaf>)
    ensures forall i, j :: 0 <= i < j < |Distinct(p, ls)| ==> Distinct(p, ls)[i] != Distinct(p, ls)[j]
  {
    hide Render;
    if ls != [] {
      DistinctOnce(p, ls[..|ls| - 1]);
    }
  }

  /** Every entry but that of the last leaf's path is as it was. */
  lemma OtherEntry(p: Printable, column: string, ls: seq<Leaf>, e: Entry, path: string)
    requires ls != [] && path in Distinct(p, ls[..|ls| - 1]) && path != Render(p, ls[|ls| - 1].path)
    requires EntryOk(p, column, ls[..|ls| - 1], e, path)
    ensures EntryOk(p, column, ls, e, path)
  {
    hide Render;
  }

  lemma SameEntry(p: Printable, column: string, ls: seq<Leaf>, e: Entry)
    requires ls != []
    requires Render(p, ls[|ls| - 1].path) in Distinct(p, ls[..|ls| - 1])
    requires EntryOk(p, column, ls[..|ls| - 1], e, Render(p, ls[|ls| - 1].path))
    ensures var l := ls[|ls| - 1];
      EntryOk(p, column, ls, if l.value.Some? then e.(values := e.values + [l.value.value]) else e, Render(p, l.path))
  {
    hide Render;
  }

  lemma NewEntry(p: Printable, column: string, ls: seq<Leaf>)
    requires ls != [] && Render(p, ls[|ls| - 1].path) !in Distinct(p, ls[..|ls| - 1])
    ensures var l := ls[|ls| - 1];
      EntryOk(p, column, ls,
        Entry(Render(p, l.path), if l.name == "" then column else l.name, if l.value.Some? then [l.value.value] else []),
        Render(p, l.path))
  {
    hide Render;
    ValuesOfNone(p, ls[..|ls| - 1], Render(p, ls[|ls| - 1].path));
  }

  /** The paths kept are the first of those there are. */
  lemma KeptAre(p: Printable, column: string, ls: seq<Leaf>, f: Found)
    requires Summarises(p, column, ls, f)
    ensures forall i :: 0 <= i < |f.paths| ==> f.paths[i].path == Kept(p, ls)[i] && Kept(p, ls)[i] in Distinct(p, ls)
    ensures |f.paths| <= MAX_PATHS && (|f.paths| < MAX_PATHS ==> Kept(p, ls) == Distinct(p, ls))
  {
    hide NameAt, ValuesAt, Distinct;
  }

  /** Entries of paths the last leaf is not at stay right. */
  lemma OtherEntries(p: Printable, column: string, ls: seq<Leaf>, es: seq<Entry>, paths: seq<string>)
    requires ls != [] && EntriesOk(p, column, ls[..|ls| - 1], es, paths)
    requires forall i :: 0 <= i < |paths| ==> paths[i] in Distinct(p, ls[..|ls| - 1]) && paths[i] != Render(p, ls[|ls| - 1].path)
    ensures EntriesOk(p, column, ls, es, paths)
  {
    hide Distinct, Render, EntryOk;
    forall i | 0 <= i < |es| ensures EntryOk(p, column, ls, es[i], paths[i]) {
      OtherEntry(p, column, ls, es[i], paths[i]);
    }
  }

  lemma UnknownIsNew(p: Printable, column: string, ls: seq<Leaf>, f: Found, path: string)
    requires Summarises(p, column, ls, f) && |f.paths| < MAX_PATHS
    requires forall i :: 0 <= i < |f.paths| ==> f.paths[i].path != path
    ensures path !in Distinct(p, ls)
  {
    hide Distinct, NameAt, ValuesAt;
    forall i | 0 <= i < |Distinct(p, ls)| ensures Distinct(p, ls)[i] != path {
      assert EntryOk(p, column, ls, f.paths[i], Kept(p, ls)[i]);
    }
  }

  lemma SummariseOne(p: Printable, column: string, ls: seq<Leaf>, f: Found)
    requires ls != [] && Summarises(p, column, ls[..|ls| - 1], f)
    ensures Summarises(p, column, ls, Record(p, column, f, ls[|ls| - 1]))
  {
    hide Summarises, Distinct, Render, NameAt, ValuesAt;
    var front, l := ls[..|ls| - 1], ls[|ls| - 1];
    var path := Render(p, l.path);
    KeptAre(p, column, front, f);
    var at := Find(f.paths, path);
    if at < |f.paths| {
      SummariseKnown(p, column, ls, f, at);
    } else if |f.paths| < MAX_PATHS {
      UnknownIsNew(p, column, front, f, path);
      SummariseNew(p, column, ls, f);
      var e := Entry(path, if l.name == "" then column else l.name, []);
      if l.value.Some? {
        var e2 := e.(values := [l.value.value]);
        assert e.values + [l.value.value] == e2.values;
        assert (f.paths + [e])[at := e2] == f.paths + [e2];
      }
    } else {
      SummariseFull(p, column, ls, f);
    }
  }

  lemma SummariseKnown(p: Printable, column: string, ls: seq<Leaf>, f: Found, at: nat)
    requires ls != [] && Summarises(p, column, ls[..|ls| - 1], f) && at < |f.paths|
    requires f.paths[at].path == Render(p, ls[|ls| - 1].path)
    ensures Summarises(p, column, ls, Noted(f, at, ls[|ls| - 1].value))
  {
    hide Render, NameAt, ValuesAt;
    var front, l := ls[..|ls| - 1], ls[|ls| - 1];
    KeptAre(p, column, front, f);
    DistinctOnce(p, front);
    assert Distinct(p, ls) == Distinct(p, front) && Kept(p, ls) == Kept(p, front);
    var g, paths := Noted(f, at, l.value), Kept(p, front);
    hide Distinct;
    forall i | 0 <= i < |g.paths| ensures EntryOk(p, column, ls, g.paths[i], paths[i]) {
      assert EntryOk(p, column, front, f.paths[i], paths[i]);
      hide EntryOk;
      if i == at {
        SameEntry(p, column, ls, f.paths[at]);
      } else {
        OtherEntry(p, column, ls, f.paths[i], paths[i]);
      }
    }
  }

  lemma SummariseNew(p: Printable, column: string, ls: seq<Leaf>, f: Found)
    requires ls != [] && Summarises(p, column, ls[..|ls| - 1], f) && |f.paths| < MAX_PATHS
    requires Render(p, ls[|ls| - 1].path) !in Distinct(p, ls[..|ls| - 1])
    ensures var l := ls[|ls| - 1];
      var e := Entry(Render(p, l.path), if l.name == "" then column else l.name, if l.value.Some? then [l.value.value] else []);
      Summarises(p, column, ls, f.(paths := f.paths + [e]))
  {
    hide Render, NameAt, ValuesAt, EntryOk;
    var front, path := ls[..|ls| - 1], Render(p, ls[|ls| - 1].path);
    KeptAre(p, column, front, f);
    NewEntry(p, column, ls);
    assert Distinct(p, ls) == Distinct(p, front) + [path];
    hide Distinct;
    OtherEntries(p, column, ls, f.paths, Kept(p, front));
    assert Kept(p, ls) == Kept(p, front) + [path];
  }

  lemma SummariseFull(p: Printable, column: string, ls: seq<Leaf>, f: Found)
    requires ls != [] && Summarises(p, column, ls[..|ls| - 1], f) && |f.paths| >= MAX_PATHS
    requires forall i :: 0 <= i < |f.paths| ==> f.paths[i].path != Render(p, ls[|ls| - 1].path)
    ensures Summarises(p, column, ls, f.(truncated := true))
  {
    hide Render, NameAt, ValuesAt;
    var front, path := ls[..|ls| - 1], Render(p, ls[|ls| - 1].path);
    KeptAre(p, column, front, f);
    assert |Distinct(p, ls)| > MAX_PATHS by {
      if path in Distinct(p, front) {
        var i :| 0 <= i < |Distinct(p, front)| && Distinct(p, front)[i] == path;
        assert i >= MAX_PATHS;
      }
    }
    assert Kept(p, ls) == Kept(p, front);
    hide Distinct;
    OtherEntries(p, column, ls, f.paths, Kept(p, front));
  }

  /**
   For every list of leaves: the first five hundred distinct paths are kept, each once, with all the values found
   there and in order; nothing else is; and `truncated` is set exactly when there were more than five hundred.
   */
  lemma {:induction false} WalkSummarises(p: Printable, column: string, ls: seq<Leaf>)
    ensures Summarises(p, column, ls, RecordAll(p, column, Found([], false), ls))
  {
    if ls != [] {
      WalkSummarises(p, column, ls[..|ls| - 1]);
      hide Summarises, Record;
      SummariseOne(p, column, ls, RecordAll(p, column, Found([], false), ls[..|ls| - 1]));
    }
  }

  /** Two leaves share an entry exactly when they are at the same path: no two paths have one text. */
  lemma EntriesAreOfPaths(p: Printable, a: Leaf, b: Leaf)
    ensures Render(p, a.path) == Render(p, b.path) <==> a.path == b.path
  {
    if Render(p, a.path) == Render(p, b.path) {
      RenderInjective(p, a.path, b.path);
    }
  }
}
