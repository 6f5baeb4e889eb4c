/**
 Which leaves a document has, said by addresses: each string, number or null no deeper than thirty-two steps is
 walked exactly once, in document order, and so each of its values is recorded exactly once.
 */
module JsonPlaces {
  import opened Wrappers
  import opened JsonPath
  import opened JsonWalk

  type Address = seq<nat>

  /** Where an address leads: each step picks a member of an object or an element of an array by its place. */
  function Follow(v: Json, a: Address): Option<Json> {
    if a == [] then Some(v)
    else match v
      case Obj(fields) => if a[0] < |fields| then Follow(fields[a[0]].value, a[1..]) else None
      case Arr(items) => if a[0] < |items| then Follow(items[a[0]], a[1..]) else None
      case _ => None
  }

  predicate Scalar(v: Json) {
    v.Str? || v.Num? || v.Null?
  }

  function ScalarText(v: Json): Option<string> {
    match v
    case Str(text) => Some(text)
    case Num(text) => Some(text)
    case _ => None
  }

  /** The leaf an address leads to: its path, and the last key on the way as its name. */
  function LeafAt(v: Json, a: Address, path: seq<Part>, name: string): Leaf
    requires Follow(v, a).Some?
  {
    if a == [] then Leaf(path, name, ScalarText(v))
    else match v
      case Obj(fields) => LeafAt(fields[a[0]].value, a[1..], path + [Key(fields[a[0]].key)], fields[a[0]].key)
      case Arr(items) => LeafAt(items[a[0]], a[1..], path + [Element], name)
  }

  predicate Reaches(v: Json, a: Address, depth: nat) {
    depth + |a| <= 32 && Follow(v, a).Some? && Scalar(Follow(v, a).value)
  }

  /** Document order: the first step in which two addresses differ decides. */
  predicate Before(a: Address, b: Address) {
    b != [] && (a == [] || a[0] < b[0] || (a[0] == b[0] && Before(a[1..], b[1..])))
  }

  predicate InOrder(as_: seq<Address>) {
    forall i, j :: 0 <= i < j < |as_| ==> Before(as_[i], as_[j])
  }

  lemma {:induction false} BeforeIsStrict(a: Address)
    ensures !Before(a, a)
  {
    if a != [] {
      BeforeIsStrict(a[1..]);
    }
  }

  // The addresses of a document's leaves.

  function Under(i: nat, as_: seq<Address>): seq<Address> {
    seq(|as_|, k requires 0 <= k < |as_| => [i] + as_[k])
  }

  function Addresses(v: Json, depth: nat): seq<Address>
    decreases v, 1
  {
    if depth > MAX_DEPTH then []
    else match v
      case Obj(fields) => FieldAddresses(fields, depth)
      case Arr(items) => ItemAddresses(items, depth)
      case Bool(_) => []
      case _ => [[]]
  }

  function FieldAddresses(fields: seq<Field>, depth: nat): seq<Address>
    decreases fields, 0
  {
    if fields == [] then []
    else
      FieldAddresses(fields[..|fields| - 1], depth) + Under(|fields| - 1, Addresses(fields[|fields| - 1].value, depth + 1))
  }

  function ItemAddresses(items: seq<Json>, depth: nat): seq<Address>
    decreases items, 0
  {
    if items == [] then []
    else ItemAddresses(items[..|items| - 1], depth) + Under(|items| - 1, Addresses(items[|items| - 1], depth + 1))
  }

  /** The values of an object's members, to treat the two kinds of children alike. */
  function Values(fields: seq<Field>): seq<Json> {
    seq(|fields|, i requires 0 <= i < |fields| => fields[i].value)
  }

  lemma {:induction false} FieldsAsItems(fields: seq<Field>, depth: nat)
    ensures FieldAddresses(fields, depth) == ItemAddresses(Values(fields), depth)
  {
    hide Addresses, Under;
    if fields != [] {
      FieldsAsItems(fields[..|fields| - 1], depth);
      assert Values(fields)[..|fields| - 1] == Values(fields[..|fields| - 1]);
    }
  }

  // Every reaching address is there, and no other.

  lemma UnderHas(i: nat, as_: seq<Address>, a: Address)
    ensures a in Under(i, as_) <==> a != [] && a[0] == i && a[1..] in as_
  {
    if a != [] && a[0] == i && a[1..] in as_ {
      var k :| 0 <= k < |as_| && as_[k] == a[1..];
      assert Under(i, as_)[k] == a;
    }
    if a in Under(i, as_) {
      var k :| 0 <= k < |as_| && Under(i, as_)[k] == a;
      assert a[1..] == as_[k];
    }
  }

  lemma {:induction false} ItemsHave(items: seq<Json>, depth: nat, a: Address)
    ensures a in ItemAddresses(items, depth) <==> a != [] && a[0] < |items| && a[1..] in Addresses(items[a[0]], depth + 1)
  {
    hide Addresses, Under;
    if items != [] {
      var n := |items| - 1;
      ItemsHave(items[..n], depth, a);
      UnderHas(n, Addresses(items[n], depth + 1), a);
    }
  }

  lemma {:induction false} AddressesAreExact(v: Json, depth: nat, a: Address)
    ensures a in Addresses(v, depth) <==> Reaches(v, a, depth)
    decreases v
  {
    hide FieldAddresses, ItemAddresses;
    if depth <= MAX_DEPTH {
      match v
      case Obj(fields) =>
        FieldsAsItems(fields, depth);
        ItemsHave(Values(fields), depth, a);
        if a != [] && a[0] < |fields| {
          AddressesAreExact(fields[a[0]].value, depth + 1, a[1..]);
        }
      case Arr(items) =>
        ItemsHave(items, depth, a);
        if a != [] && a[0] < |items| {
          AddressesAreExact(items[a[0]], depth + 1, a[1..]);
        }
      case _ =>
    }
  }

  // In document order, so none is there twice.

  lemma UnderInOrder(i: nat, as_: seq<Address>)
    requires InOrder(as_)
    ensures InOrder(Under(i, as_))
  {
    var us := Under(i, as_);
    forall j, k | 0 <= j < k < |us| ensures Before(us[j], us[k]) {
      assert us[j][1..] == as_[j] && us[k][1..] == as_[k];
      assert Before(as_[j], as_[k]);
    }
  }

  lemma {:induction false} ItemsInOrder(items: seq<Json>, depth: nat)
    requires forall i :: 0 <= i < |items| ==> InOrder(Addresses(items[i], depth + 1))
    ensures InOrder(ItemAddresses(items, depth))
  {
    hide Addresses;
    if items != [] {
      var n := |items| - 1;
      ItemsInOrder(items[..n], depth);
      var front, last := ItemAddresses(items[..n], depth), Under(n, Addresses(items[n], depth + 1));
      UnderInOrder(n, Addresses(items[n], depth + 1));
      forall j, k | 0 <= j < |front| && 0 <= k < |last| ensures Before(front[j], last[k]) {
        ItemsHave(items[..n], depth, front[j]);
        UnderHas(n, Addresses(items[n], depth + 1), last[k]);
        hide Under, ItemAddresses;
        assert front[j] in front && last[k] in last;
      }
      hide Under;
      JoinedInOrder(front, last);
    }
  }

  lemma JoinedInOrder(a: seq<Address>, b: seq<Address>)
    requires InOrder(a) && InOrder(b)
    requires forall j, k :: 0 <= j < |a| && 0 <= k < |b| ==> Before(a[j], b[k])
    ensures InOrder(a + b)
  {
    hide Before;
  }

  lemma {:induction false} AddressesInOrder(v: Json, depth: nat)
    ensures InOrder(Addresses(v, depth))
    decreases v
  {
    hide FieldAddresses, ItemAddresses;
    if depth <= MAX_DEPTH {
      match v
      case Obj(fields) =>
        FieldsAsItems(fields, depth);
        forall i | 0 <= i < |fields| ensures InOrder(Addresses(Values(fields)[i], depth + 1)) {
          AddressesInOrder(fields[i].value, depth + 1);
        }
        ItemsInOrder(Values(fields), depth);
      case Arr(items) =>
        forall i | 0 <= i < |items| ensures InOrder(Addresses(items[i], depth + 1)) {
          AddressesInOrder(items[i], depth + 1);
        }
        ItemsInOrder(items, depth);
      case _ =>
    }
  }

  // The walk follows them one by one.

  /** Leaf after leaf is the one at address after address. */
  predicate Matches(v: Json, path: seq<Part>, name: string, ls: seq<Leaf>, as_: seq<Address>) {
    |ls| == |as_| && forall k :: 0 <= k < |ls| ==> Follow(v, as_[k]).Some? && ls[k] == LeafAt(v, as_[k], path, name)
  }

  lemma UnderMatches(v: Json, i: nat, child: Json, part: Part, path: seq<Part>, outer: string, name: string,
                     ls: seq<Leaf>, as_: seq<Address>)
    requires Matches(child, path + [part], name, ls, as_)
    requires (v.Obj? && i < |v.fields| && v.fields[i].value == child && part == Key(v.fields[i].key) && name == v.fields[i].key)
      || (v.Arr? && i < |v.items| && v.items[i] == child && part == Element && name == outer)
    ensures Matches(v, path, outer, ls, Under(i, as_))
  {
    var us := Under(i, as_);
    forall k | 0 <= k < |ls| ensures Follow(v, us[k]).Some? && ls[k] == LeafAt(v, us[k], path, outer) {
      assert us[k][1..] == as_[k] && us[k][0] == i;
      assert Follow(child, as_[k]).Some? && ls[k] == LeafAt(child, as_[k], path + [part], name);
    }
  }

  lemma MatchesConcat(v: Json, path: seq<Part>, name: string, a: seq<Leaf>, b: seq<Leaf>, x: seq<Address>, y: seq<Address>)
    requires Matches(v, path, name, a, x) && Matches(v, path, name, b, y)
    ensures Matches(v, path, name, a + b, x + y)
  {
    hide Follow, LeafAt;
    forall k | 0 <= k < |a + b| ensures Follow(v, (x + y)[k]).Some? && (a + b)[k] == LeafAt(v, (x + y)[k], path, name) {
      if k < |a| {
        assert (x + y)[k] == x[k];
      } else {
        assert (x + y)[k] == y[k - |a|];
      }
    }
  }

  /** The leaves of a document and its addresses, one for one. */
  predicate WalksAlike(v: Json, path: seq<Part>, name: string, depth: nat) {
    Matches(v, path, name, Leaves(v, path, name, depth), Addresses(v, depth))
  }

  lemma {:induction false} FieldsMatch(v: Json, n: nat, path: seq<Part>, name: string, depth: nat)
    requires v.Obj? && n <= |v.fields|
    requires forall i :: 0 <= i < n ==> var f := v.fields[i];
      WalksAlike(f.value, path + [Key(f.key)], f.key, depth + 1)
    ensures Matches(v, path, name, FieldLeaves(v.fields[..n], path, depth), FieldAddresses(v.fields[..n], depth))
  {
    hide Leaves, Addresses;
    if n > 0 {
      FieldsMatch(v, n - 1, path, name, depth);
      var f := v.fields[n - 1];
      var ls, as_ := Leaves(f.value, path + [Key(f.key)], f.key, depth + 1), Addresses(f.value, depth + 1);
      UnderMatches(v, n - 1, f.value, Key(f.key), path, name, f.key, ls, as_);
      hide Matches, Under;
      MatchesConcat(v, path, name, FieldLeaves(v.fields[..n - 1], path, depth), ls,
                    FieldAddresses(v.fields[..n - 1], depth), Under(n - 1, as_));
      assert v.fields[..n][..n - 1] == v.fields[..n - 1];
    }
  }

  lemma {:induction false} ItemsMatch(v: Json, n: nat, path: seq<Part>, name: string, depth: nat)
    requires v.Arr? && n <= |v.items|
    requires forall i :: 0 <= i < n ==>
      WalksAlike(v.items[i], path + [Element], name, depth + 1)
    ensures Matches(v, path, name, ItemLeaves(v.items[..n], path, name, depth), ItemAddresses(v.items[..n], depth))
  {
    hide Leaves, Addresses;
    if n > 0 {
      ItemsMatch(v, n - 1, path, name, depth);
      var x := v.items[n - 1];
      var ls, as_ := Leaves(x, path + [Element], name, depth + 1), Addresses(x, depth + 1);
      UnderMatches(v, n - 1, x, Element, path, name, name, ls, as_);
      hide Matches, Under;
      MatchesConcat(v, path, name, ItemLeaves(v.items[..n - 1], path, name, depth), ls,
                    ItemAddresses(v.items[..n - 1], depth), Under(n - 1, as_));
      assert v.items[..n][..n - 1] == v.items[..n - 1];
    }
  }

  lemma {:induction false} LeavesFollowAddresses(v: Json, path: seq<Part>, name: string, depth: nat)
    ensures WalksAlike(v, path, name, depth)
    decreases v
  {
    hide FieldLeaves, ItemLeaves, FieldAddresses, ItemAddresses;
    if depth <= MAX_DEPTH {
      match v
      case Obj(fields) =>
        forall i | 0 <= i < |fields|
          ensures WalksAlike(fields[i].value, path + [Key(fields[i].key)], fields[i].key, depth + 1)
        {
          LeavesFollowAddresses(fields[i].value, path + [Key(fields[i].key)], fields[i].key, depth + 1);
        }
        FieldsMatch(v, |fields|, path, name, depth);
        assert fields[..|fields|] == fields;
      case Arr(items) =>
        forall i | 0 <= i < |items|
          ensures WalksAlike(items[i], path + [Element], name, depth + 1)
        {
          LeavesFollowAddresses(items[i], path + [Element], name, depth + 1);
        }
        ItemsMatch(v, |items|, path, name, depth);
        assert items[..|items|] == items;
      case _ =>
    }
  }

  // All documents of a column.

  datatype Place = Place(doc: nat, at: Address)

  predicate IsPlace(docs: seq<Option<Json>>, p: Place) {
    p.doc < |docs| && docs[p.doc].Some? && Reaches(docs[p.doc].value, p.at, 0)
  }

  predicate Earlier(p: Place, q: Place) {
    p.doc < q.doc || (p.doc == q.doc && Before(p.at, q.at))
  }

  function InDoc(d: nat, as_: seq<Address>): seq<Place> {
    seq(|as_|, k requires 0 <= k < |as_| => Place(d, as_[k]))
  }

  function Places(docs: seq<Option<Json>>): seq<Place> {
    if docs == [] then []
    else
      var last := docs[|docs| - 1];
      Places(docs[..|docs| - 1]) + if last.None? then [] else InDoc(|docs| - 1, Addresses(last.value, 0))
  }

  /** The leaf at a place. */
  function LeafOf(docs: seq<Option<Json>>, p: Place): Leaf
    requires IsPlace(docs, p)
  {
    LeafAt(docs[p.doc].value, p.at, [], "")
  }

  lemma {:induction false} PlacesAreExact(docs: seq<Option<Json>>, p: Place)
    ensures p in Places(docs) <==> IsPlace(docs, p)
  {
    hide Addresses, Reaches;
    if docs != [] {
      var n := |docs| - 1;
      PlacesAreExact(docs[..n], p);
      if docs[n].Some? {
        var as_ := Addresses(docs[n].value, 0);
        AddressesAreExact(docs[n].value, 0, p.at);
        if p.doc == n && p.at in as_ {
          var k :| 0 <= k < |as_| && as_[k] == p.at;
          assert InDoc(n, as_)[k] == p;
        }
        if p in InDoc(n, as_) {
          var k :| 0 <= k < |as_| && InDoc(n, as_)[k] == p;
        }
      }
    }
  }

  lemma {:induction false} PlacesInOrder(docs: seq<Option<Json>>)
    ensures forall i, j :: 0 <= i < j < |Places(docs)| ==> Earlier(Places(docs)[i], Places(docs)[j])
  {
    hide Addresses;
    if docs != [] {
      var n := |docs| - 1;
      PlacesInOrder(docs[..n]);
      var front := Places(docs[..n]);
      forall i | 0 <= i < |front| ensures front[i].doc < n {
        PlacesAreExact(docs[..n], front[i]);
        assert front[i] in front;
      }
      if docs[n].Some? {
        AddressesInOrder(docs[n].value, 0);
      }
    }
  }

  /** Leaf after leaf of all documents is the one at place after place. */
  predicate Follows(docs: seq<Option<Json>>, ls: seq<Leaf>, ps: seq<Place>) {
    |ls| == |ps| && forall k :: 0 <= k < |ls| ==> IsPlace(docs, ps[k]) && ls[k] == LeafOf(docs, ps[k])
  }

  lemma DocFollows(docs: seq<Option<Json>>, d: nat)
    requires d < |docs| && docs[d].Some?
    ensures Follows(docs, Leaves(docs[d].value, [], "", 0), InDoc(d, Addresses(docs[d].value, 0)))
  {
    var v := docs[d].value;
    LeavesFollowAddresses(v, [], "", 0);
    var as_ := Addresses(v, 0);
    hide Leaves, Addresses, LeafAt;
    forall k | 0 <= k < |as_| ensures Reaches(v, as_[k], 0) {
      AddressesAreExact(v, 0, as_[k]);
    }
    hide Reaches;
  }

  lemma {:induction false} LeavesFollowPlaces(docs: seq<Option<Json>>, n: nat)
    requires n <= |docs|
    ensures Follows(docs, AllLeaves(docs[..n]), Places(docs[..n]))
  {
    hide Leaves, Addresses, LeafOf, IsPlace;
    if n > 0 {
      LeavesFollowPlaces(docs, n - 1);
      assert docs[..n][..n - 1] == docs[..n - 1];
      if docs[n - 1].Some? {
        DocFollows(docs, n - 1);
      }
    }
  }

  /**
   Every string, number or null of the documents, no deeper than thirty-two steps, is walked exactly once: the leaves
   are, one for one, those at the places listed, which are all the places there are, in document order.
   */
  lemma EveryLeafOnce(docs: seq<Option<Json>>, p: Place)
    ensures var ps, ls := Places(docs), AllLeaves(docs);
      && (p in ps <==> IsPlace(docs, p))
      && (forall i, j :: 0 <= i < j < |ps| ==> Earlier(ps[i], ps[j]) && ps[i] != ps[j])
      && Follows(docs, ls, ps)
  {
    PlacesAreExact(docs, p);
    PlacesInOrder(docs);
    LeavesFollowPlaces(docs, |docs|);
    assert docs[..|docs|] == docs;
    hide Places, AllLeaves, Follows, IsPlace;
    forall q: Place ensures !Earlier(q, q) {
      BeforeIsStrict(q.at);
    }
  }

  /** The texts at those of the places that are on a path, place by place. */
  function TextsAt(pr: Printable, docs: seq<Option<Json>>, ps: seq<Place>, path: string): seq<string>
    requires forall k :: 0 <= k < |ps| ==> IsPlace(docs, ps[k])
  {
    if ps == [] then []
    else
      var l := LeafOf(docs, ps[|ps| - 1]);
      TextsAt(pr, docs, ps[..|ps| - 1], path) + if Render(pr, l.path) == path && l.value.Some? then [l.value.value] else []
  }

  lemma {:induction false} ValuesFollow(pr: Printable, docs: seq<Option<Json>>, ls: seq<Leaf>, ps: seq<Place>, path: string)
    requires Follows(docs, ls, ps)
    ensures ValuesAt(pr, ls, path) == TextsAt(pr, docs, ps, path)
  {
    hide Render, LeafOf, IsPlace;
    if ls != [] {
      ValuesFollow(pr, docs, ls[..|ls| - 1], ps[..|ps| - 1], path);
    }
  }

  /** What is recorded at a path is the text at every place on it, each once and in document order. */
  lemma ValuesAreOfPlaces(pr: Printable, docs: seq<Option<Json>>, path: string)
    ensures Follows(docs, AllLeaves(docs), Places(docs))
    ensures ValuesAt(pr, AllLeaves(docs), path) == TextsAt(pr, docs, Places(docs), path)
  {
    LeavesFollowPlaces(docs, |docs|);
    assert docs[..|docs|] == docs;
    ValuesFollow(pr, docs, AllLeaves(docs), Places(docs), path);
  }
}
