/** The store behind the menu service. The database-access layer is not part
    of this model; this module states, as functions over tables, the
    behaviour the menu service assumes of its find, update and delete calls.
    Inserts, which append a row, are modelled in the menu service. A table
    is a sequence of rows in store order; every row names its parent by id
    (a category its restaurant, a menu its category, a group its menu, an
    option its group). */
module MenuStore {
  import opened Wrappers

  datatype Row<T> = Row(id: nat, parent: nat, name: string, attrs: T)

  /** The ids listed in a request. */
  function IdsIn(ids: seq<nat>): set<nat>
  {
    set y | y in ids
  }

  /** The ids of the rows of a table. */
  function IdSet<T(==)>(s: seq<Row<T>>): set<nat>
  {
    set x {:trigger x in s} | x in s :: x.id
  }

  /** The ids of the rows whose parent is one of `parents`. */
  function ChildIds<T(==)>(s: seq<Row<T>>, parents: set<nat>): set<nat>
  {
    set x {:trigger x in s} | x in s && x.parent in parents :: x.id
  }

  /** Every row's parent is in `ps`: no row is left without its parent. */
  ghost predicate ParentsIn<T>(s: seq<Row<T>>, ps: set<nat>)
  {
    forall x {:trigger x in s} :: x in s ==> x.parent in ps
  }

  /** Every id of the table is below `next`, the next id the store hands out. */
  ghost predicate IdsBelow<T>(s: seq<Row<T>>, next: nat)
  {
    forall x {:trigger x in s} :: x in s ==> x.id < next
  }

  /** Ids increase in store order, so no two rows share an id. */
  ghost predicate Increasing<T>(s: seq<Row<T>>)
  {
    forall i, j :: 0 <= i < j < |s| ==> s[i].id < s[j].id
  }

  // ---------------------------------------------------------------------
  // The assumed semantics of the database-access calls
  // ---------------------------------------------------------------------

  /** find_*s_by_<parent>: every row of the parent, in store order. */
  function Children<T(==)>(s: seq<Row<T>>, parent: nat): (r: seq<Row<T>>)
    ensures forall x {:trigger x in r} :: x in r ==> x in s && x.parent == parent
    ensures forall x {:trigger x in s} :: x in s && x.parent == parent ==> x in r
    ensures |r| <= |s|
  {
    if s == [] then []
    else
      assert forall x :: x in s ==> x == s[0] || x in s[1..];
      (if s[0].parent == parent then [s[0]] else []) + Children(s[1..], parent)
  }

  /** find_*_by_name: the first row of the parent with that name, or the
      empty entity (None) when there is none. */
  function FindByName<T(==)>(s: seq<Row<T>>, parent: nat, name: string): (r: Option<Row<T>>)
    ensures r.Some? <==> exists x {:trigger x in s} :: x in s && x.parent == parent && x.name == name
    ensures r.Some? ==> r.value in s && r.value.parent == parent && r.value.name == name
  {
    if s == [] then None
    else if s[0].parent == parent && s[0].name == name then assert s[0] in s; Some(s[0])
    else
      assert forall x :: x in s ==> x == s[0] || x in s[1..];
      FindByName(s[1..], parent, name)
  }

  /** find_*_by_id: the row with that id, or None when there is none. */
  function FindById<T(==)>(s: seq<Row<T>>, id: nat): (r: Option<Row<T>>)
    ensures r.Some? <==> id in IdSet(s)
    ensures r.Some? ==> r.value in s && r.value.id == id
  {
    if s == [] then None
    else if s[0].id == id then assert s[0] in s; Some(s[0])
    else
      var r := FindById(s[1..], id);
      assert id in IdSet(s[1..]) <==> id in IdSet(s) by {
        if id in IdSet(s[1..]) {
          var x :| x in s[1..] && x.id == id;
          assert x in s;
        }
        if id in IdSet(s) {
          var x :| x in s && x.id == id;
          assert x in s[1..] by { assert x != s[0]; }
        }
      }
      r
  }

  /** delete_*(ids): every row whose id is listed goes, the rest stay in
      order. */
  function WithoutIds<T(==)>(s: seq<Row<T>>, ids: set<nat>): (r: seq<Row<T>>)
    ensures forall x {:trigger x in r} :: x in r ==> x in s && x.id !in ids
    ensures forall x {:trigger x in s} :: x in s && x.id !in ids ==> x in r
    ensures |r| <= |s|
  {
    if s == [] then []
    else
      assert forall x :: x in s ==> x == s[0] || x in s[1..];
      (if s[0].id in ids then [] else [s[0]]) + WithoutIds(s[1..], ids)
  }

  /** update_*(id, data): the row with that id becomes `edit` of itself;
      every other row is unchanged. */
  function Updated<T>(s: seq<Row<T>>, id: nat, edit: Row<T> -> Row<T>): (r: seq<Row<T>>)
    ensures |r| == |s|
    ensures forall i :: 0 <= i < |s| && s[i].id != id ==> r[i] == s[i]
    ensures forall i :: 0 <= i < |s| && s[i].id == id ==> r[i] == edit(s[i])
  {
    if s == [] then [] else [if s[0].id == id then edit(s[0]) else s[0]] + Updated(s[1..], id, edit)
  }

  // ---------------------------------------------------------------------
  // Lemmas about the tables
  // ---------------------------------------------------------------------

  /** The ids collected from a list of rows are exactly that list's ids. */
  lemma CollectedIds<T>(ids: seq<nat>, rows: seq<Row<T>>)
    requires |ids| == |rows|
    requires forall t :: 0 <= t < |rows| ==> ids[t] == rows[t].id
    ensures IdsIn(ids) == IdSet(rows)
  {
    forall y | y in IdsIn(ids) ensures y in IdSet(rows) {
      var t :| 0 <= t < |ids| && ids[t] == y;
      assert rows[t] in rows;
    }
    forall y | y in IdSet(rows) ensures y in IdsIn(ids) {
      var x :| x in rows && x.id == y;
      var t :| 0 <= t < |rows| && rows[t] == x;
      assert ids[t] == y;
    }
  }

  /** The ids of a parent's children are the child ids of that parent. */
  lemma ChildrenIds<T>(s: seq<Row<T>>, parent: nat)
    ensures IdSet(Children(s, parent)) == ChildIds(s, {parent})
  {
    var r := Children(s, parent);
    forall y | y in ChildIds(s, {parent}) ensures y in IdSet(r) {
      var x :| x in s && x.parent in {parent} && x.id == y;
      assert x in r;
    }
  }

  lemma {:induction false} WithoutNothing<T>(s: seq<Row<T>>)
    ensures WithoutIds(s, {}) == s
  {
    if s != [] {
      WithoutNothing(s[1..]);
      assert s == [s[0]] + s[1..];
    }
  }

  /** Deleting two lists of ids one after the other deletes their union. */
  lemma {:induction false} WithoutIdsTwice<T>(s: seq<Row<T>>, a: set<nat>, b: set<nat>)
    ensures WithoutIds(WithoutIds(s, a), b) == WithoutIds(s, a + b)
  {
    if s != [] {
      WithoutIdsTwice(s[1..], a, b);
      var w := WithoutIds(s, a);
      if s[0].id !in a {
        assert w == [s[0]] + WithoutIds(s[1..], a);
        assert w[1..] == WithoutIds(s[1..], a);
      } else {
        assert w == WithoutIds(s[1..], a);
      }
    }
  }

  /** One step of a cascading delete: after the children of `ps` are gone,
      deleting the children of `qs` that remain leaves exactly the rows that
      are children of neither. */
  lemma CascadeStep<T>(s: seq<Row<T>>, ps: set<nat>, qs: set<nat>)
    ensures ChildIds(s, ps) + ChildIds(WithoutIds(s, ChildIds(s, ps)), qs) == ChildIds(s, ps + qs)
    ensures WithoutIds(WithoutIds(s, ChildIds(s, ps)), ChildIds(WithoutIds(s, ChildIds(s, ps)), qs))
         == WithoutIds(s, ChildIds(s, ps + qs))
  {
    var gone := ChildIds(s, ps);
    var rest := WithoutIds(s, gone);
    var more := ChildIds(rest, qs);
    forall y | y in ChildIds(s, ps + qs) ensures y in gone + more {
      var x :| x in s && x.parent in ps + qs && x.id == y;
      if x.id !in gone {
        assert x.parent !in ps;
        assert x in rest;
      }
    }
    forall y | y in more ensures y in ChildIds(s, ps + qs) {
      var x :| x in rest && x.parent in qs && x.id == y;
      assert x in s;
    }
    assert gone + more == ChildIds(s, ps + qs);
    WithoutIdsTwice(s, gone, more);
  }

  /** Deleting rows keeps ids increasing. */
  lemma {:induction false} WithoutIdsIncreasing<T>(s: seq<Row<T>>, ids: set<nat>)
    requires Increasing(s)
    ensures Increasing(WithoutIds(s, ids))
  {
    if s != [] {
      TailIncreasing(s);
      WithoutIdsIncreasing(s[1..], ids);
      if s[0].id !in ids {
        ConsIncreasing(s[0], WithoutIds(s[1..], ids));
      }
    }
  }

  lemma TailIncreasing<T>(s: seq<Row<T>>)
    requires Increasing(s) && s != []
    ensures Increasing(s[1..])
    ensures forall x {:trigger x in s[1..]} :: x in s[1..] ==> s[0].id < x.id
  {
    var tail := s[1..];
    forall i, j | 0 <= i < j < |tail| ensures tail[i].id < tail[j].id {
      assert tail[i] == s[i + 1] && tail[j] == s[j + 1];
    }
    forall x | x in tail ensures s[0].id < x.id {
      var t :| 0 <= t < |tail| && tail[t] == x;
      assert s[t + 1] == x;
    }
  }

  lemma ConsIncreasing<T>(h: Row<T>, w: seq<Row<T>>)
    requires Increasing(w)
    requires forall x {:trigger x in w} :: x in w ==> h.id < x.id
    ensures Increasing([h] + w)
  {
    var r := [h] + w;
    forall i, j | 0 <= i < j < |r| ensures r[i].id < r[j].id {
      assert r[j] == w[j - 1] && w[j - 1] in w;
      if i > 0 {
        assert r[i] == w[i - 1];
      }
    }
  }

  /** Appending a row whose id is above every stored id keeps ids
      increasing. */
  lemma AppendIncreasing<T>(s: seq<Row<T>>, r: Row<T>)
    requires Increasing(s) && IdsBelow(s, r.id)
    ensures Increasing(s + [r])
  {
    forall i | 0 <= i < |s| ensures s[i].id < r.id {
      assert s[i] in s;
    }
  }

  /** After deleting a set of parents together with all their children, every
      remaining child still has its parent. */
  lemma CascadeKeepsParents<T, U>(children: seq<Row<T>>, parents: seq<Row<U>>, gone: set<nat>)
    requires ParentsIn(children, IdSet(parents))
    ensures ParentsIn(WithoutIds(children, ChildIds(children, gone)), IdSet(WithoutIds(parents, gone)))
  {
    var kept := WithoutIds(parents, gone);
    forall x | x in WithoutIds(children, ChildIds(children, gone)) ensures x.parent in IdSet(kept) {
      assert x in children && x.parent !in gone;
      var p :| p in parents && p.id == x.parent;
      assert p in kept;
    }
  }

  /** Adding rows to the parent table keeps every child's parent present. */
  lemma ParentsInGrow<T, U>(children: seq<Row<T>>, parents: seq<Row<U>>, added: seq<Row<U>>)
    requires ParentsIn(children, IdSet(parents))
    ensures ParentsIn(children, IdSet(parents + added))
  {
    forall x | x in children ensures x.parent in IdSet(parents + added) {
      var p :| p in parents && p.id == x.parent;
      assert p in parents + added;
    }
  }

  /** Children of a concatenation are the children of each part in turn. */
  lemma {:induction false} ChildrenAppend<T>(a: seq<Row<T>>, b: seq<Row<T>>, parent: nat)
    ensures Children(a + b, parent) == Children(a, parent) + Children(b, parent)
  {
    if a != [] {
      assert (a + b)[1..] == a[1..] + b;
      ChildrenAppend(a[1..], b, parent);
    } else {
      assert a + b == b;
    }
  }

  /** A table none of whose rows has the parent yields no children. */
  lemma {:induction false} ChildrenNone<T>(s: seq<Row<T>>, parent: nat)
    requires forall x {:trigger x in s} :: x in s ==> x.parent != parent
    ensures Children(s, parent) == []
  {
    if s != [] {
      assert s[0] in s;
      assert forall x :: x in s[1..] ==> x in s;
      ChildrenNone(s[1..], parent);
    }
  }

  /** A table all of whose rows have the parent is its own child list. */
  lemma {:induction false} ChildrenAll<T>(s: seq<Row<T>>, parent: nat)
    requires forall x {:trigger x in s} :: x in s ==> x.parent == parent
    ensures Children(s, parent) == s
  {
    if s != [] {
      assert s[0] in s;
      assert forall x :: x in s[1..] ==> x in s;
      ChildrenAll(s[1..], parent);
      assert s == [s[0]] + s[1..];
    }
  }
}
