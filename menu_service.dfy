/** The menu service: a restaurant's menu categories, the menus of each
    category, the option groups of each menu and the options of each group.
    Uploads reject a name already used under the same parent, edits change
    only the fields the caller supplied, removals cascade from a category
    down to its options, and the list queries copy what is stored. */
module Menu {
  import opened Wrappers
  import opened MenuStore

  /** ConflictException, and the failure of a request whose parent id names
      nothing. */
  datatype Error = Conflict | NotFound

  datatype MenuAttrs = MenuAttrs(price: int, description: string, image: string)
  datatype GroupAttrs = GroupAttrs(maxCount: int)
  datatype OptionAttrs = OptionAttrs(price: int)

  /** A category's parent is its restaurant. */
  type CategoryRow = Row<()>
  type MenuRow = Row<MenuAttrs>
  type GroupRow = Row<GroupAttrs>
  type OptionRow = Row<OptionAttrs>

  /** The next id the store hands out, per table. */
  datatype NextIds = NextIds(category: nat, menu: nat, group: nat, option: nat)

  // ---------------------------------------------------------------------
  // Request payloads and results
  // ---------------------------------------------------------------------

  datatype OptionPayload = OptionPayload(name: string, price: int)
  /** `options == None`: the group's `option` is undefined or null. */
  datatype GroupPayload = GroupPayload(name: string, maxCount: int, options: Option<seq<OptionPayload>>)
  /** `groups == None`: the menu's `group` is undefined or null. */
  datatype MenuPayload = MenuPayload(categoryId: nat, name: string, price: int, description: string,
                                     image: string, groups: Option<seq<GroupPayload>>)

  datatype CategoryResult = CategoryResult(mcId: nat, name: string)
  datatype OptionResult = OptionResult(oId: nat, name: string, price: int)
  datatype GroupResult = GroupResult(gId: nat, name: string, maxCount: int, options: seq<OptionResult>)

  function CategoryView(c: CategoryRow): CategoryResult
  {
    CategoryResult(c.id, c.name)
  }

  function OptionView(o: OptionRow): OptionResult
  {
    OptionResult(o.id, o.name, o.attrs.price)
  }

  /** `rs` holds one result per row of `rows`, in order. */
  predicate OptionViews(rs: seq<OptionResult>, rows: seq<OptionRow>)
  {
    |rs| == |rows| && forall j :: 0 <= j < |rows| ==> rs[j] == OptionView(rows[j])
  }

  // ---------------------------------------------------------------------
  // Partial updates
  // ---------------------------------------------------------------------

  /** A value of an edit request's data dictionary. */
  datatype Value = Text(text: string) | Number(number: int)

  datatype MenuField = MenuName | MenuPrice | MenuDescription | MenuImage
  datatype GroupField = GroupName | GroupMaxCount
  datatype OptionField = OptionName | OptionPrice

  function TextValue(v: Option<string>): Option<Value>
  {
    if v.Some? then Some(Text(v.value)) else None
  }

  function NumberValue(v: Option<int>): Option<Value>
  {
    if v.Some? then Some(Number(v.value)) else None
  }

  /** The stored text, or the one the edit data gives for `key`. */
  function TextOr<K>(edit: map<K, Value>, key: K, current: string): string
  {
    if key in edit && edit[key].Text? then edit[key].text else current
  }

  /** The stored number, or the one the edit data gives for `key`. */
  function NumberOr<K>(edit: map<K, Value>, key: K, current: int): int
  {
    if key in edit && edit[key].Number? then edit[key].number else current
  }

  /** update_menu: the columns present in the edit data take its values. */
  function EditMenuRow(m: MenuRow, edit: map<MenuField, Value>): MenuRow
  {
    m.(name := TextOr(edit, MenuName, m.name),
       attrs := MenuAttrs(NumberOr(edit, MenuPrice, m.attrs.price),
                          TextOr(edit, MenuDescription, m.attrs.description),
                          TextOr(edit, MenuImage, m.attrs.image)))
  }

  function EditGroupRow(g: GroupRow, edit: map<GroupField, Value>): GroupRow
  {
    g.(name := TextOr(edit, GroupName, g.name),
       attrs := GroupAttrs(NumberOr(edit, GroupMaxCount, g.attrs.maxCount)))
  }

  function EditOptionRow(o: OptionRow, edit: map<OptionField, Value>): OptionRow
  {
    o.(name := TextOr(edit, OptionName, o.name),
       attrs := OptionAttrs(NumberOr(edit, OptionPrice, o.attrs.price)))
  }

  /** The requested value when one was supplied, the current one otherwise. */
  function Patched<T>(current: T, requested: Option<T>): T
  {
    if requested.Some? then requested.value else current
  }

  /** The edit data of a stripped request: exactly the supplied entries. */
  predicate StrippedFrom<K>(edit: map<K, Value>, data: map<K, Option<Value>>)
  {
    && (forall k :: k in edit ==> k in data && data[k] == Some(edit[k]))
    && (forall k :: k in data && data[k].Some? ==> k in edit)
  }

  /** A supplied text replaces the stored one; an absent one keeps it. */
  lemma TextPatched<K>(edit: map<K, Value>, data: map<K, Option<Value>>, key: K, v: Option<string>)
    requires StrippedFrom(edit, data) && key in data && data[key] == TextValue(v)
    ensures forall current :: TextOr(edit, key, current) == Patched(current, v)
  {
  }

  /** A supplied number replaces the stored one; an absent one keeps it. */
  lemma NumberPatched<K>(edit: map<K, Value>, data: map<K, Option<Value>>, key: K, v: Option<int>)
    requires StrippedFrom(edit, data) && key in data && data[key] == NumberValue(v)
    ensures forall current :: NumberOr(edit, key, current) == Patched(current, v)
  {
  }

  /** Applying the stripped data of an edit_menu request changes exactly the
      supplied fields. */
  lemma MenuEditPatches(edit: map<MenuField, Value>, name: Option<string>, price: Option<int>,
                        description: Option<string>, image: Option<string>)
    requires StrippedFrom(edit, map[MenuName := TextValue(name), MenuPrice := NumberValue(price),
                                    MenuDescription := TextValue(description), MenuImage := TextValue(image)])
    ensures forall m: MenuRow :: EditMenuRow(m, edit) ==
              m.(name := Patched(m.name, name),
                 attrs := MenuAttrs(Patched(m.attrs.price, price), Patched(m.attrs.description, description),
                                    Patched(m.attrs.image, image)))
  {
    var data := map[MenuName := TextValue(name), MenuPrice := NumberValue(price),
                     MenuDescription := TextValue(description), MenuImage := TextValue(image)];
    TextPatched(edit, data, MenuName, name);
    NumberPatched(edit, data, MenuPrice, price);
    TextPatched(edit, data, MenuDescription, description);
    TextPatched(edit, data, MenuImage, image);
  }

  /** Applying the stripped data of an edit_group request changes exactly
      the supplied fields. */
  lemma GroupEditPatches(edit: map<GroupField, Value>, name: Option<string>, maxCount: Option<int>)
    requires StrippedFrom(edit, map[GroupName := TextValue(name), GroupMaxCount := NumberValue(maxCount)])
    ensures forall g: GroupRow :: EditGroupRow(g, edit) ==
              g.(name := Patched(g.name, name), attrs := GroupAttrs(Patched(g.attrs.maxCount, maxCount)))
  {
    var data := map[GroupName := TextValue(name), GroupMaxCount := NumberValue(maxCount)];
    TextPatched(edit, data, GroupName, name);
    NumberPatched(edit, data, GroupMaxCount, maxCount);
  }

  /** Applying the stripped data of an edit_option request changes exactly
      the supplied fields. */
  lemma OptionEditPatches(edit: map<OptionField, Value>, name: Option<string>, price: Option<int>)
    requires StrippedFrom(edit, map[OptionName := TextValue(name), OptionPrice := NumberValue(price)])
    ensures forall o: OptionRow :: EditOptionRow(o, edit) ==
              o.(name := Patched(o.name, name), attrs := OptionAttrs(Patched(o.attrs.price, price)))
  {
    var data := map[OptionName := TextValue(name), OptionPrice := NumberValue(price)];
    TextPatched(edit, data, OptionName, name);
    NumberPatched(edit, data, OptionPrice, price);
  }

  /** Removes from an edit request's data every key whose value is undefined
      or null, keeping the others with their values. */
  method StripAbsent<K(==)>(data: map<K, Option<Value>>) returns (edit: map<K, Value>)
    ensures StrippedFrom(edit, data)
  {
    var present := data;
    var keys := data.Keys;
    while keys != {}
      invariant keys <= data.Keys
      invariant forall k :: k in present ==> k in data && present[k] == data[k]
      invariant forall k :: k in data ==> (k in present <==> k in keys || data[k].Some?)
      decreases keys
    {
      var k :| k in keys;
      if present[k].None? {
        present := present - {k};
      }
      keys := keys - {k};
    }
    assert forall k :: k in present ==> present[k].Some?;
    edit := map k | k in present :: present[k].value;
  }

  /** Collects the ids of a list of rows, in order. */
  method CollectIds<T>(rows: seq<Row<T>>) returns (ids: seq<nat>)
    ensures |ids| == |rows|
    ensures forall t :: 0 <= t < |rows| ==> ids[t] == rows[t].id
  {
    ids := [];
    for t := 0 to |rows|
      invariant |ids| == t
      invariant forall u :: 0 <= u < t ==> ids[u] == rows[u].id
    {
      ids := ids + [rows[t].id];
    }
  }

  // ---------------------------------------------------------------------
  // Bulk creation of a menu's groups and options
  // ---------------------------------------------------------------------

  function PayloadGroups(p: MenuPayload): seq<GroupPayload>
  {
    if p.groups.Some? then p.groups.value else []
  }

  function PayloadOptions(g: GroupPayload): seq<OptionPayload>
  {
    if g.options.Some? then g.options.value else []
  }

  /** The groups of a new menu: the k-th payload group becomes a group of
      the menu with the k-th fresh id. */
  function NewGroupRows(gs: seq<GroupPayload>, menuId: nat, firstId: nat): (r: seq<GroupRow>)
    ensures |r| == |gs|
    ensures forall k {:trigger r[k]} :: 0 <= k < |gs| ==>
              r[k] == Row(firstId + k, menuId, gs[k].name, GroupAttrs(gs[k].maxCount))
  {
    if gs == [] then []
    else
      var k := |gs| - 1;
      NewGroupRows(gs[..k], menuId, firstId) + [Row(firstId + k, menuId, gs[k].name, GroupAttrs(gs[k].maxCount))]
  }

  /** The options of one payload group, attached to group `groupId`. */
  function OptionRowsOf(os: seq<OptionPayload>, groupId: nat, firstId: nat): (r: seq<OptionRow>)
    ensures |r| == |os|
  {
    if os == [] then []
    else
      var j := |os| - 1;
      OptionRowsOf(os[..j], groupId, firstId) + [Row(firstId + j, groupId, os[j].name, OptionAttrs(os[j].price))]
  }

  /** The j-th option row is the j-th payload option, with the j-th id. */
  lemma {:induction false} OptionRowsAt(os: seq<OptionPayload>, groupId: nat, firstId: nat)
    ensures forall j {:trigger OptionRowsOf(os, groupId, firstId)[j]} :: 0 <= j < |os| ==>
              OptionRowsOf(os, groupId, firstId)[j] == Row(firstId + j, groupId, os[j].name, OptionAttrs(os[j].price))
  {
    if os != [] {
      var n := |os| - 1;
      OptionRowsAt(os[..n], groupId, firstId);
    }
  }

  /** The options created for the first `n` payload groups of a new menu:
      each group's options, attached to the group created from it, with
      consecutive ids. */
  function NewOptionRows(gs: seq<GroupPayload>, n: nat, firstGroupId: nat, firstId: nat): seq<OptionRow>
    requires n <= |gs|
  {
    if n == 0 then []
    else
      var before := NewOptionRows(gs, n - 1, firstGroupId, firstId);
      before + OptionRowsOf(PayloadOptions(gs[n - 1]), firstGroupId + n - 1, firstId + |before|)
  }

  /** The options created for a menu take consecutive ids and belong to the
      new groups. */
  lemma {:induction false} NewOptionRowsKeys(gs: seq<GroupPayload>, n: nat, firstGroupId: nat, firstId: nat)
    requires n <= |gs|
    ensures forall i :: 0 <= i < |NewOptionRows(gs, n, firstGroupId, firstId)| ==>
              && NewOptionRows(gs, n, firstGroupId, firstId)[i].id == firstId + i
              && firstGroupId <= NewOptionRows(gs, n, firstGroupId, firstId)[i].parent < firstGroupId + n
  {
    if n != 0 {
      var before := NewOptionRows(gs, n - 1, firstGroupId, firstId);
      var last := OptionRowsOf(PayloadOptions(gs[n - 1]), firstGroupId + n - 1, firstId + |before|);
      NewOptionRowsKeys(gs, n - 1, firstGroupId, firstId);
      OptionRowsAt(PayloadOptions(gs[n - 1]), firstGroupId + n - 1, firstId + |before|);
      var r := before + last;
      forall i | 0 <= i < |r| ensures r[i].id == firstId + i && firstGroupId <= r[i].parent < firstGroupId + n {
        if i >= |before| {
          assert r[i] == last[i - |before|];
        } else {
          assert r[i] == before[i];
        }
      }
    }
  }

  /** No option is created when no payload group carries options. */
  lemma {:induction false} NoPayloadOptions(gs: seq<GroupPayload>, n: nat, firstGroupId: nat, firstId: nat)
    requires n <= |gs|
    requires forall k :: 0 <= k < n ==> gs[k].options.None? || |gs[k].options.value| == 0
    ensures NewOptionRows(gs, n, firstGroupId, firstId) == []
  {
    if n != 0 {
      NoPayloadOptions(gs, n - 1, firstGroupId, firstId);
    }
  }

  /** The name and price of each option row, in order: what an option was
      created from. */
  function OptionPayloads(rows: seq<OptionRow>): seq<OptionPayload>
  {
    seq(|rows|, j requires 0 <= j < |rows| => OptionPayload(rows[j].name, rows[j].attrs.price))
  }

  /** Reading back the rows created from payload options gives those
      options, whatever group and ids they were given. */
  lemma OptionRowsPayloads(os: seq<OptionPayload>, groupId: nat, firstId: nat)
    ensures OptionPayloads(OptionRowsOf(os, groupId, firstId)) == os
  {
    OptionRowsAt(os, groupId, firstId);
  }

  /** Within the options created for a menu, the options of the k-th new
      group are exactly the k-th payload group's options, in order. */
  lemma NewOptionsOfGroup(gs: seq<GroupPayload>, n: nat, firstGroupId: nat, firstId: nat, k: nat)
    requires k < n <= |gs|
    ensures OptionPayloads(Children(NewOptionRows(gs, n, firstGroupId, firstId), firstGroupId + k))
          == PayloadOptions(gs[k])
  {
    GroupOptionsSettled(gs, n, firstGroupId, firstId, k);
    NewOptionsOfLastGroup(gs, k, firstGroupId, firstId);
  }

  /** The options of the k-th new group are all created with the first
      k + 1 groups: later groups add none to it. */
  lemma {:induction false} GroupOptionsSettled(gs: seq<GroupPayload>, n: nat, firstGroupId: nat, firstId: nat, k: nat)
    requires k < n <= |gs|
    ensures Children(NewOptionRows(gs, n, firstGroupId, firstId), firstGroupId + k)
         == Children(NewOptionRows(gs, k + 1, firstGroupId, firstId), firstGroupId + k)
    decreases n
  {
    if k + 1 < n {
      NewOptionsOfEarlierGroup(gs, n, firstGroupId, firstId, k);
      GroupOptionsSettled(gs, n - 1, firstGroupId, firstId, k);
    }
  }

  lemma NewOptionsOfLastGroup(gs: seq<GroupPayload>, k: nat, firstGroupId: nat, firstId: nat)
    requires k < |gs|
    ensures OptionPayloads(Children(NewOptionRows(gs, k + 1, firstGroupId, firstId), firstGroupId + k))
         == PayloadOptions(gs[k])
  {
    var before := NewOptionRows(gs, k, firstGroupId, firstId);
    var last := OptionRowsOf(PayloadOptions(gs[k]), firstGroupId + k, firstId + |before|);
    var groupId := firstGroupId + k;
    assert NewOptionRows(gs, k + 1, firstGroupId, firstId) == before + last;
    assert forall i :: 0 <= i < |before| ==> before[i].parent < groupId by {
      NewOptionRowsKeys(gs, k, firstGroupId, firstId);
    }
    assert forall j :: 0 <= j < |last| ==> last[j].parent == groupId by {
      OptionRowsAt(PayloadOptions(gs[k]), groupId, firstId + |before|);
    }
    LastGroupOptions(before, last, groupId);
    OptionRowsPayloads(PayloadOptions(gs[k]), groupId, firstId + |before|);
    assert Children(NewOptionRows(gs, k + 1, firstGroupId, firstId), groupId) == last;
  }

  lemma NewOptionsOfEarlierGroup(gs: seq<GroupPayload>, n: nat, firstGroupId: nat, firstId: nat, k: nat)
    requires k < n - 1 && n <= |gs|
    ensures Children(NewOptionRows(gs, n, firstGroupId, firstId), firstGroupId + k)
         == Children(NewOptionRows(gs, n - 1, firstGroupId, firstId), firstGroupId + k)
  {
    var before := NewOptionRows(gs, n - 1, firstGroupId, firstId);
    var last := OptionRowsOf(PayloadOptions(gs[n - 1]), firstGroupId + n - 1, firstId + |before|);
    assert NewOptionRows(gs, n, firstGroupId, firstId) == before + last;
    OptionRowsAt(PayloadOptions(gs[n - 1]), firstGroupId + n - 1, firstId + |before|);
    EarlierGroupOptions(before, last, firstGroupId + k);
  }

  /** The options of the last group: none of the earlier options, all of
      the last group's. */
  lemma LastGroupOptions(before: seq<OptionRow>, last: seq<OptionRow>, groupId: nat)
    requires forall i :: 0 <= i < |before| ==> before[i].parent < groupId
    requires forall j :: 0 <= j < |last| ==> last[j].parent == groupId
    ensures Children(before + last, groupId) == last
  {
    forall x | x in before ensures x.parent != groupId {
      var i :| 0 <= i < |before| && before[i] == x;
    }
    ChildrenAppend(before, last, groupId);
    ChildrenNone(before, groupId);
    ChildrenAll(last, groupId);
  }

  /** The options of an earlier group: none of the last group's. */
  lemma EarlierGroupOptions(before: seq<OptionRow>, last: seq<OptionRow>, groupId: nat)
    requires forall j :: 0 <= j < |last| ==> last[j].parent != groupId
    ensures Children(before + last, groupId) == Children(before, groupId)
  {
    forall x | x in last ensures x.parent != groupId {
      var j :| 0 <= j < |last| && last[j] == x;
    }
    ChildrenAppend(before, last, groupId);
    ChildrenNone(last, groupId);
    assert Children(before, groupId) + [] == Children(before, groupId);
  }

  /** After a menu is uploaded, the options stored under its k-th new group
      are the k-th payload group's options, in order, with their names and
      prices: no stored option already had that group as parent. */
  lemma UploadedOptionsOfGroup(stored: seq<OptionRow>, gs: seq<GroupPayload>, firstGroupId: nat,
                               firstId: nat, k: nat)
    requires forall x {:trigger x in stored} :: x in stored ==> x.parent < firstGroupId
    requires k < |gs|
    ensures OptionPayloads(Children(stored + NewOptionRows(gs, |gs|, firstGroupId, firstId), firstGroupId + k))
         == PayloadOptions(gs[k])
  {
    ChildrenAppend(stored, NewOptionRows(gs, |gs|, firstGroupId, firstId), firstGroupId + k);
    ChildrenNone(stored, firstGroupId + k);
    assert [] + Children(NewOptionRows(gs, |gs|, firstGroupId, firstId), firstGroupId + k)
        == Children(NewOptionRows(gs, |gs|, firstGroupId, firstId), firstGroupId + k);
    NewOptionsOfGroup(gs, |gs|, firstGroupId, firstId, k);
  }

  /** After a menu is uploaded, its groups are exactly the new groups, and
      each new group's options are the options of its payload group. */
  lemma UploadedChildren(menus: seq<MenuRow>, groups: seq<GroupRow>, options: seq<OptionRow>,
                         menuId: nat, gs: seq<GroupPayload>, firstGroupId: nat, firstId: nat)
    requires ParentsIn(groups, IdSet(menus)) && IdsBelow(menus, menuId)
    requires ParentsIn(options, IdSet(groups)) && IdsBelow(groups, firstGroupId)
    ensures Children(groups + NewGroupRows(gs, menuId, firstGroupId), menuId) == NewGroupRows(gs, menuId, firstGroupId)
    ensures forall k :: 0 <= k < |gs| ==>
              OptionPayloads(Children(options + NewOptionRows(gs, |gs|, firstGroupId, firstId), firstGroupId + k))
              == PayloadOptions(gs[k])
  {
    var newGroups := NewGroupRows(gs, menuId, firstGroupId);
    forall x | x in groups ensures x.parent != menuId {
      assert x.parent in IdSet(menus);
    }
    ChildrenAppend(groups, newGroups, menuId);
    ChildrenNone(groups, menuId);
    ChildrenAll(newGroups, menuId);
    forall x | x in options ensures x.parent < firstGroupId {
      assert x.parent in IdSet(groups);
    }
    forall k | 0 <= k < |gs|
      ensures OptionPayloads(Children(options + NewOptionRows(gs, |gs|, firstGroupId, firstId), firstGroupId + k))
              == PayloadOptions(gs[k])
    {
      UploadedOptionsOfGroup(options, gs, firstGroupId, firstId, k);
    }
  }

  /** The first loop of upload_menu: one group per payload group, attached
      to the new menu, with the ids the store hands out in turn. */
  method BuildGroups(gs: seq<GroupPayload>, menuId: nat, firstId: nat) returns (built: seq<GroupRow>)
    ensures built == NewGroupRows(gs, menuId, firstId)
  {
    built := [];
    for k := 0 to |gs|
      invariant built == NewGroupRows(gs[..k], menuId, firstId)
    {
      built := built + [Row(firstId + k, menuId, gs[k].name, GroupAttrs(gs[k].maxCount))];
      assert gs[..k + 1][..k] == gs[..k];
    }
    assert gs[..|gs|] == gs;
  }

  /** The nested loop of upload_menu: for each payload group that has
      options, one option per payload option, attached to the group created
      from that payload group, with the ids the store hands out in turn. */
  method BuildOptions(gs: seq<GroupPayload>, firstGroupId: nat, firstId: nat) returns (attached: seq<OptionRow>)
    ensures attached == NewOptionRows(gs, |gs|, firstGroupId, firstId)
  {
    attached := [];
    for k := 0 to |gs|
      invariant attached == NewOptionRows(gs, k, firstGroupId, firstId)
    {
      ghost var before := attached;
      if gs[k].options.Some? {
        var os := gs[k].options.value;
        for j := 0 to |os|
          invariant attached == before + OptionRowsOf(os[..j], firstGroupId + k, firstId + |before|)
        {
          attached := attached + [Row(firstId + |attached|, firstGroupId + k, os[j].name, OptionAttrs(os[j].price))];
          assert os[..j + 1][..j] == os[..j];
        }
        assert os[..|os|] == os;
      }
    }
  }

  /** The ids and parents of the rows upload_menu adds keep the store
      valid: ids stay increasing and below the advanced counters, and every
      new group and option has its parent. */
  lemma NewRowsValid(categories: seq<CategoryRow>, menus: seq<MenuRow>, groups: seq<GroupRow>,
                     options: seq<OptionRow>, next: NextIds, menu: MenuRow, gs: seq<GroupPayload>)
    requires Increasing(menus) && Increasing(groups) && Increasing(options)
    requires IdsBelow(menus, next.menu) && IdsBelow(groups, next.group) && IdsBelow(options, next.option)
    requires ParentsIn(groups, IdSet(menus)) && ParentsIn(options, IdSet(groups))
    requires menu.id == next.menu
    ensures var menus' := menus + [menu];
            var groups' := groups + NewGroupRows(gs, menu.id, next.group);
            var created := NewOptionRows(gs, |gs|, next.group, next.option);
            var options' := options + created;
            && Increasing(menus') && IdsBelow(menus', menu.id + 1)
            && Increasing(groups') && IdsBelow(groups', next.group + |gs|)
            && Increasing(options') && IdsBelow(options', next.option + |created|)
            && ParentsIn(groups', IdSet(menus')) && ParentsIn(options', IdSet(groups'))
  {
    var g0, o0 := next.group, next.option;
    var newGroups := NewGroupRows(gs, menu.id, g0);
    var created := NewOptionRows(gs, |gs|, g0, o0);
    AppendIncreasing(menus, menu);
    ParentsInGrow(groups, menus, [menu]);
    forall x | x in newGroups ensures x.parent in IdSet(menus + [menu]) && g0 <= x.id < g0 + |gs| {
      var k :| 0 <= k < |newGroups| && newGroups[k] == x;
      assert menu in menus + [menu];
    }
    ConcatIncreasing(groups, newGroups, g0);
    ParentsInGrow(options, groups, newGroups);
    NewOptionRowsKeys(gs, |gs|, g0, o0);
    forall x | x in created ensures x.parent in IdSet(groups + newGroups) && o0 <= x.id < o0 + |created| {
      var i :| 0 <= i < |created| && created[i] == x;
      var k := x.parent - g0;
      assert newGroups[k] in groups + newGroups;
    }
    assert Increasing(created) by {
      forall i, j | 0 <= i < j < |created| ensures created[i].id < created[j].id {
      }
    }
    ConcatIncreasing(options, created, o0);
  }

  /** Concatenating two tables whose ids increase, the second's above the
      first's, keeps ids increasing. */
  lemma ConcatIncreasing<T>(a: seq<Row<T>>, b: seq<Row<T>>, bound: nat)
    requires Increasing(a) && Increasing(b) && IdsBelow(a, bound)
    requires forall y {:trigger y in b} :: y in b ==> bound <= y.id
    ensures Increasing(a + b)
  {
    var r := a + b;
    forall i, j | 0 <= i < j < |r| ensures r[i].id < r[j].id {
      if j >= |a| {
        assert r[j] == b[j - |a|] && b[j - |a|] in b;
        if i < |a| {
          assert r[i] == a[i] && a[i] in a;
        } else {
          assert r[i] == b[i - |a|];
        }
      } else {
        assert r[i] == a[i] && r[j] == a[j];
      }
    }
  }

  /** An update that keeps every row's id and parent keeps the table's ids,
      their order and every row's parent. */
  lemma UpdatedKeepsKeys<T>(s: seq<Row<T>>, id: nat, edit: Row<T> -> Row<T>, parents: set<nat>, next: nat)
    requires forall x :: edit(x).id == x.id && edit(x).parent == x.parent
    ensures IdSet(Updated(s, id, edit)) == IdSet(s)
    ensures Increasing(s) ==> Increasing(Updated(s, id, edit))
    ensures ParentsIn(s, parents) ==> ParentsIn(Updated(s, id, edit), parents)
    ensures IdsBelow(s, next) ==> IdsBelow(Updated(s, id, edit), next)
  {
    var r := Updated(s, id, edit);
    assert forall i :: 0 <= i < |s| ==> r[i].id == s[i].id && r[i].parent == s[i].parent;
    forall y | y in IdSet(s) ensures y in IdSet(r) {
      var x :| x in s && x.id == y;
      var i :| 0 <= i < |s| && s[i] == x;
      assert r[i] in r;
    }
    forall y | y in IdSet(r) ensures y in IdSet(s) {
      var x :| x in r && x.id == y;
      var i :| 0 <= i < |r| && r[i] == x;
      assert s[i] in s;
    }
    if ParentsIn(s, parents) {
      forall x | x in r ensures x.parent in parents {
        var i :| 0 <= i < |r| && r[i] == x;
        assert s[i] in s;
      }
    }
    if IdsBelow(s, next) {
      forall x | x in r ensures x.id < next {
        var i :| 0 <= i < |r| && r[i] == x;
        assert s[i] in s;
      }
    }
  }

  // ---------------------------------------------------------------------
  // The service
  // ---------------------------------------------------------------------

  class MenuService {
    var categories: seq<CategoryRow>
    var menus: seq<MenuRow>
    var groups: seq<GroupRow>
    var options: seq<OptionRow>
    var next: NextIds

    /** Ids are unique (increasing in store order) and below the next id to
        hand out, and every menu, group and option has its parent. */
    ghost predicate Valid()
      reads this
    {
      && Increasing(categories) && Increasing(menus) && Increasing(groups) && Increasing(options)
      && IdsBelow(categories, next.category) && IdsBelow(menus, next.menu)
      && IdsBelow(groups, next.group) && IdsBelow(options, next.option)
      && ParentsIn(menus, IdSet(categories))
      && ParentsIn(groups, IdSet(menus))
      && ParentsIn(options, IdSet(groups))
    }

    constructor ()
      ensures Valid()
      ensures categories == [] && menus == [] && groups == [] && options == []
      ensures next == NextIds(1, 1, 1, 1)
    {
      categories, menus, groups, options := [], [], [], [];
      next := NextIds(1, 1, 1, 1);
    }

    // --- menu categories ---------------------------------------------------

    /** upload_menu_category: a restaurant cannot have two categories of the
        same name; otherwise exactly one category is added under it. */
    method UploadMenuCategory(restaurant: nat, name: string) returns (r: Result<nat, Error>)
      requires Valid()
      modifies this`categories, this`next
      ensures Valid()
      ensures r.Failure? <==>
          exists c {:trigger c in old(categories)} :: c in old(categories) && c.parent == restaurant && c.name == name
      ensures r.Failure? ==> r.error == Conflict && categories == old(categories) && next == old(next)
      ensures r.Success? ==>
                && r.value == old(next.category) && r.value !in IdSet(old(categories))
                && categories == old(categories) + [Row(r.value, restaurant, name, ())]
                && next == old(next).(category := r.value + 1)
    {
      if FindByName(categories, restaurant, name).Some? {
        return Failure(Conflict);
      }
      var id := next.category;
      var row: CategoryRow := Row(id, restaurant, name, ());
      AppendIncreasing(categories, row);
      ParentsInGrow(menus, categories, [row]);
      categories := categories + [row];
      next := next.(category := id + 1);
      r := Success(id);
    }

    /** get_menu_category: the id and name of the category with that id. */
    method GetMenuCategory(id: nat) returns (r: Option<CategoryResult>)
      ensures r.Some? <==> id in IdSet(categories)
      ensures r.Some? ==> r.value.mcId == id
      ensures r.Some? ==>
          exists c {:trigger c in categories} :: c in categories && c.id == id && CategoryView(c) == r.value
    {
      var found := FindById(categories, id);
      if found.None? {
        return None;
      }
      r := Some(CategoryResult(found.value.id, found.value.name));
    }

    /** get_menu_category_list: one result per category of the restaurant,
        in store order, with id and name copied. */
    method GetMenuCategoryList(restaurant: nat) returns (r: seq<CategoryResult>)
      ensures |r| == |Children(categories, restaurant)|
      ensures forall i :: 0 <= i < |r| ==> r[i] == CategoryView(Children(categories, restaurant)[i])
      ensures forall c {:trigger c in categories} :: c in categories && c.parent == restaurant ==> CategoryView(c) in r
      ensures forall x {:trigger x in r} :: x in r ==>
          exists c {:trigger c in categories} :: c in categories && c.parent == restaurant && CategoryView(c) == x
    {
      var found := Children(categories, restaurant);
      r := [];
      for i := 0 to |found|
        invariant |r| == i
        invariant forall k :: 0 <= k < i ==> r[k] == CategoryView(found[k])
      {
        r := r + [CategoryResult(found[i].id, found[i].name)];
      }
      forall c | c in categories && c.parent == restaurant ensures CategoryView(c) in r {
        var i :| 0 <= i < |found| && found[i] == c;
        assert r[i] == CategoryView(c);
      }
      forall x | x in r
        ensures exists c {:trigger c in categories} :: c in categories && c.parent == restaurant && CategoryView(c) == x
      {
        var i :| 0 <= i < |r| && r[i] == x;
        assert found[i] in found;
      }
    }

    /** edit_menu_category: renames the category with that id. */
    method EditMenuCategory(id: nat, name: string)
      requires Valid()
      modifies this`categories
      ensures Valid()
      ensures |categories| == |old(categories)|
      ensures forall i :: 0 <= i < |categories| ==>
                categories[i] == if old(categories)[i].id == id then old(categories)[i].(name := name)
                                 else old(categories)[i]
    {
      var rename := (c: CategoryRow) => c.(name := name);
      UpdatedKeepsKeys(categories, id, rename, {}, next.category);
      categories := Updated(categories, id, rename);
    }

    /** remove_menu_category: deletes the listed categories, every menu of
        them, every group of those menus and every option of those groups. */
    method RemoveMenuCategory(ids: seq<nat>)
      requires Valid()
      modifies this`categories, this`menus, this`groups, this`options
      ensures Valid()
      ensures categories == WithoutIds(old(categories), IdsIn(ids))
      ensures menus == WithoutIds(old(menus), ChildIds(old(menus), IdsIn(ids)))
      ensures groups == WithoutIds(old(groups), ChildIds(old(groups), ChildIds(old(menus), IdsIn(ids))))
      ensures options == WithoutIds(old(options),
                           ChildIds(old(options), ChildIds(old(groups), ChildIds(old(menus), IdsIn(ids)))))
      ensures forall m {:trigger m in menus} :: m in menus ==> m.parent !in IdsIn(ids)
    {
      ghost var oc, om, og, oo := categories, menus, groups, options;
      assert IdsIn(ids[..0]) == {} && ChildIds(om, {}) == {} && ChildIds(og, {}) == {} && ChildIds(oo, {}) == {};
      WithoutNothing(om);
      WithoutNothing(og);
      WithoutNothing(oo);
      for i := 0 to |ids|
        invariant Valid()
        invariant categories == oc
        invariant menus == WithoutIds(om, ChildIds(om, IdsIn(ids[..i])))
        invariant groups == WithoutIds(og, ChildIds(og, ChildIds(om, IdsIn(ids[..i]))))
        invariant options == WithoutIds(oo, ChildIds(oo, ChildIds(og, ChildIds(om, IdsIn(ids[..i])))))
      {
        ghost var done := IdsIn(ids[..i]);
        assert IdsIn(ids[..i + 1]) == done + {ids[i]} by {
          assert ids[..i + 1] == ids[..i] + [ids[i]];
        }
        ghost var gone := ChildIds(om, done);
        var found := Children(menus, ids[i]);
        ChildrenIds(menus, ids[i]);
        ghost var more := ChildIds(menus, {ids[i]});
        CascadeStep(om, done, {ids[i]});
        CascadeStep(og, gone, more);
        ghost var groupsGone := ChildIds(groups, more);
        ghost var options0 := options;
        CascadeStep(oo, ChildIds(og, gone), groupsGone);
        assert ChildIds(og, gone) + groupsGone == ChildIds(og, ChildIds(om, IdsIn(ids[..i + 1])));
        if |found| != 0 {
          var menuIds := CollectIds(found);
          CollectedIds(menuIds, found);
          RemoveMenu(menuIds);
          assert options == WithoutIds(options0, ChildIds(options0, groupsGone));
        } else {
          assert IdSet(found) == {} && groupsGone == {} && ChildIds(options, groupsGone) == {};
          WithoutNothing(menus);
          WithoutNothing(groups);
          WithoutNothing(options);
        }
      }
      assert ids[..|ids|] == ids;
      WithoutIdsIncreasing(categories, IdsIn(ids));
      CascadeKeepsParents(om, oc, IdsIn(ids));
      categories := WithoutIds(categories, IdsIn(ids));
    }

    // --- menus ---------------------------------------------------------------

    /** upload_menu: a category cannot have two menus of the same name.
        Otherwise the menu is added to the category, one group per payload
        group is added to the menu, and each payload group's options are
        added to the group created from it. */
    method UploadMenu(p: MenuPayload) returns (r: Result<nat, Error>)
      requires Valid()
      modifies this`menus, this`groups, this`options, this`next
      ensures Valid()
      ensures r == Failure(NotFound) <==> p.categoryId !in IdSet(old(categories))
      ensures r == Failure(Conflict) <==>
                && p.categoryId in IdSet(old(categories))
                && exists m {:trigger m in old(menus)} :: m in old(menus)
                    && m.parent == p.categoryId && m.name == p.name
      ensures r.Failure? ==>
                menus == old(menus) && groups == old(groups) && options == old(options) && next == old(next)
      ensures r.Success? ==>
                var gs := PayloadGroups(p);
                var created := NewOptionRows(gs, |gs|, old(next.group), old(next.option));
                && r.value == old(next.menu) && r.value !in IdSet(old(menus))
                && menus == old(menus)
                    + [Row(r.value, p.categoryId, p.name, MenuAttrs(p.price, p.description, p.image))]
                && groups == old(groups) + NewGroupRows(gs, r.value, old(next.group))
                && options == old(options) + created
                && next == NextIds(old(next.category), r.value + 1, old(next.group) + |gs|,
                                   old(next.option) + |created|)
    {
      if FindById(categories, p.categoryId).None? {
        return Failure(NotFound);
      }
      if FindByName(menus, p.categoryId, p.name).Some? {
        return Failure(Conflict);
      }
      var menuId, g0, o0 := next.menu, next.group, next.option;
      var menu := Row(menuId, p.categoryId, p.name, MenuAttrs(p.price, p.description, p.image));
      ghost var gs := PayloadGroups(p);
      ghost var newGroups := NewGroupRows(gs, menuId, g0);
      ghost var newOptions := NewOptionRows(gs, |gs|, g0, o0);
      NewRowsValid(categories, menus, groups, options, next, menu, gs);
      menus := menus + [menu];
      next := next.(menu := menuId + 1);
      if p.groups.Some? {
        var built := BuildGroups(p.groups.value, menuId, g0);
        groups := groups + built;
        next := next.(group := g0 + |built|);
        var attached := BuildOptions(p.groups.value, g0, o0);
        if |attached| != 0 {
          options := options + attached;
          next := next.(option := o0 + |attached|);
        }
      }
      assert groups == old(groups) + newGroups && options == old(options) + newOptions;
      r := Success(menuId);
    }

    /** edit_menu: only the fields supplied (neither undefined nor null) are
        changed; every other field and every other menu keep their values. */
    method EditMenu(id: nat, name: Option<string>, price: Option<int>,
                    description: Option<string>, image: Option<string>)
      requires Valid()
      modifies this`menus
      ensures Valid()
      ensures |menus| == |old(menus)|
      ensures forall i :: 0 <= i < |menus| && old(menus)[i].id != id ==> menus[i] == old(menus)[i]
      ensures forall i :: 0 <= i < |menus| && old(menus)[i].id == id ==>
                var m := old(menus)[i];
                menus[i] == m.(name := Patched(m.name, name),
                               attrs := MenuAttrs(Patched(m.attrs.price, price),
                                                  Patched(m.attrs.description, description),
                                                  Patched(m.attrs.image, image)))
    {
      var data := map[MenuName := TextValue(name), MenuPrice := NumberValue(price),
                      MenuDescription := TextValue(description), MenuImage := TextValue(image)];
      var edit := StripAbsent(data);
      MenuEditPatches(edit, name, price, description, image);
      var apply := (m: MenuRow) => EditMenuRow(m, edit);
      UpdatedKeepsKeys(menus, id, apply, IdSet(categories), next.menu);
      menus := Updated(menus, id, apply);
    }

    /** remove_menu: deletes the listed menus, every group of them and every
        option of those groups. */
    method RemoveMenu(ids: seq<nat>)
      requires Valid()
      modifies this`menus, this`groups, this`options
      ensures Valid()
      ensures menus == WithoutIds(old(menus), IdsIn(ids))
      ensures groups == WithoutIds(old(groups), ChildIds(old(groups), IdsIn(ids)))
      ensures options == WithoutIds(old(options), ChildIds(old(options), ChildIds(old(groups), IdsIn(ids))))
    {
      ghost var om, og, oo := menus, groups, options;
      assert IdsIn(ids[..0]) == {} && ChildIds(og, {}) == {} && ChildIds(oo, {}) == {};
      WithoutNothing(og);
      WithoutNothing(oo);
      for i := 0 to |ids|
        invariant Valid()
        invariant menus == om
        invariant groups == WithoutIds(og, ChildIds(og, IdsIn(ids[..i])))
        invariant options == WithoutIds(oo, ChildIds(oo, ChildIds(og, IdsIn(ids[..i]))))
      {
        ghost var done := IdsIn(ids[..i]);
        assert IdsIn(ids[..i + 1]) == done + {ids[i]} by {
          assert ids[..i + 1] == ids[..i] + [ids[i]];
        }
        var found := Children(groups, ids[i]);
        ChildrenIds(groups, ids[i]);
        ghost var more := ChildIds(groups, {ids[i]});
        CascadeStep(og, done, {ids[i]});
        CascadeStep(oo, ChildIds(og, done), more);
        if |found| != 0 {
          var groupIds := CollectIds(found);
          CollectedIds(groupIds, found);
          RemoveGroup(groupIds);
        } else {
          assert IdSet(found) == {} && ChildIds(options, more) == {};
          WithoutNothing(groups);
          WithoutNothing(options);
        }
      }
      assert ids[..|ids|] == ids;
      WithoutIdsIncreasing(menus, IdsIn(ids));
      CascadeKeepsParents(og, om, IdsIn(ids));
      menus := WithoutIds(menus, IdsIn(ids));
    }

    // --- groups --------------------------------------------------------------

    /** upload_group: a menu cannot have two groups of the same name;
        otherwise exactly one group is added to the menu. */
    method UploadGroup(menuId: nat, name: string, maxCount: int) returns (r: Result<nat, Error>)
      requires Valid()
      modifies this`groups, this`next
      ensures Valid()
      ensures r == Failure(NotFound) <==> menuId !in IdSet(old(menus))
      ensures r == Failure(Conflict) <==>
                menuId in IdSet(old(menus))
                  && exists g {:trigger g in old(groups)} :: g in old(groups) && g.parent == menuId && g.name == name
      ensures r.Failure? ==> groups == old(groups) && next == old(next)
      ensures r.Success? ==>
                && r.value == old(next.group) && r.value !in IdSet(old(groups))
                && groups == old(groups) + [Row(r.value, menuId, name, GroupAttrs(maxCount))]
                && next == old(next).(group := r.value + 1)
    {
      if FindById(menus, menuId).None? {
        return Failure(NotFound);
      }
      if FindByName(groups, menuId, name).Some? {
        return Failure(Conflict);
      }
      var id := next.group;
      var row := Row(id, menuId, name, GroupAttrs(maxCount));
      AppendIncreasing(groups, row);
      ParentsInGrow(options, groups, [row]);
      groups := groups + [row];
      next := next.(group := id + 1);
      r := Success(id);
    }

    /** get_group_list: one result per group of the menu, in store order,
        each holding one result per stored option of that group, in order. */
    method GetGroupList(menuId: nat) returns (r: seq<GroupResult>)
      ensures |r| == |Children(groups, menuId)|
      ensures forall i :: 0 <= i < |r| ==>
                var g := Children(groups, menuId)[i];
                && r[i].gId == g.id && r[i].name == g.name && r[i].maxCount == g.attrs.maxCount
                && OptionViews(r[i].options, Children(options, g.id))
    {
      var found := Children(groups, menuId);
      r := [];
      for i := 0 to |found|
        invariant |r| == i
        invariant forall k :: 0 <= k < i ==>
                    && r[k].gId == found[k].id && r[k].name == found[k].name
                    && r[k].maxCount == found[k].attrs.maxCount
                    && OptionViews(r[k].options, Children(options, found[k].id))
      {
        var loaded := Children(options, found[i].id);
        var views: seq<OptionResult> := [];
        for j := 0 to |loaded|
          invariant |views| == j
          invariant forall t :: 0 <= t < j ==> views[t] == OptionView(loaded[t])
        {
          views := views + [OptionResult(loaded[j].id, loaded[j].name, loaded[j].attrs.price)];
        }
        r := r + [GroupResult(found[i].id, found[i].name, found[i].attrs.maxCount, views)];
      }
    }

    /** edit_group: only the fields supplied are changed. */
    method EditGroup(id: nat, name: Option<string>, maxCount: Option<int>)
      requires Valid()
      modifies this`groups
      ensures Valid()
      ensures |groups| == |old(groups)|
      ensures forall i :: 0 <= i < |groups| && old(groups)[i].id != id ==> groups[i] == old(groups)[i]
      ensures forall i :: 0 <= i < |groups| && old(groups)[i].id == id ==>
                var g := old(groups)[i];
                groups[i] == g.(name := Patched(g.name, name),
                                attrs := GroupAttrs(Patched(g.attrs.maxCount, maxCount)))
    {
      var data := map[GroupName := TextValue(name), GroupMaxCount := NumberValue(maxCount)];
      var edit := StripAbsent(data);
      GroupEditPatches(edit, name, maxCount);
      var apply := (g: GroupRow) => EditGroupRow(g, edit);
      UpdatedKeepsKeys(groups, id, apply, IdSet(menus), next.group);
      groups := Updated(groups, id, apply);
    }

    /** remove_group: deletes the listed groups and every option of them. */
    method RemoveGroup(ids: seq<nat>)
      requires Valid()
      modifies this`groups, this`options
      ensures Valid()
      ensures groups == WithoutIds(old(groups), IdsIn(ids))
      ensures options == WithoutIds(old(options), ChildIds(old(options), IdsIn(ids)))
    {
      ghost var og, oo := groups, options;
      assert IdsIn(ids[..0]) == {} && ChildIds(oo, {}) == {};
      WithoutNothing(oo);
      for i := 0 to |ids|
        invariant Valid()
        invariant groups == og
        invariant options == WithoutIds(oo, ChildIds(oo, IdsIn(ids[..i])))
      {
        ghost var done := IdsIn(ids[..i]);
        assert IdsIn(ids[..i + 1]) == done + {ids[i]} by {
          assert ids[..i + 1] == ids[..i] + [ids[i]];
        }
        var found := Children(options, ids[i]);
        ChildrenIds(options, ids[i]);
        CascadeStep(oo, done, {ids[i]});
        if |found| != 0 {
          var optionIds := CollectIds(found);
          CollectedIds(optionIds, found);
          RemoveOption(optionIds);
        } else {
          assert IdSet(found) == {};
          WithoutNothing(options);
        }
      }
      assert ids[..|ids|] == ids;
      WithoutIdsIncreasing(groups, IdsIn(ids));
      CascadeKeepsParents(oo, og, IdsIn(ids));
      groups := WithoutIds(groups, IdsIn(ids));
    }

    // --- options -------------------------------------------------------------

    /** upload_option: a group cannot have two options of the same name;
        otherwise exactly one option is added to the group. */
    method UploadOption(groupId: nat, name: string, price: int) returns (r: Result<nat, Error>)
      requires Valid()
      modifies this`options, this`next
      ensures Valid()
      ensures r == Failure(NotFound) <==> groupId !in IdSet(old(groups))
      ensures r == Failure(Conflict) <==>
                groupId in IdSet(old(groups))
                  && exists o {:trigger o in old(options)} :: o in old(options) && o.parent == groupId && o.name == name
      ensures r.Failure? ==> options == old(options) && next == old(next)
      ensures r.Success? ==>
                && r.value == old(next.option) && r.value !in IdSet(old(options))
                && options == old(options) + [Row(r.value, groupId, name, OptionAttrs(price))]
                && next == old(next).(option := r.value + 1)
    {
      if FindById(groups, groupId).None? {
        return Failure(NotFound);
      }
      if FindByName(options, groupId, name).Some? {
        return Failure(Conflict);
      }
      var id := next.option;
      var row := Row(id, groupId, name, OptionAttrs(price));
      AppendIncreasing(options, row);
      options := options + [row];
      next := next.(option := id + 1);
      r := Success(id);
    }

    /** get_option_list: one result per option of the group, in store order. */
    method GetOptionList(groupId: nat) returns (r: seq<OptionResult>)
      ensures OptionViews(r, Children(options, groupId))
    {
      var found := Children(options, groupId);
      r := [];
      for i := 0 to |found|
        invariant |r| == i
        invariant forall k :: 0 <= k < i ==> r[k] == OptionView(found[k])
      {
        r := r + [OptionResult(found[i].id, found[i].name, found[i].attrs.price)];
      }
    }

    /** edit_option: only the fields supplied are changed. */
    method EditOption(id: nat, name: Option<string>, price: Option<int>)
      requires Valid()
      modifies this`options
      ensures Valid()
      ensures |options| == |old(options)|
      ensures forall i :: 0 <= i < |options| && old(options)[i].id != id ==> options[i] == old(options)[i]
      ensures forall i :: 0 <= i < |options| && old(options)[i].id == id ==>
                var o := old(options)[i];
                options[i] == o.(name := Patched(o.name, name), attrs := OptionAttrs(Patched(o.attrs.price, price)))
    {
      var data := map[OptionName := TextValue(name), OptionPrice := NumberValue(price)];
      var edit := StripAbsent(data);
      OptionEditPatches(edit, name, price);
      var apply := (o: OptionRow) => EditOptionRow(o, edit);
      UpdatedKeepsKeys(options, id, apply, IdSet(groups), next.option);
      options := Updated(options, id, apply);
    }

    /** remove_option: deletes the listed options. */
    method RemoveOption(ids: seq<nat>)
      requires Valid()
      modifies this`options
      ensures Valid()
      ensures options == WithoutIds(old(options), IdsIn(ids))
    {
      WithoutIdsIncreasing(options, IdsIn(ids));
      options := WithoutIds(options, IdsIn(ids));
    }
  }
}
