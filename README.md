# Thikira back end: order snapshots and the menu service

This project is a Dafny model of two parts of a restaurant-ordering back end.
It proves properties of both.

- **The order entity.** An `Order` built from a cart is an immutable, priced
  snapshot of that cart:
  - one detail line per cart menu, in cart order;
  - each line holds a copy of the menu's chosen groups and their options;
  - each line has a sub-price of (menu price + every chosen option price) × quantity;
  - the order total is the sum of the sub-prices less the discount.

  An `Order` can also be built as a copy of a stored order.
- **The menu service.** It keeps four tables: menu categories (under a
  restaurant), menus (under a category), option groups (under a menu) and
  options (under a group).
  - Uploads reject a name already used under the same parent.
  - `upload_menu` creates a menu together with its groups and their options.
  - Edits change only the fields the request supplies.
  - Removals cascade from a category down to its options.
  - The list queries copy what is stored, one result per row.

Files:

- `wrappers.dfy`: module `Wrappers`, the `Option` and `Result` types.
- `order_entity.dfy`: module `OrderEntity`. It contains:
  - the cart and snapshot datatypes (`OrderDetailClass`,
    `OrderDetailGroupClass` and `OrderDetailOptionClass` become `Detail`,
    `DetailGroup` and `DetailOption`);
  - the specification functions `Snapshot` and `SnapshotLine`, and the
    reference sums `LinePrice` and `CartTotal`;
  - the loops of the constructor as the methods `BuildDetail` and `BuildDetails`;
  - the class `Order` with its three construction paths;
  - lemmas about the snapshot.
- `menu_store.dfy`: module `MenuStore`. A table is a sequence of
  `Row(id, parent, name, attrs)` in store order. The database-access layer is
  not part of this model. This module states, as functions over tables, what
  the service relies on from its find, update and delete calls. Inserts are
  modelled in `MenuService` itself, and the id counters are `Menu.NextIds`.
- `menu_service.dfy`: module `Menu`, the class `MenuService`. Its fields are
  the four tables and the next id of each table. `Valid()` says:
  - ids increase in store order and stay below the next id;
  - every menu, group and option has its parent.

  Every method preserves `Valid()`. The module also holds the specification
  functions of the bulk creation in `upload_menu`, the partial-update
  functions, and lemmas.

## Model

| member | source | states |
|---|---|---|
| OrderEntity.BuildDetail | libs/db/src/entity/order.entity.ts:89-107 | The nested loops over one cart menu's groups and options build exactly `SnapshotLine(m)`. That line has the menu's name, price and quantity, a copy of each group and option in order, and sub-price (price + option prices) × quantity. |
| OrderEntity.BuildDetails | libs/db/src/entity/order.entity.ts:85-110 | The loop over cart menus gives one detail line per cart menu, in order (`Snapshot(ms)`). The running total, which starts at minus the discount, ends at the sum of the sub-prices less the discount. |
| OrderEntity.Order.FromCart | libs/db/src/entity/order.entity.ts:84-112 | An order built from a cart and a user has restaurant, payment type and user id copied from them and status NOT_PAYMENT. Its detail is the cart's snapshot. Its total equals both the sum of the detail sub-prices less the discount and the line-by-line cart total less the discount. |
| OrderEntity.Order.FromOrder | libs/db/src/entity/order.entity.ts:79-82 | A copy of a stored order has every field of it, except that `od_id` is the stored order's `_id`. |
| OrderEntity.Order.Blank | libs/db/src/entity/order.entity.ts:64-68 | With neither a stored order nor a user, only the defaults are set: payment type OFFLINE and status NOT_PAYMENT. |
| OrderEntity.SnapshotStep | libs/db/src/entity/order.entity.ts:108-109 | One more cart menu appends its detail line to the snapshot and adds its sub-price to the sum. |
| OrderEntity.SnapshotOptionsAt | libs/db/src/entity/order.entity.ts:13-17 | The j-th copied option has the name and price of the j-th option of the group. |
| OrderEntity.SnapshotGroupsAt | libs/db/src/entity/order.entity.ts:91-99 | The k-th copied group has the k-th group's name and a copy of each of its options, in order. |
| OrderEntity.SnapshotAt | libs/db/src/entity/order.entity.ts:88-108 | The i-th detail line is built from the i-th cart menu. |
| OrderEntity.GroupPricesFlat | libs/db/src/entity/order.entity.ts:90-101 | Adding option prices group by group equals adding the prices of the flat list of every chosen option. |
| OrderEntity.OptionPricesAppend | libs/db/src/entity/order.entity.ts:96-99 | The option price sum of two lists joined is the sum of their sums. |
| OrderEntity.SnapshotLineMirrors | libs/db/src/entity/order.entity.ts:89-107 | A detail line copies name, price and quantity and mirrors groups and options in order. Its sub-price is (menu price + every option price across its groups) × quantity. A menu whose `group` is undefined gives no groups and price × quantity. |
| OrderEntity.SnapshotDetailLine | libs/db/src/entity/order.entity.ts:88-108 | The i-th detail line of an order is the line of the i-th cart menu, with the sub-price and group mirroring stated above. |
| OrderEntity.SnapshotTotal | libs/db/src/entity/order.entity.ts:85-109 | The sum of the snapshot's sub-prices equals the independent cart total computed from flat option lists. |
| MenuStore.Children | libs/menu/src/menu.service.ts:64 | `find_*s_by_<parent>` returns every row of that parent and nothing else, in store order. |
| MenuStore.FindByName | libs/menu/src/menu.service.ts:24-25 | `find_*_by_name` finds a row iff a row with that parent and that name exists; otherwise it gives the empty entity. |
| MenuStore.FindById | libs/menu/src/menu.service.ts:35 | `find_*_by_id` finds a row iff that id is stored, and the row has that id. |
| MenuStore.WithoutIds | libs/menu/src/menu.service.ts:73 | `delete_*(ids)` keeps exactly the rows whose id is not listed. |
| MenuStore.Updated | libs/menu/src/menu.service.ts:58 | `update_*(id, data)` applies the edit to the row with that id and leaves every other row, and the length, unchanged. |
| MenuStore.CollectedIds | libs/menu/src/menu.service.ts:66-69 | The ids pushed for a list of rows are exactly the ids of those rows. |
| MenuStore.ChildrenIds | libs/menu/src/menu.service.ts:64-70 | The ids of a parent's children are the child ids of that parent. |
| MenuStore.CascadeStep | libs/menu/src/menu.service.ts:62-72 | Deleting the children of one more parent, after those of earlier parents, leaves exactly the rows that are children of none of them. |
| MenuStore.WithoutIdsTwice | libs/menu/src/menu.service.ts:70-73 | Deleting two id sets in turn deletes their union. |
| MenuStore.CascadeKeepsParents | libs/menu/src/menu.service.ts:61-74 | After parents are deleted together with all their children, every remaining child still has its parent. |
| Menu.StripAbsent | libs/menu/src/menu.service.ts:125-129 | The loop over the edit data keeps exactly the keys whose value is neither undefined nor null, with their values. |
| Menu.MenuEditPatches | libs/menu/src/menu.service.ts:118-131 | The stripped edit_menu data changes exactly the supplied fields: each is the requested value when given and the stored one otherwise. |
| Menu.GroupEditPatches | libs/menu/src/menu.service.ts:183-194 | The same for edit_group: name and max count. |
| Menu.OptionEditPatches | libs/menu/src/menu.service.ts:241-252 | The same for edit_option: name and price. |
| Menu.CollectIds | libs/menu/src/menu.service.ts:66-69 | Collects one id per row, in order. |
| Menu.NewGroupRows | libs/menu/src/menu.service.ts:87-90 | The k-th new group is the k-th payload group, attached to the new menu, with the k-th fresh id. |
| Menu.BuildGroups | libs/menu/src/menu.service.ts:87-90 | The group loop of upload_menu builds exactly `NewGroupRows`. |
| Menu.BuildOptions | libs/menu/src/menu.service.ts:93-100 | The nested option loop of upload_menu builds exactly `NewOptionRows`. |
| Menu.OptionRowsAt | libs/menu/src/menu.service.ts:96-98 | The j-th option row of a group is the j-th payload option of that group, with its id. |
| Menu.NewOptionRowsKeys | libs/menu/src/menu.service.ts:93-100 | The new options take consecutive ids, and each belongs to one of the new groups. |
| Menu.OptionRowsPayloads | libs/menu/src/menu.service.ts:96-98 | Reading back the name and price of the rows made from payload options gives those options. |
| Menu.NoPayloadOptions | libs/menu/src/menu.service.ts:93-103 | When no payload group carries options, no option is created. |
| Menu.NewOptionsOfGroup | libs/menu/src/menu.service.ts:94-99 | Among the created options, those of the k-th new group are exactly the k-th payload group's options, in order. |
| Menu.GroupOptionsSettled | libs/menu/src/menu.service.ts:94-99 | Later payload groups add no option to an earlier new group. |
| Menu.NewOptionsOfLastGroup | libs/menu/src/menu.service.ts:94-99 | The options of the last new group are exactly its payload group's options. |
| Menu.NewOptionsOfEarlierGroup | libs/menu/src/menu.service.ts:94-99 | Adding the options of one more group leaves the options of earlier groups unchanged. |
| Menu.UploadedOptionsOfGroup | libs/menu/src/menu.service.ts:93-103 | After the insert, the stored options of the k-th new group are exactly the k-th payload group's options, in order. |
| Menu.UploadedChildren | libs/menu/src/menu.service.ts:86-103 | After upload_menu, the new menu's groups are exactly the new groups, and the options of each new group are exactly its payload group's options (none when the payload group has none). |
| Menu.NewRowsValid | libs/menu/src/menu.service.ts:83-103 | The rows upload_menu adds keep ids increasing and below the advanced counters, and give every new group and option its parent. |
| Menu.UpdatedKeepsKeys | libs/menu/src/menu.service.ts:130 | An update that keeps id and parent keeps the table's ids, their order and every row's parent. |
| Menu.MenuService.UploadMenuCategory | libs/menu/src/menu.service.ts:21-32 | Conflict iff the restaurant already has a category of that name, with nothing changed. Otherwise exactly one category is appended under the restaurant, with a fresh id. |
| Menu.MenuService.GetMenuCategory | libs/menu/src/menu.service.ts:34-40 | A result iff the id is stored; it carries that category's id and name. |
| Menu.MenuService.GetMenuCategoryList | libs/menu/src/menu.service.ts:42-55 | One result per category of the restaurant, in store order, with id and name copied. Every such category appears, and nothing else does. |
| Menu.MenuService.EditMenuCategory | libs/menu/src/menu.service.ts:57-59 | The category with that id is renamed; every other row and field is unchanged. |
| Menu.MenuService.RemoveMenuCategory | libs/menu/src/menu.service.ts:61-74 | Deletes the listed categories, every menu of them, every group of those menus and every option of those groups, and nothing else. No remaining menu has a deleted category, and every remaining row keeps its parent. |
| Menu.MenuService.UploadMenu | libs/menu/src/menu.service.ts:76-106 | NotFound iff the category is not stored. Conflict iff the category has a menu of that name. On either failure nothing changes. On success one menu is appended, then `NewGroupRows` and `NewOptionRows` of the payload, and the counters advance. |
| Menu.MenuService.EditMenu | libs/menu/src/menu.service.ts:118-131 | Only the supplied fields (neither undefined nor null) of the menu with that id change; every other field and menu is unchanged. |
| Menu.MenuService.RemoveMenu | libs/menu/src/menu.service.ts:133-147 | Deletes the listed menus, every group of them and every option of those groups, and nothing else. |
| Menu.MenuService.UploadGroup | libs/menu/src/menu.service.ts:149-160 | NotFound iff the menu is not stored. Conflict iff the menu has a group of that name. Otherwise exactly one group is appended to the menu. |
| Menu.MenuService.GetGroupList | libs/menu/src/menu.service.ts:167-181 | One result per group of the menu, in store order. Each holds one result per stored option of that group, in order, with the fields copied. |
| Menu.MenuService.EditGroup | libs/menu/src/menu.service.ts:183-194 | Only the supplied fields of the group with that id change. |
| Menu.MenuService.RemoveGroup | libs/menu/src/menu.service.ts:196-210 | Deletes the listed groups and every option of them, and nothing else. |
| Menu.MenuService.UploadOption | libs/menu/src/menu.service.ts:212-221 | NotFound iff the group is not stored. Conflict iff the group has an option of that name. Otherwise exactly one option is appended to the group. |
| Menu.MenuService.GetOptionList | libs/menu/src/menu.service.ts:228-239 | One result per option of the group, in store order, with id, name and price copied. |
| Menu.MenuService.EditOption | libs/menu/src/menu.service.ts:241-252 | Only the supplied fields of the option with that id change. |
| Menu.MenuService.RemoveOption | libs/menu/src/menu.service.ts:254-256 | Deletes exactly the listed options. |

## Left out

- Token lookup: turning a token into an email and then a restaurant
  (`get_email_by_token`, `find_restaurant_by_email`) calls code that is not
  part of this model. The restaurant id is a parameter instead.
- Database layer: its internals and the entity constructors `MenuCategory`,
  `Menu`, `Group` and `Option` are not part of this model. `MenuStore` states
  the assumed behaviour of the find, update and delete calls. The rest is
  assumed as follows.
  - An insert appends one row at the end of its table, in store order. The
    store-order results of get_menu_category_list, get_group_list and
    get_option_list depend on this.
  - A new row takes the fields of its payload as `UploadMenuCategory`,
    `UploadMenu` (with `NewGroupRows` and `NewOptionRows`), `UploadGroup` and
    `UploadOption` state them.
  - Ids come from a per-table counter (`Menu.NextIds`) starting at 1, so a fresh id is above
    every stored id.
  - Object ids of orders are left unset.
- Response constructors: `ResGetMenuCategory`, `ResGetGroup` and
  `ResGetOption` are not part of this model. They are assumed to copy the
  `mc_id` and name of a category (`CategoryView`), the id, name and max count
  of a group (`GroupResult`), and the id, name and price of an option
  (`OptionView`).
- `UtilService.range(xs)` is not part of this model. It is assumed to give
  the indices 0 to |xs| − 1 in ascending order. The index loops of
  upload_menu rest on this, and so do the consecutive option ids of
  `NewOptionRowsKeys` and the group-by-index matching of `UploadedChildren`.
- get_menu, get_group, get_option and get_menu_list: each only hands a
  database result to a response constructor or to `find_menus_groups_options`,
  and none of those is part of this model.
- Missing parents: upload_menu, upload_group and upload_option do not check
  that the parent exists; the unseen lookup would then give an undefined
  entity. The model reports `NotFound` and leaves the store unchanged.
- get_menu_category with an id that is not stored returns `None` instead of
  failing on an undefined entity.
- remove_*, get_group_list and get_option_list with an id that is not
  stored: the source hands the undefined lookup result to the database layer.
  The model finds no children for it, so nothing cascades and the list is
  empty.
- `find_groups_and_options` (get_group_list) is assumed to return the groups
  of the menu in store order, each with the options of that group in store
  order: `Children(groups, m)`, and `Children(options, g.id)` for each group.
- Exceptions: `ConflictException` is `Failure(Conflict)`. async/await is
  sequential method calls, with no interleaving.
- Numbers: prices, quantities, discounts and max counts are unbounded
  integers. JavaScript floating point and rounding are not modelled.
- Null and undefined: both are `None`, in the edit requests of edit_menu,
  edit_group and edit_option and in the `group`/`option` payload lists, where
  the service treats them alike.
- Menu.MenuService.EditMenuCategory: the model takes the new name as always
  present. Unlike the other three edits, edit_menu_category does not drop an
  undefined or null name: it passes the name straight to the update.
- Aliasing: the order entity pushes each group copy into a local list and
  then fills that same object's options. Only after that does it create the
  detail line and copy the groups into it. The model builds the same final
  values without shared references.
- Order constructor failures: when a cart has a missing or malformed field,
  the order constructor fails or computes NaN. These cases are not modelled.
  The cart datatypes cannot express them.
  - A cart menu whose `group` is `null` fails when the constructor iterates
    it, because it checks only for `undefined`.
  - A cart group with no `option` list fails the same way.
  - A missing `discount_amount` makes the total NaN.

  The model takes `group` as present or undefined, each group's options as a
  list, and the discount as an integer.
- Enums: the payment-type and order-status enums are not part of this model.
  Only their defaults OFFLINE and NOT_PAYMENT have names; other members carry
  their name.
- OrderDetail* constructors called without a parameter: the order entity
  never calls them that way, so this path is not modelled.
- `od_discount_amount` is never assigned when an order is built from a cart;
  the model leaves it unset, as the source does.
- Controllers and module wiring: HTTP routing and dependency injection only.
