/** The order entity: an order is an immutable, priced snapshot of a cart.
    Building one copies every cart line, its chosen groups and their options,
    and prices each line as (menu price + option prices) * quantity. */
module OrderEntity {
  import opened Wrappers

  type ObjectId = nat

  /** Only OFFLINE, the default, appears in the order entity; every other
      member of the payment-type enum is carried by its name. */
  datatype PaymentType = Offline | OtherPayment(name: string)

  /** Only NOT_PAYMENT, the default, appears in the order entity. */
  datatype OrderStatus = NotPayment | OtherStatus(name: string)

  /** The user placing the order; only its id is read. */
  datatype User = User(uId: nat)

  // ---------------------------------------------------------------------
  // The cart payload
  // ---------------------------------------------------------------------

  datatype CartOption = CartOption(name: string, price: int)
  datatype CartGroup = CartGroup(name: string, options: seq<CartOption>)
  /** `groups == None` is a cart menu whose `group` is undefined. */
  datatype CartMenu = CartMenu(name: string, price: int, quantity: int, groups: Option<seq<CartGroup>>)
  datatype Cart = Cart(restaurantId: nat, paymentType: PaymentType, discountAmount: int, menus: seq<CartMenu>)

  // ---------------------------------------------------------------------
  // The snapshot stored in an order
  // ---------------------------------------------------------------------

  datatype DetailOption = DetailOption(name: string, price: int)
  datatype DetailGroup = DetailGroup(name: string, options: seq<DetailOption>)
  datatype Detail = Detail(name: string, price: int, quantity: int, subPrice: int, groups: seq<DetailGroup>)

  // ---------------------------------------------------------------------
  // Specification functions
  // ---------------------------------------------------------------------

  /** Sum of the prices of a list of options. */
  function OptionPrices(os: seq<CartOption>): int
  {
    if os == [] then 0 else OptionPrices(os[..|os| - 1]) + os[|os| - 1].price
  }

  /** Sum, over the groups, of the prices of each group's options. */
  function GroupPrices(gs: seq<CartGroup>): int
  {
    if gs == [] then 0 else GroupPrices(gs[..|gs| - 1]) + OptionPrices(gs[|gs| - 1].options)
  }

  /** Every option of every group, in order: a flat reference for GroupPrices. */
  function AllOptions(gs: seq<CartGroup>): seq<CartOption>
  {
    if gs == [] then [] else AllOptions(gs[..|gs| - 1]) + gs[|gs| - 1].options
  }

  /** The groups the constructor walks: none when `group` is undefined. */
  function LineGroups(m: CartMenu): seq<CartGroup>
  {
    if m.groups.Some? then m.groups.value else []
  }

  /** The copies of a group's options (OrderDetailOptionClass). */
  function SnapshotOptions(os: seq<CartOption>): (r: seq<DetailOption>)
    ensures |r| == |os|
  {
    if os == [] then []
    else SnapshotOptions(os[..|os| - 1]) + [DetailOption(os[|os| - 1].name, os[|os| - 1].price)]
  }

  /** The copies of a cart menu's groups (OrderDetailGroupClass). */
  function SnapshotGroups(gs: seq<CartGroup>): (r: seq<DetailGroup>)
    ensures |r| == |gs|
  {
    if gs == [] then []
    else
      var last := gs[|gs| - 1];
      SnapshotGroups(gs[..|gs| - 1]) + [DetailGroup(last.name, SnapshotOptions(last.options))]
  }

  /** A snapshot group has its cart group's name and a copy of each of its
      options, in order, with name and price. */
  predicate GroupMirrors(d: DetailGroup, g: CartGroup)
  {
    && d.name == g.name
    && |d.options| == |g.options|
    && forall j :: 0 <= j < |g.options| ==>
         d.options[j].name == g.options[j].name && d.options[j].price == g.options[j].price
  }

  /** The detail line built for one cart menu (OrderDetailClass). */
  function SnapshotLine(m: CartMenu): Detail
  {
    var gs := LineGroups(m);
    Detail(m.name, m.price, m.quantity, (m.price + GroupPrices(gs)) * m.quantity, SnapshotGroups(gs))
  }

  /** The detail lines of an order: one per cart menu, in cart order. */
  function Snapshot(ms: seq<CartMenu>): (r: seq<Detail>)
    ensures |r| == |ms|
  {
    if ms == [] then [] else Snapshot(ms[..|ms| - 1]) + [SnapshotLine(ms[|ms| - 1])]
  }

  /** Sum of the sub-prices of a list of detail lines. */
  function SumSubPrices(ds: seq<Detail>): int
  {
    if ds == [] then 0 else SumSubPrices(ds[..|ds| - 1]) + ds[|ds| - 1].subPrice
  }

  /** Independent reference for a line's price: the menu price plus the
      price of every chosen option, taken from the flat option list. */
  function LinePrice(m: CartMenu): int
  {
    (m.price + OptionPrices(AllOptions(LineGroups(m)))) * m.quantity
  }

  /** Independent reference for the sum of the line prices of a cart. */
  function CartTotal(ms: seq<CartMenu>): int
  {
    if ms == [] then 0 else CartTotal(ms[..|ms| - 1]) + LinePrice(ms[|ms| - 1])
  }

  // ---------------------------------------------------------------------
  // Building one detail line (the body of the loop over cart menus)
  // ---------------------------------------------------------------------

  /** Copies one cart menu, its groups and their options, and accumulates
      the line's sub-price: the menu price plus each copied option price,
      multiplied by the quantity. */
  method BuildDetail(m: CartMenu) returns (d: Detail)
    ensures d == SnapshotLine(m)
  {
    var subPrice := m.price;
    var detailGroups: seq<DetailGroup> := [];
    if m.groups.Some? {
      var gs := m.groups.value;
      for k := 0 to |gs|
        invariant detailGroups == SnapshotGroups(gs[..k])
        invariant subPrice == m.price + GroupPrices(gs[..k])
      {
        var os := gs[k].options;
        var detailOptions: seq<DetailOption> := [];
        for j := 0 to |os|
          invariant detailOptions == SnapshotOptions(os[..j])
          invariant subPrice == m.price + GroupPrices(gs[..k]) + OptionPrices(os[..j])
        {
          var option := DetailOption(os[j].name, os[j].price);
          detailOptions := detailOptions + [option];
          subPrice := subPrice + option.price;
          assert os[..j + 1][..j] == os[..j];
        }
        assert os[..|os|] == os;
        detailGroups := detailGroups + [DetailGroup(gs[k].name, detailOptions)];
        assert gs[..k + 1][..k] == gs[..k];
      }
      assert gs[..|gs|] == gs;
    }
    subPrice := subPrice * m.quantity;
    var lineGroups: seq<DetailGroup> := [];
    for k := 0 to |detailGroups|
      invariant lineGroups == detailGroups[..k]
    {
      lineGroups := lineGroups + [detailGroups[k]];
    }
    assert detailGroups[..|detailGroups|] == detailGroups;
    d := Detail(m.name, m.price, m.quantity, subPrice, lineGroups);
  }

  /** The constructor's loop over the cart menus: one detail line per cart
      menu, in order, and the running total, which starts at minus the
      discount and adds each line's sub-price. */
  method BuildDetails(ms: seq<CartMenu>, discountAmount: int) returns (lines: seq<Detail>, total: int)
    ensures lines == Snapshot(ms)
    ensures total == SumSubPrices(lines) - discountAmount
  {
    total := -discountAmount;
    lines := [];
    for i := 0 to |ms|
      invariant lines == Snapshot(ms[..i])
      invariant total == SumSubPrices(lines) - discountAmount
    {
      var line := BuildDetail(ms[i]);
      SnapshotStep(ms, i, lines, line);
      lines := lines + [line];
      total := total + line.subPrice;
    }
    assert ms[..|ms|] == ms;
  }

  // ---------------------------------------------------------------------
  // The order entity
  // ---------------------------------------------------------------------

  class Order {
    const id: Option<ObjectId>             // _id
    const orderId: Option<ObjectId>        // od_id
    const paymentType: PaymentType         // od_payment_type
    const discountAmount: Option<int>      // od_discount_amount
    const status: OrderStatus              // od_status
    const totalPrice: Option<int>          // od_total_price
    const userId: Option<nat>              // f_u_id
    const restaurantId: Option<nat>        // f_r_id
    const detail: Option<seq<Detail>>      // od_detail

    /** Neither an order nor a user given: only the field defaults are set. */
    constructor Blank()
      ensures id == None && orderId == None && discountAmount == None
      ensures totalPrice == None && userId == None && restaurantId == None && detail == None
      ensures paymentType == Offline && status == NotPayment
    {
      id, orderId, discountAmount := None, None, None;
      totalPrice, userId, restaurantId, detail := None, None, None, None;
      paymentType, status := Offline, NotPayment;
    }

    /** Copy of a stored order; `od_id` becomes the stored order's `_id`. */
    constructor FromOrder(order: Order)
      ensures id == order.id && orderId == order.id
      ensures paymentType == order.paymentType && discountAmount == order.discountAmount
      ensures status == order.status && totalPrice == order.totalPrice
      ensures userId == order.userId && restaurantId == order.restaurantId
      ensures detail == order.detail
    {
      id, orderId := order.id, order.id;
      paymentType, discountAmount := order.paymentType, order.discountAmount;
      status, totalPrice := order.status, order.totalPrice;
      userId, restaurantId, detail := order.userId, order.restaurantId, order.detail;
    }

    /** A new order from a cart placed by a user: one priced detail line per
        cart menu, the total being the sum of the sub-prices less the
        discount. The discount itself is not stored and the status keeps its
        default. */
    constructor FromCart(cart: Cart, user: User)
      ensures id == None && orderId == None && discountAmount == None
      ensures status == NotPayment && paymentType == cart.paymentType
      ensures restaurantId == Some(cart.restaurantId) && userId == Some(user.uId)
      ensures detail == Some(Snapshot(cart.menus))
      ensures totalPrice == Some(SumSubPrices(Snapshot(cart.menus)) - cart.discountAmount)
      ensures totalPrice == Some(CartTotal(cart.menus) - cart.discountAmount)
    {
      var lines, total := BuildDetails(cart.menus, cart.discountAmount);
      SnapshotTotal(cart.menus);
      id, orderId, discountAmount := None, None, None;
      status := NotPayment;
      totalPrice := Some(total);
      restaurantId := Some(cart.restaurantId);
      paymentType := cart.paymentType;
      detail := Some(lines);
      userId := Some(user.uId);
    }
  }

  /** One more cart menu adds its detail line to the snapshot and its
      sub-price to the sum. */
  lemma SnapshotStep(ms: seq<CartMenu>, i: nat, lines: seq<Detail>, line: Detail)
    requires i < |ms| && lines == Snapshot(ms[..i]) && line == SnapshotLine(ms[i])
    ensures lines + [line] == Snapshot(ms[..i + 1])
    ensures SumSubPrices(lines + [line]) == SumSubPrices(lines) + line.subPrice
  {
    assert ms[..i + 1][..i] == ms[..i];
    assert (lines + [line])[..|lines|] == lines;
  }

  // ---------------------------------------------------------------------
  // Properties of the snapshot
  // ---------------------------------------------------------------------

  lemma {:induction false} OptionPricesAppend(a: seq<CartOption>, b: seq<CartOption>)
    ensures OptionPrices(a + b) == OptionPrices(a) + OptionPrices(b)
    decreases |b|
  {
    if b == [] {
      assert a + b == a;
    } else {
      assert (a + b)[..|a + b| - 1] == a + b[..|b| - 1];
      OptionPricesAppend(a, b[..|b| - 1]);
    }
  }

  /** Summing option prices group by group equals summing the flat list of
      all options. */
  lemma {:induction false} GroupPricesFlat(gs: seq<CartGroup>)
    ensures GroupPrices(gs) == OptionPrices(AllOptions(gs))
    decreases |gs|
  {
    if gs != [] {
      GroupPricesFlat(gs[..|gs| - 1]);
      OptionPricesAppend(AllOptions(gs[..|gs| - 1]), gs[|gs| - 1].options);
    }
  }

  /** Each copied option has its cart option's name and price. */
  lemma {:induction false} SnapshotOptionsAt(os: seq<CartOption>)
    ensures forall j :: 0 <= j < |os| ==>
              SnapshotOptions(os)[j].name == os[j].name && SnapshotOptions(os)[j].price == os[j].price
  {
    if os != [] {
      SnapshotOptionsAt(os[..|os| - 1]);
    }
  }

  /** Each copied group mirrors its cart group. */
  lemma {:induction false} SnapshotGroupsAt(gs: seq<CartGroup>)
    ensures forall k :: 0 <= k < |gs| ==> GroupMirrors(SnapshotGroups(gs)[k], gs[k])
  {
    if gs != [] {
      SnapshotGroupsAt(gs[..|gs| - 1]);
      SnapshotOptionsAt(gs[|gs| - 1].options);
    }
  }

  /** The i-th detail line is built from the i-th cart menu. */
  lemma {:induction false} SnapshotAt(ms: seq<CartMenu>)
    ensures forall i :: 0 <= i < |ms| ==> Snapshot(ms)[i] == SnapshotLine(ms[i])
  {
    if ms != [] {
      SnapshotAt(ms[..|ms| - 1]);
    }
  }

  /** The detail line of a cart menu copies its name, price and quantity,
      mirrors its groups and options in order, and has sub-price (menu price
      + every option price across all its groups) * quantity; an undefined
      group list gives no groups and price * quantity. */
  lemma SnapshotLineMirrors(m: CartMenu)
    ensures SnapshotLine(m).name == m.name
    ensures SnapshotLine(m).price == m.price
    ensures SnapshotLine(m).quantity == m.quantity
    ensures SnapshotLine(m).subPrice == LinePrice(m)
    ensures |SnapshotLine(m).groups| == |LineGroups(m)|
    ensures forall k :: 0 <= k < |LineGroups(m)| ==> GroupMirrors(SnapshotLine(m).groups[k], LineGroups(m)[k])
    ensures m.groups.None? ==> SnapshotLine(m).groups == [] && SnapshotLine(m).subPrice == m.price * m.quantity
  {
    var gs := LineGroups(m);
    SnapshotGroupsAt(gs);
    GroupPricesFlat(gs);
    assert m.price + GroupPrices(gs) == m.price + OptionPrices(AllOptions(gs));
  }

  /** The i-th detail line of an order is the detail line of the i-th cart
      menu, with the properties SnapshotLineMirrors states. */
  lemma SnapshotDetailLine(ms: seq<CartMenu>, i: nat)
    requires i < |ms|
    ensures |Snapshot(ms)| == |ms|
    ensures Snapshot(ms)[i] == SnapshotLine(ms[i])
    ensures Snapshot(ms)[i].subPrice == LinePrice(ms[i])
    ensures forall k :: 0 <= k < |LineGroups(ms[i])| ==>
              GroupMirrors(Snapshot(ms)[i].groups[k], LineGroups(ms[i])[k])
  {
    SnapshotAt(ms);
    SnapshotLineMirrors(ms[i]);
  }

  /** The order total before the discount (the sum of the detail sub-prices)
      equals the cart total computed line by line from flat option lists. */
  lemma {:induction false} SnapshotTotal(ms: seq<CartMenu>)
    ensures SumSubPrices(Snapshot(ms)) == CartTotal(ms)
    decreases |ms|
  {
    if ms != [] {
      SnapshotTotal(ms[..|ms| - 1]);
      GroupPricesFlat(LineGroups(ms[|ms| - 1]));
    }
  }
}
