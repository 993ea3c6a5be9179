/**
 The dashboard's menu panel: which restaurant's menu is open, the per-restaurant
 menu cache, and the checkboxes a menu is rendered with, each starting ticked
 exactly when the cart already holds that item.
 */
module Menu {
  import opened Options
  import opened ShoppingCart

  /** A restaurant as the restaurant list delivers it (only the fields the menu uses). */
  datatype Restaurant = Restaurant(restaurantID: RestaurantId, name: string)

  /** A menu row as the menu endpoint delivers it, with its price already parsed. */
  datatype MenuItem = MenuItem(itemID: string, name: string, price: Price)

  /** A rendered menu checkbox: its `data-*` attributes, its value and its ticked state. */
  datatype Checkbox = Checkbox(restaurantID: RestaurantId, restaurantName: string, price: Price,
                               name: string, value: string, checked: bool)

  /** What the menu panel shows. */
  datatype MenuPanel =
    | Placeholder                                  // "Select a restaurant to view available dishes."
    | NoMenu(restaurantName: string)               // "No menu available for ..."
    | Shown(restaurantName: string, boxes: seq<Checkbox>)

  /** The checkbox `renderMenu` builds for one menu row, ticked from the cart rather than the page. */
  function RenderBox(cart: CartMap, restaurant: Restaurant, row: MenuItem): Checkbox
  {
    Checkbox(restaurant.restaurantID, restaurant.name, row.price, row.name, row.itemID,
             InitiallyChecked(cart, restaurant.restaurantID, row.itemID))
  }

  /** `renderMenu`: one checkbox per menu row, in menu order. */
  function RenderMenu(cart: CartMap, restaurant: Restaurant, rows: seq<MenuItem>): (boxes: seq<Checkbox>)
    ensures |boxes| == |rows|
    ensures forall i :: 0 <= i < |rows| ==>
              && boxes[i].value == rows[i].itemID
              && boxes[i].restaurantID == restaurant.restaurantID
              && boxes[i].price == rows[i].price
              && (boxes[i].checked <==> restaurant.restaurantID in cart &&
                                        exists e :: e in cart[restaurant.restaurantID] && e.id == rows[i].itemID)
  {
    seq(|rows|, i requires 0 <= i < |rows| => RenderBox(cart, restaurant, rows[i]))
  }

  /** The cart entry `toggleCartForCheckbox` reads off a checkbox's attributes. */
  function EntryOf(box: Checkbox): Item
  {
    Item(box.value, box.name, box.price, box.restaurantName)
  }

  /**
   The change listener: the customer sets a rendered checkbox to `checked`. Only
   that box's restaurant bucket changes, and the checked-state rule then gives
   back the state the customer chose.
   */
  function Changed(cart: CartMap, box: Checkbox, checked: bool): (r: CartMap)
    ensures r - {box.restaurantID} == cart - {box.restaurantID}
    ensures InitiallyChecked(r, box.restaurantID, box.value) == checked
  {
    ToggleSyncsCheckbox(cart, box.restaurantID, EntryOf(box), checked);
    Toggled(cart, box.restaurantID, EntryOf(box), checked)
  }

  /**
   The entry read back from a rendered checkbox is the menu row it was rendered
   for, tagged with the restaurant's name, in the restaurant's bucket. Names are
   taken to survive the unescaped `data-` attributes unchanged.
   */
  lemma RenderedBoxEntry(cart: CartMap, restaurant: Restaurant, rows: seq<MenuItem>, i: nat)
    requires i < |rows|
    ensures var box := RenderMenu(cart, restaurant, rows)[i];
            && box.restaurantID == restaurant.restaurantID
            && EntryOf(box) == Item(rows[i].itemID, rows[i].name, rows[i].price, restaurant.name)
  {
  }

  /** Toggling one item leaves the ticked state of every other item ID as it was. */
  lemma ToggleKeepsOtherIds(cart: CartMap, restID: RestaurantId, item: Item, checked: bool,
                            r: RestaurantId, otherID: string)
    requires r != restID || otherID != item.id
    ensures InitiallyChecked(Toggled(cart, restID, item, checked), r, otherID)
         == InitiallyChecked(cart, r, otherID)
  {
  }

  /**
   Keeping the checkboxes in sync with the cart: after the customer changes box
   `i` of a rendered menu, rendering that menu again shows box `i` in the state
   the customer chose, and every box for a different item as it was.
   */
  lemma RerenderAfterChange(cart: CartMap, restaurant: Restaurant, rows: seq<MenuItem>,
                            i: nat, checked: bool)
    requires i < |rows|
    ensures var before := RenderMenu(cart, restaurant, rows);
            var after := RenderMenu(Changed(cart, before[i], checked), restaurant, rows);
            && after[i].checked == checked
            && forall j :: 0 <= j < |rows| && rows[j].itemID != rows[i].itemID ==>
                 after[j] == before[j]
  {
  }

  /** After the cart is cleared every menu renders with all boxes unticked. */
  lemma ClearedMenuUnticked(restaurant: Restaurant, rows: seq<MenuItem>)
    ensures forall b :: b in RenderMenu(map[], restaurant, rows) ==> !b.checked
  {
  }

  /**
   The page's menu state: `activeRestaurantID`, the restaurant whose menu is
   open, and `menuCache`, the menus already fetched, keyed by restaurant ID.
   */
  class MenuBrowser {
    var activeRestaurantID: Option<RestaurantId>
    var menuCache: map<RestaurantId, seq<MenuItem>>

    /** Only non-empty menus are ever cached. */
    ghost predicate Valid()
      reads this
    {
      forall r :: r in menuCache ==> |menuCache[r]| > 0
    }

    constructor ()
      ensures Valid() && activeRestaurantID == None && menuCache == map[]
    {
      activeRestaurantID := None;
      menuCache := map[];
    }

    /**
     `loadMenu`: `served` is what the menu endpoint returns for the restaurant.
     An empty menu shows "no menu" and is not cached; otherwise it is cached
     and rendered against the cart.
     */
    method LoadMenu(restaurant: Restaurant, cart: CartMap, served: seq<MenuItem>) returns (panel: MenuPanel)
      requires Valid()
      modifies this`menuCache
      ensures Valid()
      ensures |served| == 0 ==> menuCache == old(menuCache) && panel == NoMenu(restaurant.name)
      ensures |served| > 0 ==> menuCache == old(menuCache)[restaurant.restaurantID := served]
      ensures |served| > 0 ==> panel == Shown(restaurant.name, RenderMenu(cart, restaurant, served))
    {
      if |served| == 0 {
        panel := NoMenu(restaurant.name);
        return;
      }
      menuCache := menuCache[restaurant.restaurantID := served];
      panel := Shown(restaurant.name, RenderMenu(cart, restaurant, served));
    }

    /**
     `handleRestaurantClick`: clicking the open restaurant closes its menu;
     clicking any other opens it, from the cache when it is there and from
     the menu endpoint (`served`) otherwise.
     */
    method Click(restaurant: Restaurant, cart: CartMap, served: seq<MenuItem>) returns (panel: MenuPanel)
      requires Valid()
      modifies this
      ensures Valid()
      ensures old(activeRestaurantID) == Some(restaurant.restaurantID) ==>
                activeRestaurantID == None && panel == Placeholder && menuCache == old(menuCache)
      ensures old(activeRestaurantID) != Some(restaurant.restaurantID) ==>
                activeRestaurantID == Some(restaurant.restaurantID)
      ensures old(activeRestaurantID) != Some(restaurant.restaurantID) &&
              restaurant.restaurantID in old(menuCache) ==>
                menuCache == old(menuCache) &&
                panel == Shown(restaurant.name, RenderMenu(cart, restaurant, old(menuCache)[restaurant.restaurantID]))
      ensures old(activeRestaurantID) != Some(restaurant.restaurantID) &&
              restaurant.restaurantID !in old(menuCache) ==>
                menuCache == (if |served| == 0 then old(menuCache)
                              else old(menuCache)[restaurant.restaurantID := served]) &&
                panel == (if |served| == 0 then NoMenu(restaurant.name)
                          else Shown(restaurant.name, RenderMenu(cart, restaurant, served)))
      ensures forall r :: r in old(menuCache) ==> r in menuCache && menuCache[r] == old(menuCache)[r]
    {
      if activeRestaurantID == Some(restaurant.restaurantID) {
        activeRestaurantID := None;
        panel := Placeholder;
        return;
      }
      activeRestaurantID := Some(restaurant.restaurantID);
      if restaurant.restaurantID in menuCache {
        panel := Shown(restaurant.name, RenderMenu(cart, restaurant, menuCache[restaurant.restaurantID]));
      } else {
        panel := LoadMenu(restaurant, cart, served);
      }
    }
  }
}
