/**
 * The menus an application has created: a flat registry keyed by menu id.
 * Each entry holds the menu's name and the optional position the client asked
 * for within its parent menu.
 */
module MenuItemRegistry {
  import opened Wrappers

  datatype MenuItem = MenuItem(name: string, position: Option<nat>)

  datatype MenuItems = MenuItems(items: map<nat, MenuItem>)
  {
    /** No menu. */
    static function Empty(): (r: MenuItems)
      ensures r.Size() == 0
    {
      MenuItems(map[])
    }

    /** Creates menu `menuId`, or renames and repositions it when it exists. */
    function AddItem(menuId: nat, name: string, position: Option<nat>): (r: MenuItems)
      ensures r.items.Keys == items.Keys + {menuId}
      ensures r.items[menuId] == MenuItem(name, position)
      ensures forall id :: id in items && id != menuId ==> r.items[id] == items[id]
    {
      MenuItems(items[menuId := MenuItem(name, position)])
    }

    /** Deletes menu `menuId`; an absent id is ignored. */
    function RemoveItem(menuId: nat): (r: MenuItems)
      ensures r.items.Keys == items.Keys - {menuId}
      ensures forall id :: id in r.items ==> r.items[id] == items[id]
    {
      MenuItems(items - {menuId})
    }

    /** Every menu of the application. */
    function GetAllMenuItems(): map<nat, MenuItem>
    {
      items
    }

    /** The number of menus. */
    function Size(): nat
    {
      |items|
    }
  }

  /** Adding a menu under an existing id overwrites it and keeps the count; a new id adds one. */
  lemma SizeAfterAddItem(m: MenuItems, menuId: nat, name: string, position: Option<nat>)
    ensures m.AddItem(menuId, name, position).Size() == m.Size() + (if menuId in m.items then 0 else 1)
  {
  }

  /** Removing an existing menu takes one away from the count; an absent one changes nothing. */
  lemma SizeAfterRemoveItem(m: MenuItems, menuId: nat)
    ensures m.RemoveItem(menuId).Size() == m.Size() - (if menuId in m.items then 1 else 0)
  {
  }

  /** Adding a menu and removing it again is the same as removing it alone. */
  lemma AddThenRemoveItem(m: MenuItems, menuId: nat, name: string, position: Option<nat>)
    ensures m.AddItem(menuId, name, position).RemoveItem(menuId) == m.RemoveItem(menuId)
  {
  }
}
