/**
 * Which menus each command of an application is placed in. A command may sit
 * in several menus and a menu may hold several commands; a command is only
 * ever taken out of all its menus at once.
 */
module MenuRegistry {

  datatype MenuMapping = MenuMapping(links: map<nat, set<nat>>)
  {
    /** No command in any menu. */
    static function Empty(): (r: MenuMapping)
      ensures r.Size() == 0
      ensures forall menuId :: r.FindCommandsAssignedToMenu(menuId) == {}
    {
      MenuMapping(map[])
    }

    /** The menus `commandId` is placed in. */
    function MenusOf(commandId: nat): set<nat>
    {
      if commandId in links then links[commandId] else {}
    }

    /** Places `commandId` in `menuId`; placing it there again changes nothing. */
    function AddCommand(commandId: nat, menuId: nat): (r: MenuMapping)
      ensures r.MenusOf(commandId) == MenusOf(commandId) + {menuId}
      ensures forall c :: c != commandId ==> r.MenusOf(c) == MenusOf(c)
      ensures r.links.Keys == links.Keys + {commandId}
    {
      MenuMapping(links[commandId := MenusOf(commandId) + {menuId}])
    }

    /** Takes `commandId` out of every menu it was placed in. */
    function RemoveCommand(commandId: nat): (r: MenuMapping)
      ensures r.MenusOf(commandId) == {}
      ensures forall c :: c != commandId ==> r.MenusOf(c) == MenusOf(c)
      ensures r.links.Keys == links.Keys - {commandId}
    {
      MenuMapping(links - {commandId})
    }

    /** The commands placed in `menuId`. */
    function FindCommandsAssignedToMenu(menuId: nat): (r: set<nat>)
      ensures forall c :: c in r <==> menuId in MenusOf(c)
    {
      set c | c in links && menuId in links[c]
    }

    /** The number of distinct commands placed in some menu (or once placed and not removed). */
    function Size(): nat
    {
      |links|
    }
  }

  /** After removal, the command is found in no menu, and every other command is found where it was. */
  lemma RemoveCommandFromEveryMenu(m: MenuMapping, commandId: nat, menuId: nat)
    ensures commandId !in m.RemoveCommand(commandId).FindCommandsAssignedToMenu(menuId)
    ensures m.RemoveCommand(commandId).FindCommandsAssignedToMenu(menuId)
         == m.FindCommandsAssignedToMenu(menuId) - {commandId}
  {
  }

  /** After `AddCommand(c, menuId)` the command is found in that menu and in every menu it was in before. */
  lemma AddCommandIsFound(m: MenuMapping, commandId: nat, menuId: nat, other: nat)
    ensures m.AddCommand(commandId, menuId).FindCommandsAssignedToMenu(menuId)
         == m.FindCommandsAssignedToMenu(menuId) + {commandId}
    ensures other != menuId ==>
              m.AddCommand(commandId, menuId).FindCommandsAssignedToMenu(other) == m.FindCommandsAssignedToMenu(other)
  {
  }

  /** Placing a command in the same menu twice is the same as placing it once. */
  lemma AddCommandIdempotent(m: MenuMapping, commandId: nat, menuId: nat)
    ensures m.AddCommand(commandId, menuId).AddCommand(commandId, menuId) == m.AddCommand(commandId, menuId)
  {
  }
}
