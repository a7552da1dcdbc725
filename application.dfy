/**
 * The in-memory record of one registered client application: its identity,
 * presentation settings, session keys, and the facade over its command, menu
 * placement and menu registries.
 */
module AppManager {
  import opened Wrappers
  import opened SessionKeys
  import opened CommandRegistry
  import opened MenuRegistry
  import opened MenuItemRegistry

  class Application {
    // Identity: set by the constructors, no method can change it.
    const name: string
    const appId: int
    const protocolVersion: nat

    // Presentation settings.
    var ngnMediaScreenAppName: string
    var isMediaApplication: bool
    var vrSynonyms: seq<string>

    // Session identifiers, in the order they were added; duplicates allowed.
    var sessionKeys: seq<int>

    // The three registries the facade delegates to.
    var commandMapping: CommandMapping
    var menuMapping: MenuMapping
    var menus: MenuItems

    /** A new application: its own id is its first session key; nothing registered yet. */
    constructor (name: string, appId: int, protocolVersion: nat)
      ensures this.name == name && this.appId == appId && this.protocolVersion == protocolVersion
      ensures ngnMediaScreenAppName == "" && !isMediaApplication && vrSynonyms == []
      ensures sessionKeys == [appId]
      ensures commandMapping == CommandMapping.Empty()
      ensures menuMapping == MenuMapping.Empty()
      ensures menus == MenuItems.Empty()
    {
      this.ngnMediaScreenAppName := "";
      this.isMediaApplication := false;
      this.name := name;
      this.protocolVersion := protocolVersion;
      this.appId := appId;
      this.vrSynonyms := [];
      this.sessionKeys := [];
      this.commandMapping := CommandMapping.Empty();
      this.menuMapping := MenuMapping.Empty();
      this.menus := MenuItems.Empty();
      new;
      AddSessionKey(appId);
    }

    /**
     * The copy constructor. Identity and presentation settings are copied;
     * the session keys restart from the source's id, and the registries,
     * which the copy does not initialise from the source, start empty.
     */
    constructor Copy(app: Application)
      ensures name == app.name && appId == app.appId && protocolVersion == app.protocolVersion
      ensures ngnMediaScreenAppName == app.ngnMediaScreenAppName
      ensures isMediaApplication == app.isMediaApplication
      ensures vrSynonyms == app.vrSynonyms
      ensures sessionKeys == [app.appId]
      ensures commandMapping == CommandMapping.Empty()
      ensures menuMapping == MenuMapping.Empty()
      ensures menus == MenuItems.Empty()
      ensures Equals(app)
    {
      this.ngnMediaScreenAppName := app.GetNgnMediaScreenAppName();
      this.name := app.GetName();
      this.isMediaApplication := app.GetIsMediaApplication();
      this.protocolVersion := app.GetProtocolVersion();
      this.appId := app.GetAppID();
      this.vrSynonyms := [];
      this.sessionKeys := [];
      this.commandMapping := CommandMapping.Empty();
      this.menuMapping := MenuMapping.Empty();
      this.menus := MenuItems.Empty();
      new;
      AddSessionKey(app.GetAppID());
      this.vrSynonyms := app.GetVrSynonyms();
    }

    /** Two applications are equal when their ids are, whatever their other fields hold. */
    predicate Equals(item: Application)
      ensures Equals(item) <==> GetAppID() == item.GetAppID()
    {
      GetAppID() == item.GetAppID()
    }

    method SetNgnMediaScreenAppName(value: string)
      modifies this`ngnMediaScreenAppName
      ensures GetNgnMediaScreenAppName() == value
    {
      ngnMediaScreenAppName := value;
    }

    /** Replaces the synonyms as a whole; nothing of the earlier list is kept. */
    method SetVrSynonyms(value: seq<string>)
      modifies this`vrSynonyms
      ensures GetVrSynonyms() == value
    {
      vrSynonyms := value;
    }

    method SetIsMediaApplication(value: bool)
      modifies this`isMediaApplication
      ensures GetIsMediaApplication() == value
    {
      isMediaApplication := value;
    }

    function GetNgnMediaScreenAppName(): string
      reads this
    {
      ngnMediaScreenAppName
    }

    function GetVrSynonyms(): seq<string>
      reads this
    {
      vrSynonyms
    }

    function GetIsMediaApplication(): bool
      reads this
    {
      isMediaApplication
    }

    function GetProtocolVersion(): nat
    {
      protocolVersion
    }

    function GetName(): string
    {
      name
    }

    function GetAppID(): int
    {
      appId
    }

    /** Places a command in a menu. */
    method AddMenuCommand(commandId: nat, menuId: nat)
      modifies this`menuMapping
      ensures menuMapping == old(menuMapping).AddCommand(commandId, menuId)
      ensures commandId in FindMenuCommands(menuId)
    {
      menuMapping := menuMapping.AddCommand(commandId, menuId);
      AddCommandIsFound(old(menuMapping), commandId, menuId, menuId);
    }

    /** Takes a command out of every menu it is in. */
    method RemoveMenuCommand(commandId: nat)
      modifies this`menuMapping
      ensures menuMapping == old(menuMapping).RemoveCommand(commandId)
      ensures forall menuId :: commandId !in FindMenuCommands(menuId)
    {
      menuMapping := menuMapping.RemoveCommand(commandId);
    }

    /** The commands placed in `menuId`. */
    function FindMenuCommands(menuId: nat): (r: set<nat>)
      reads this
      ensures forall c :: c in r <==> menuId in menuMapping.MenusOf(c)
    {
      menuMapping.FindCommandsAssignedToMenu(menuId)
    }

    /** Creates or overwrites a menu; `position` stands for the nullable position pointer. */
    method AddMenu(menuId: nat, menuName: string, position: Option<nat>)
      modifies this`menus
      ensures menus == old(menus).AddItem(menuId, menuName, position)
      ensures menuId in GetAllMenus() && GetAllMenus()[menuId] == MenuItem(menuName, position)
    {
      menus := menus.AddItem(menuId, menuName, position);
    }

    method RemoveMenu(menuId: nat)
      modifies this`menus
      ensures menus == old(menus).RemoveItem(menuId)
      ensures menuId !in GetAllMenus()
    {
      menus := menus.RemoveItem(menuId);
    }

    /** Every menu of the application, with its name and position. */
    function GetAllMenus(): (r: map<nat, MenuItem>)
      reads this
      ensures r == menus.items
    {
      menus.GetAllMenuItems()
    }

    /** The number of menus. */
    function GetMenusCount(): (n: nat)
      reads this
      ensures n == |GetAllMenus()|
    {
      menus.Size()
    }

    /** The number of distinct commands the menu placements track. */
    function GetMenuCommandsCount(): (n: nat)
      reads this
      ensures n == |menuMapping.links.Keys|
    {
      menuMapping.Size()
    }

    /** Registers a command under (commandId, type), replacing an earlier registration of that pair. */
    method AddCommand(commandId: nat, commandType: CommandType, params: CommandParams)
      modifies this`commandMapping
      ensures commandMapping == old(commandMapping).Add(commandId, commandType, params)
      ensures GetCommandTypes(commandId) == old(GetCommandTypes(commandId)) + {commandType}
    {
      commandMapping := commandMapping.Add(commandId, commandType, params);
      TypesAfterAdd(old(commandMapping), commandId, commandType, params);
    }

    method RemoveCommand(commandId: nat, commandType: CommandType)
      modifies this`commandMapping
      ensures commandMapping == old(commandMapping).Remove(commandId, commandType)
      ensures GetCommandTypes(commandId) == old(GetCommandTypes(commandId)) - {commandType}
    {
      commandMapping := commandMapping.Remove(commandId, commandType);
      TypesAfterRemove(old(commandMapping), commandId, commandType);
    }

    /** The registrations of `commandId`, one per type it is registered under. */
    function FindCommands(commandId: nat): (r: map<CommandKey, CommandParams>)
      reads this
      ensures forall t :: CommandKey(commandId, t) in r <==> t in GetCommandTypes(commandId)
      ensures forall k :: k in r ==> k.commandId == commandId && k in GetAllCommands() && r[k] == GetAllCommands()[k]
    {
      commandMapping.FindCommands(commandId)
    }

    /** Every registration; a pair is present iff its type is among its id's types. */
    function GetAllCommands(): (r: map<CommandKey, CommandParams>)
      reads this
      ensures forall k :: k in r <==> k.commandType in GetCommandTypes(k.commandId)
    {
      commandMapping.GetAllCommands()
    }

    /** The number of registrations, counting every (id, type) pair. */
    function GetCommandsCount(): (n: nat)
      reads this
      ensures n == |GetAllCommands()|
    {
      commandMapping.Size()
    }

    /** The types under which `commandId` is registered. */
    function GetCommandTypes(commandId: nat): (r: set<CommandType>)
      reads this
      ensures forall t :: t in r <==> CommandKey(commandId, t) in commandMapping.commands
    {
      commandMapping.Types(commandId)
    }

    /** Unanswered requests for `cmdId`: zero until incremented, then moved by one per increment or decrement. */
    function GetUnrespondedRequestCount(cmdId: nat): (n: nat)
      reads this
      ensures n == commandMapping.UnrespondedCount(cmdId)
    {
      commandMapping.UnrespondedCount(cmdId)
    }

    /** Counts one more unanswered request for `cmdId` and returns the new count. */
    method IncrementUnrespondedRequestCount(cmdId: nat) returns (count: nat)
      modifies this`commandMapping
      ensures commandMapping == old(commandMapping).Increment(cmdId)
      ensures count == old(GetUnrespondedRequestCount(cmdId)) + 1
      ensures count == GetUnrespondedRequestCount(cmdId)
    {
      commandMapping := commandMapping.Increment(cmdId);
      count := commandMapping.UnrespondedCount(cmdId);
    }

    /** Counts one unanswered request for `cmdId` as answered and returns the new count. */
    method DecrementUnrespondedRequestCount(cmdId: nat) returns (count: nat)
      requires GetUnrespondedRequestCount(cmdId) > 0
      modifies this`commandMapping
      ensures commandMapping == old(commandMapping).Decrement(cmdId)
      ensures count == old(GetUnrespondedRequestCount(cmdId)) - 1
      ensures count == GetUnrespondedRequestCount(cmdId)
    {
      commandMapping := commandMapping.Decrement(cmdId);
      count := commandMapping.UnrespondedCount(cmdId);
    }

    /** Appends a session key; earlier keys, duplicates included, stay in place. */
    method AddSessionKey(sessionKey: int)
      modifies this`sessionKeys
      ensures sessionKeys == old(sessionKeys) + [sessionKey]
    {
      sessionKeys := sessionKeys + [sessionKey];
    }

    /** Erases every occurrence of `sessionKey`; the other keys keep their order. */
    method RemoveSessionKey(sessionKey: int)
      modifies this`sessionKeys
      ensures sessionKeys == RemoveAll(old(sessionKeys), sessionKey)
      ensures sessionKey !in sessionKeys
      ensures IsSubsequence(sessionKeys, old(sessionKeys))
      ensures sessionKey !in old(sessionKeys) ==> sessionKeys == old(sessionKeys)
    {
      sessionKeys := RemoveAll(sessionKeys, sessionKey);
      RemoveAllIsSubsequence(old(sessionKeys), sessionKey);
      if sessionKey !in old(sessionKeys) {
        RemoveAbsentIsNoOp(old(sessionKeys), sessionKey);
      }
    }
  }

  /** Equality of applications is an equivalence relation on their ids. */
  lemma EqualsIsEquivalence(a: Application, b: Application, c: Application)
    ensures a.Equals(b) <==> a.GetAppID() == b.GetAppID()
    ensures a.Equals(a)
    ensures a.Equals(b) <==> b.Equals(a)
    ensures a.Equals(b) && b.Equals(c) ==> a.Equals(c)
  {
  }

  /** A client of the facade: one command id registered under two types, then one of them removed. */
  method CommandTypesScenario(p: CommandParams)
  {
    var app := new Application("Navigation", 7, 2);
    assert app.sessionKeys == [7];
    app.AddCommand(5, UI, p);
    app.AddCommand(5, VR, p);
    assert app.GetCommandTypes(5) == {UI, VR};
    app.RemoveCommand(5, UI);
    assert app.GetCommandTypes(5) == {VR};
  }

  /** A client of the facade: the unanswered-request counter of a freshly registered command. */
  method CounterScenario(p: CommandParams)
  {
    var app := new Application("Navigation", 7, 2);
    app.AddCommand(5, UI, p);
    assert app.GetUnrespondedRequestCount(5) == 0;
    var n := app.IncrementUnrespondedRequestCount(5);
    n := app.IncrementUnrespondedRequestCount(5);
    assert n == 2;
    n := app.DecrementUnrespondedRequestCount(5);
    assert n == 1;
  }

  /** A client of the facade: a command placed in two menus and removed, and a menu renamed in place. */
  method MenuScenario()
  {
    var app := new Application("Navigation", 7, 2);
    app.AddMenuCommand(3, 10);
    app.AddMenuCommand(3, 11);
    app.RemoveMenuCommand(3);
    assert 3 !in app.FindMenuCommands(10) && 3 !in app.FindMenuCommands(11);
    app.AddMenu(1, "Settings", None);
    app.AddMenu(1, "Renamed", None);
    assert app.GetAllMenus()[1] == MenuItem("Renamed", None);
  }
}
