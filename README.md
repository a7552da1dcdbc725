# Application record and HMI gateway of the SDL application manager

This project models two classes of the `NsAppManager` namespace of the SDL
core application manager, and proves what they promise.

- `Application` (module `AppManager`, file `application.dfy`) is the record of
  one registered client application. Its name, id and protocol version are
  `const` fields, so no method can change them. Its media screen name, media
  flag and voice-recognition synonyms are fields that the setters overwrite
  wholesale. Its session keys are a sequence with append and remove-by-value.
  Its commands, command-to-menu placements and menus live in three
  sub-registries that the facade methods delegate to; each is a value with
  pure operations (`command_mapping.dfy`, `menu_mapping.dfy`,
  `menu_items.dfy`), and each facade method replaces the registry field with
  the result of one operation. Every method's `modifies` clause names only
  the one field it changes, so identity, presentation settings and session
  keys are provably left alone by the command and menu methods.
- `HMIHandler` (module `HmiGateway`, file `hmi_handler.dfy`, class
  `HmiHandler`) relays notifications, responses and requests to a downstream
  JSON RPC2 handler. The downstream handler is a class whose only state is a
  ghost trace of what it was handed. The gateway's invariant `Valid()` says
  that it is never ready without a downstream handler. Every method keeps the
  invariant, and each send appends exactly one entry to the downstream trace
  when ready and nothing otherwise. What the gateway logs as an error is kept
  as a ghost error log.

`std::list::remove` semantics (`session_keys.dfy`) are given by `RemoveAll`,
whose contract fixes how many copies of each key survive, and by a lemma that
the survivors keep their order.

The plain getters are functions read by the contracts above (for instance
the setters promise `GetVrSynonyms() == value`); the facade queries have
contracts of their own, stated through the registries. The methods `CommandTypesScenario`,
`CounterScenario`, `MenuScenario` and `NotificationGating` are clients whose
assertions about typical call sequences follow from the contracts alone.

Three behaviours of the code are worth naming, and the model follows them:

- `removeSessionKey` calls `std::list::remove`, which erases every key equal
  to the argument, not only the first one.
- `setReadyState(false)` with a handler attached makes the gateway unready
  again: readiness is not a terminal state.
- The `Application` copy constructor resets the session keys to `[appId]`,
  and the three registries, missing from its initializer list, start empty.

## Model

| member | source | states |
|---|---|---|
| `AppManager.Application.constructor` | src/components/AppMgr/src/Application.cpp:21-30 | name, id and protocol version are the arguments; media screen name is empty and the media flag false; the session keys are exactly `[appId]`; all three registries are empty |
| `AppManager.Application.Copy` | src/components/AppMgr/src/Application.cpp:35-44 | the copy has the source's name, id, protocol version, media screen name, media flag and synonyms; its session keys are exactly `[app.appId]` and its registries are empty; it equals its source |
| `AppManager.EqualsIsEquivalence` | src/components/AppMgr/src/Application.cpp:59-62 | two applications are equal iff their ids are, whatever else differs; equality is reflexive, symmetric and transitive |
| `AppManager.Application.Equals` | src/components/AppMgr/src/Application.cpp:59-62 | equal exactly when the two ids are equal; no other field takes part |
| `AppManager.Application.FindMenuCommands` | src/components/AppMgr/src/Application.cpp:169-172 | a command is returned iff it is placed in the menu (see `MenuMapping.FindCommandsAssignedToMenu`) |
| `AppManager.Application.GetAllMenus` | src/components/AppMgr/src/Application.cpp:198-201 | every menu with its name and position, as `MenuItems.AddItem` and `RemoveItem` left them |
| `AppManager.Application.GetMenusCount` | src/components/AppMgr/src/Application.cpp:207-210 | the number of menus `GetAllMenus` returns (see `SizeAfterAddItem`, `SizeAfterRemoveItem`) |
| `AppManager.Application.GetMenuCommandsCount` | src/components/AppMgr/src/Application.cpp:216-219 | the number of distinct command ids the menu placements track |
| `AppManager.Application.FindCommands` | src/components/AppMgr/src/Application.cpp:247-250 | one registration per type the id is registered under, each with the parameters `GetAllCommands` holds for it (see `CommandMapping.FindCommands`) |
| `AppManager.Application.GetAllCommands` | src/components/AppMgr/src/Application.cpp:256-259 | a pair is present iff its type is among its id's types |
| `AppManager.Application.GetCommandsCount` | src/components/AppMgr/src/Application.cpp:265-268 | the number of registrations `GetAllCommands` returns (see `SizeAfterAdd`, `SizeAfterRemove`) |
| `AppManager.Application.GetCommandTypes` | src/components/AppMgr/src/Application.cpp:275-278 | a type is returned iff the (id, type) pair is registered (see `CommandMapping.Types`) |
| `AppManager.Application.GetUnrespondedRequestCount` | src/components/AppMgr/src/Application.cpp:285-288 | the id's counter in the command registry, moved by `CommandMapping.Increment` and `Decrement` |
| `AppManager.Application.SetNgnMediaScreenAppName` | src/components/AppMgr/src/Application.cpp:68-71 | the media screen name becomes the argument; the frame lets nothing else change |
| `AppManager.Application.SetVrSynonyms` | src/components/AppMgr/src/Application.cpp:77-80 | the synonym list becomes exactly the argument, nothing of the old list kept; nothing else changes |
| `AppManager.Application.SetIsMediaApplication` | src/components/AppMgr/src/Application.cpp:86-89 | the media flag becomes the argument; nothing else changes |
| `AppManager.Application.AddMenuCommand` | src/components/AppMgr/src/Application.cpp:150-153 | only the menu placements change, by `MenuMapping.AddCommand`; the command is then found in that menu |
| `AppManager.Application.RemoveMenuCommand` | src/components/AppMgr/src/Application.cpp:159-162 | only the menu placements change, by `MenuMapping.RemoveCommand`; the command is then found in no menu |
| `AppManager.Application.AddMenu` | src/components/AppMgr/src/Application.cpp:180-183 | only the menus change, by `MenuItems.AddItem`; the menu is then present with the given name and position |
| `AppManager.Application.RemoveMenu` | src/components/AppMgr/src/Application.cpp:189-192 | only the menus change, by `MenuItems.RemoveItem`; the menu is then absent |
| `AppManager.Application.AddCommand` | src/components/AppMgr/src/Application.cpp:227-230 | only the command registry changes, by `CommandMapping.Add`; the id's types gain the given type |
| `AppManager.Application.RemoveCommand` | src/components/AppMgr/src/Application.cpp:237-240 | only the command registry changes, by `CommandMapping.Remove`; the id's types lose exactly the given type |
| `AppManager.Application.IncrementUnrespondedRequestCount` | src/components/AppMgr/src/Application.cpp:295-298 | returns the count after the operation, one more than before; only the command registry changes |
| `AppManager.Application.DecrementUnrespondedRequestCount` | src/components/AppMgr/src/Application.cpp:305-308 | returns the count after the operation, one less than before; only the command registry changes |
| `AppManager.Application.AddSessionKey` | src/components/AppMgr/src/Application.cpp:314-317 | the key is appended at the end, earlier keys kept in order, duplicates allowed; nothing else changes |
| `AppManager.Application.RemoveSessionKey` | src/components/AppMgr/src/Application.cpp:323-326 | every copy of the key is gone, the rest keep their order; no-op when the key is absent; nothing else changes |
| `SessionKeys.RemoveAll` | src/components/AppMgr/src/Application.cpp:323-326 | the result lacks `k`, holds every other key exactly as often as the input, and is shorter by the number of copies of `k` |
| `SessionKeys.RemoveAllIsSubsequence` | src/components/AppMgr/src/Application.cpp:323-326 | the keys left after removal are in their original order |
| `SessionKeys.RemoveAbsentIsNoOp` | src/components/AppMgr/src/Application.cpp:323-326 | removing an absent key leaves the list unchanged |
| `SessionKeys.RemoveAllAppend` | src/components/AppMgr/src/Application.cpp:314-326 | removal distributes over concatenation |
| `SessionKeys.AddThenRemove` | src/components/AppMgr/src/Application.cpp:314-326 | appending a key and removing it equals removing it alone |
| `SessionKeys.AddOtherThenRemove` | src/components/AppMgr/src/Application.cpp:314-326 | appending a different key commutes with removing `k` |
| `SessionKeys.RemoveAllIdempotent` | src/components/AppMgr/src/Application.cpp:323-326 | removing a key twice equals removing it once |
| `CommandRegistry.CommandMapping.Empty` | src/components/AppMgr/src/Application.cpp:21-30 | a fresh command registry has no command and every counter at zero |
| `CommandRegistry.CommandMapping.Add` | src/components/AppMgr/src/Application.cpp:227-230 | the (id, type) pair is registered with the given parameters, every other pair is kept as it was, counters untouched |
| `CommandRegistry.CommandMapping.Remove` | src/components/AppMgr/src/Application.cpp:237-240 | exactly the (id, type) pair is gone, every other pair kept, counters untouched |
| `CommandRegistry.CommandMapping.FindCommands` | src/components/AppMgr/src/Application.cpp:247-250 | returns the registrations of that id, one per registered type, with their parameters |
| `CommandRegistry.CommandMapping.Types` | src/components/AppMgr/src/Application.cpp:275-278 | a type is returned iff the (id, type) pair is registered |
| `CommandRegistry.CommandMapping.Increment` | src/components/AppMgr/src/Application.cpp:295-298 | the id's counter grows by one, other ids' counters and the commands are unchanged |
| `CommandRegistry.CommandMapping.Decrement` | src/components/AppMgr/src/Application.cpp:305-308 | the id's counter shrinks by one, other ids' counters and the commands are unchanged |
| `CommandRegistry.TypesAfterAdd` | src/components/AppMgr/src/Application.cpp:227-230 | registering a pair adds its type to that id's types and leaves other ids' types alone |
| `CommandRegistry.TypesAfterRemove` | src/components/AppMgr/src/Application.cpp:237-240 | removing a pair takes only its type from that id; other types of the same id stay |
| `CommandRegistry.SizeAfterAdd` | src/components/AppMgr/src/Application.cpp:265-268 | the command count grows by one for a new pair and stays for a re-registered one |
| `CommandRegistry.SizeAfterRemove` | src/components/AppMgr/src/Application.cpp:265-268 | the command count shrinks by one for a registered pair and stays for an absent one |
| `CommandRegistry.IncrementThenDecrement` | src/components/AppMgr/src/Application.cpp:295-308 | an increment then a decrement restores every counter and the commands |
| `MenuRegistry.MenuMapping.Empty` | src/components/AppMgr/src/Application.cpp:21-30 | a fresh placement registry places no command in any menu |
| `MenuRegistry.MenuMapping.AddCommand` | src/components/AppMgr/src/Application.cpp:150-153 | the command's menus gain the given menu; other commands' menus unchanged |
| `MenuRegistry.MenuMapping.RemoveCommand` | src/components/AppMgr/src/Application.cpp:159-162 | the command is in no menu afterwards; other commands' menus unchanged |
| `MenuRegistry.MenuMapping.FindCommandsAssignedToMenu` | src/components/AppMgr/src/Application.cpp:169-172 | a command is returned iff it is placed in the menu |
| `MenuRegistry.RemoveCommandFromEveryMenu` | src/components/AppMgr/src/Application.cpp:159-162 | after removal every menu's commands are the old ones minus the removed command |
| `MenuRegistry.AddCommandIsFound` | src/components/AppMgr/src/Application.cpp:150-172 | after placing a command in a menu, that menu's commands gain it and other menus are unchanged |
| `MenuRegistry.AddCommandIdempotent` | src/components/AppMgr/src/Application.cpp:150-153 | placing a command in the same menu twice equals placing it once |
| `MenuItemRegistry.MenuItems.Empty` | src/components/AppMgr/src/Application.cpp:21-30 | a fresh menu registry has no menu |
| `MenuItemRegistry.MenuItems.AddItem` | src/components/AppMgr/src/Application.cpp:180-183 | the menu is present with the given name and position; other menus unchanged |
| `MenuItemRegistry.MenuItems.RemoveItem` | src/components/AppMgr/src/Application.cpp:189-192 | the menu is absent; other menus unchanged |
| `MenuItemRegistry.SizeAfterAddItem` | src/components/AppMgr/src/Application.cpp:207-210 | the menu count grows by one for a new id and stays when an existing menu is overwritten |
| `MenuItemRegistry.SizeAfterRemoveItem` | src/components/AppMgr/src/Application.cpp:207-210 | the menu count shrinks by one for an existing id and stays for an absent one |
| `MenuItemRegistry.AddThenRemoveItem` | src/components/AppMgr/src/Application.cpp:180-192 | adding a menu then removing it equals removing it alone |
| `HmiGateway.HmiHandler.constructor` | src/components/AppMgr/src/HMIHandler.cpp:130-135 | a new gateway is not ready, has no downstream handler and satisfies the invariant |
| `HmiGateway.HmiHandler.Copy` | src/components/AppMgr/src/HMIHandler.cpp:140-144 | the copy is not ready and has no downstream handler, whatever the source's state |
| `HmiGateway.HmiHandler.SetReadyState` | src/components/AppMgr/src/HMIHandler.cpp:28-38 | with a handler attached readiness becomes the argument (true or false); without one readiness is unchanged and an error is logged; the invariant is kept |
| `HmiGateway.HmiHandler.SendNotification` | src/components/AppMgr/src/HMIHandler.cpp:44-58 | when ready the handler's trace gains exactly one notification entry with the unchanged message; when not ready the trace is unchanged and an error is logged; readiness and handler unchanged |
| `HmiGateway.HmiHandler.SendResponse` | src/components/AppMgr/src/HMIHandler.cpp:64-78 | the same gate as for notifications, with a response entry |
| `HmiGateway.HmiHandler.SendRequest` | src/components/AppMgr/src/HMIHandler.cpp:84-98 | the same gate as for notifications, with a request entry |
| `HmiGateway.HmiHandler.SetJsonRpc2Handler` | src/components/AppMgr/src/HMIHandler.cpp:104-112 | a null handler is refused and logged with the state unchanged; a non-null one becomes the handler; readiness never changes; the invariant is kept |
| `HmiGateway.HmiHandler.GetJsonRpc2Handler` | src/components/AppMgr/src/HMIHandler.cpp:118-125 | returns the current handler, possibly null, logging an error when null; readiness and handler unchanged |
| `HmiGateway.JsonRpc2Handler.SendNotification` | src/components/AppMgr/src/HMIHandler.cpp:51 | the downstream handler records the notification it was handed |
| `HmiGateway.JsonRpc2Handler.SendResponse` | src/components/AppMgr/src/HMIHandler.cpp:71 | the downstream handler records the response it was handed |
| `HmiGateway.JsonRpc2Handler.SendRequest` | src/components/AppMgr/src/HMIHandler.cpp:91 | the downstream handler records the request it was handed |

## Left out

- Logging: the `log4cplus` loggers and the info messages of constructors and destructors are not modelled. The error messages of `HMIHandler` are kept only as the ghost error log.
- Destructors: they only log.
- `HMIHandler::getInstance`: the function-local static singleton is hidden global state with no logic; the model constructs the gateway explicitly.
- Concurrency: the code takes no locks, and the model has no interleavings.
- The JSON RPC2 handler and the RPC2 message classes are not part of this model. A message is an opaque value whose method name is only logged, and the handler is seen only through the trace of messages handed to it.
- A null message pointer passed to a send is not modelled; the source would dereference it while logging.
- `CommandMapping`, `MenuMapping` and `MenuItems`: their implementations are not shown; they are modelled abstractly as maps. The facade's comments fix only that a command can be removed from all its menus at once, that counters are kept per command id, and that increment and decrement return the count after the operation. `CommandParams` is an opaque payload.
- CommandRegistry.CommandMapping.Add: registering an (id, type) pair that is already registered is assumed to replace its parameters, because the implementation, which is not shown, does not fix what happens then.
- MenuItemRegistry.MenuItems.AddItem: adding a menu under an id that already exists is assumed to replace its name and position, because the implementation, which is not shown, does not fix what happens then.
- Registry query results are modelled as maps and sets (`Commands`, `CommandTypes`, `MenuCommands`, `MenuItems`). The order of those containers is not modelled.
- `AppManager.Application.DecrementUnrespondedRequestCount`: requires an outstanding request, because `CommandMapping`'s behaviour at zero is not part of this model.
- Integer widths: `int` and `unsigned int` are unbounded here. No arithmetic other than the unanswered-request counter happens on them, and the wrap-around of that counter at 2^32 is not modelled.
