/**
 * The commands an application has registered. A command is identified by its
 * id together with its type, so the same id may be registered once as a UI
 * command and once as a voice-recognition command. Beside the commands the
 * registry keeps, per command id only, the number of requests sent for that
 * command that the HMI has not answered yet.
 */
module CommandRegistry {

  /** The kind of a registered command. */
  datatype CommandType = UI | VR

  /** The compound key of a registered command. */
  datatype CommandKey = CommandKey(commandId: nat, commandType: CommandType)

  /** The parameters supplied with the AddCommand request; never inspected by this layer. */
  datatype CommandParams = CommandParams(payload: string)

  datatype CommandMapping = CommandMapping(commands: map<CommandKey, CommandParams>, unresponded: map<nat, nat>)
  {
    /** The registry with no command and every counter at zero. */
    static function Empty(): (r: CommandMapping)
      ensures r.Size() == 0
      ensures forall c :: r.Types(c) == {} && r.UnrespondedCount(c) == 0
    {
      CommandMapping(map[], map[])
    }

    /** Registers `params` under (commandId, commandType), replacing an earlier registration of that pair. */
    function Add(commandId: nat, commandType: CommandType, params: CommandParams): (r: CommandMapping)
      ensures r.commands.Keys == commands.Keys + {CommandKey(commandId, commandType)}
      ensures r.commands[CommandKey(commandId, commandType)] == params
      ensures forall k :: k in commands && k != CommandKey(commandId, commandType) ==> r.commands[k] == commands[k]
      ensures r.unresponded == unresponded
    {
      CommandMapping(commands[CommandKey(commandId, commandType) := params], unresponded)
    }

    /** Removes exactly the (commandId, commandType) registration; absent pairs are ignored. */
    function Remove(commandId: nat, commandType: CommandType): (r: CommandMapping)
      ensures r.commands.Keys == commands.Keys - {CommandKey(commandId, commandType)}
      ensures forall k :: k in r.commands ==> r.commands[k] == commands[k]
      ensures r.unresponded == unresponded
    {
      CommandMapping(commands - {CommandKey(commandId, commandType)}, unresponded)
    }

    /** Every registration whose id is `commandId`, whatever its type. */
    function FindCommands(commandId: nat): (r: map<CommandKey, CommandParams>)
      ensures forall t :: CommandKey(commandId, t) in r <==> t in Types(commandId)
      ensures forall k :: k in r ==> k.commandId == commandId && k in commands && r[k] == commands[k]
    {
      map k | k in commands && k.commandId == commandId :: commands[k]
    }

    /** Every registration of the application. */
    function GetAllCommands(): map<CommandKey, CommandParams>
    {
      commands
    }

    /** The types under which `commandId` is registered. */
    function Types(commandId: nat): (r: set<CommandType>)
      ensures forall t :: t in r <==> CommandKey(commandId, t) in commands
    {
      set k | k in commands && k.commandId == commandId :: k.commandType
    }

    /** The number of registrations, counting every (id, type) pair. */
    function Size(): nat
    {
      |commands|
    }

    /** Unanswered requests for `commandId`; zero when nothing was counted. */
    function UnrespondedCount(commandId: nat): nat
    {
      if commandId in unresponded then unresponded[commandId] else 0
    }

    /** One more unanswered request for `commandId`. */
    function Increment(commandId: nat): (r: CommandMapping)
      ensures r.UnrespondedCount(commandId) == UnrespondedCount(commandId) + 1
      ensures forall c :: c != commandId ==> r.UnrespondedCount(c) == UnrespondedCount(c)
      ensures r.commands == commands
    {
      CommandMapping(commands, unresponded[commandId := UnrespondedCount(commandId) + 1])
    }

    /** One request for `commandId` was answered; there must have been one outstanding. */
    function Decrement(commandId: nat): (r: CommandMapping)
      requires UnrespondedCount(commandId) > 0
      ensures r.UnrespondedCount(commandId) == UnrespondedCount(commandId) - 1
      ensures forall c :: c != commandId ==> r.UnrespondedCount(c) == UnrespondedCount(c)
      ensures r.commands == commands
    {
      CommandMapping(commands, unresponded[commandId := UnrespondedCount(commandId) - 1])
    }
  }

  /** Adding a pair adds its type to the types of its id and leaves every other id alone. */
  lemma TypesAfterAdd(m: CommandMapping, commandId: nat, commandType: CommandType, params: CommandParams)
    ensures m.Add(commandId, commandType, params).Types(commandId) == m.Types(commandId) + {commandType}
    ensures forall c :: c != commandId ==> m.Add(commandId, commandType, params).Types(c) == m.Types(c)
  {
  }

  /** Removing a pair takes its type away from its id only; other types of the same id stay. */
  lemma TypesAfterRemove(m: CommandMapping, commandId: nat, commandType: CommandType)
    ensures m.Remove(commandId, commandType).Types(commandId) == m.Types(commandId) - {commandType}
    ensures forall c :: c != commandId ==> m.Remove(commandId, commandType).Types(c) == m.Types(c)
  {
  }

  /** Adding a new pair grows the registry by one; re-adding an existing pair keeps its size. */
  lemma SizeAfterAdd(m: CommandMapping, commandId: nat, commandType: CommandType, params: CommandParams)
    ensures m.Add(commandId, commandType, params).Size()
         == m.Size() + (if CommandKey(commandId, commandType) in m.commands then 0 else 1)
  {
  }

  /** Removing a registered pair shrinks the registry by one; removing an absent pair changes nothing. */
  lemma SizeAfterRemove(m: CommandMapping, commandId: nat, commandType: CommandType)
    ensures m.Remove(commandId, commandType).Size()
         == m.Size() - (if CommandKey(commandId, commandType) in m.commands then 1 else 0)
  {
  }

  /** An increment followed by a decrement restores every counter. */
  lemma IncrementThenDecrement(m: CommandMapping, commandId: nat, c: nat)
    ensures m.Increment(commandId).Decrement(commandId).UnrespondedCount(c) == m.UnrespondedCount(c)
    ensures m.Increment(commandId).Decrement(commandId).commands == m.commands
  {
  }
}
