/**
 The server's side of the dynamic-security exchange: one message at a time, first error reported,
 and an attempt to undo what a failed grant may have left.
 */
module DynsecClient {
  import opened Strings
  import opened Arithmetic
  import opened HomeNames
  import opened Dynsec

  class Client {
    var broker: Broker

    constructor (broker: Broker)
      ensures this.broker == broker
    {
      this.broker := broker;
    }

    method SendDynsecCommands(commands: seq<Command>, fate: Fate) returns (reply: Reply)
      modifies this
      ensures (broker, reply) == SendCommands(old(broker), commands, fate)
    {
      if commands == [] {
        return Success;
      }
      if !fate.answered {
        broker := ExecuteAll(broker, commands[..Min(fate.applied, |commands|)], fate.refused, 0).0;
        return NoReply;
      }
      var (after, responses) := ExecuteAll(broker, commands, fate.refused, 0);
      broker := after;
      assert responses[0..] == responses;
      for i := 0 to |responses|
        invariant FirstError(responses) == FirstError(responses[i..])
      {
        assert responses[i..][1..] == responses[i + 1..];
        match responses[i] {
          case Done =>
          case Missing => return NotFound;
          case Refused => return Rejected;
        }
      }
      return Success;
    }

    method ProvisionHomeAccess(user: nat, home: nat, username: string, password: string, fate: GrantFate)
      returns (ok: bool)
      modifies this
      ensures (broker, ok) == Dynsec.ProvisionHomeAccess(old(broker), user, home, username, password, fate)
    {
      var reply := SendDynsecCommands(ProvisionCommands(user, home, username, password), fate.grant);
      if reply != Success {
        var _ := SendDynsecCommands([DeleteClient(username)], fate.undoClient);
        var _ := SendDynsecCommands([DeleteRole(HomeRoleName(user, home))], fate.undoRole);
        return false;
      }
      return true;
    }

    method CleanupHomeAccess(user: nat, home: nat, username: string, fate: Fate) returns (ok: bool)
      modifies this
      ensures (broker, ok) == Dynsec.CleanupHomeAccess(old(broker), user, home, username, fate)
    {
      var commands: seq<Command> := [];
      if !Blank(username) {
        commands := commands + [DeleteClient(username)];
      }
      commands := commands + [DeleteRole(HomeRoleName(user, home))];
      assert commands == CleanupCommands(user, home, username);
      var reply := SendDynsecCommands(commands, fate);
      ok := reply == Success || reply == NotFound;
    }
  }
}
