/**
 The broker's dynamic-security store, the commands the server sends to it, and what the two
 operations on a home's access do when commands are refused, only partly carried out, or not
 answered.
 */
module Dynsec {
  import opened Strings
  import opened Arithmetic
  import opened HomeNames

  datatype AclType = PublishClientSend | PublishClientReceive | SubscribePattern

  datatype Acl = Acl(kind: AclType, topic: string)

  datatype Client = Client(password: string, roles: set<string>)

  datatype Broker = Broker(clients: map<string, Client>, roles: map<string, set<Acl>>)

  datatype Command =
    | CreateRole(role: string)
    | AddRoleAcl(role: string, acl: Acl)
    | CreateClient(username: string, password: string)
    | AddClientRole(username: string, role: string)
    | DeleteClient(username: string)
    | DeleteRole(role: string)

  /** The broker's answer to one command. */
  datatype Response = Done | Missing | Refused

  /** What the server learns from one message. */
  datatype Reply = Success | NotFound | Rejected | NoReply

  /** What becomes of one message: the broker carries out its first `applied` commands, and answers
      only if it carries out all of them; it may refuse, for reasons of its own, any command that
      does not delete. */
  datatype Fate = Fate(answered: bool, applied: nat, refused: set<nat>)

  predicate Deletes(c: Command) { c.DeleteClient? || c.DeleteRole? }

  function Execute(b: Broker, c: Command, refuse: bool): (Broker, Response) {
    if refuse && !Deletes(c) then (b, Refused)
    else
      match c
      case CreateRole(role) =>
        if role in b.roles then (b, Refused) else (b.(roles := b.roles[role := {}]), Done)
      case AddRoleAcl(role, acl) =>
        if role !in b.roles then (b, Missing)
        else if acl in b.roles[role] then (b, Refused)
        else (b.(roles := b.roles[role := b.roles[role] + {acl}]), Done)
      case CreateClient(username, password) =>
        if username in b.clients then (b, Refused)
        else (b.(clients := b.clients[username := Client(password, {})]), Done)
      case AddClientRole(username, role) =>
        if username !in b.clients || role !in b.roles then (b, Missing)
        else
          var client := b.clients[username];
          (b.(clients := b.clients[username := client.(roles := client.roles + {role})]), Done)
      case DeleteClient(username) =>
        if username !in b.clients then (b, Missing) else (b.(clients := b.clients - {username}), Done)
      case DeleteRole(role) =>
        if role !in b.roles then (b, Missing)
        else
          var clients := map u | u in b.clients :: b.clients[u].(roles := b.clients[u].roles - {role});
          (Broker(clients, b.roles - {role}), Done)
  }

  /** All the commands in order; `at` is the index of the first. */
  function ExecuteAll(b: Broker, commands: seq<Command>, refused: set<nat>, at: nat): (Broker, seq<Response>)
    decreases |commands|
  {
    if commands == [] then (b, [])
    else
      var (b1, response) := Execute(b, commands[0], at in refused);
      var (b2, rest) := ExecuteAll(b1, commands[1..], refused, at + 1);
      (b2, [response] + rest)
  }

  /** The first error in a reply is the one reported. */
  function FirstError(responses: seq<Response>): Reply {
    if responses == [] then Success
    else if responses[0] == Done then FirstError(responses[1..])
    else if responses[0] == Missing then NotFound else Rejected
  }

  function SendCommands(b: Broker, commands: seq<Command>, fate: Fate): (Broker, Reply) {
    if commands == [] then (b, Success)
    else if !fate.answered then
      (ExecuteAll(b, commands[..Min(fate.applied, |commands|)], fate.refused, 0).0, NoReply)
    else
      var (after, responses) := ExecuteAll(b, commands, fate.refused, 0);
      (after, FirstError(responses))
  }

  function HomeAcls(user: nat, home: nat): set<Acl> {
    var topic := HomeTopicPattern(user, home);
    {Acl(PublishClientSend, topic), Acl(PublishClientReceive, topic), Acl(SubscribePattern, topic)}
  }

  function ProvisionCommands(user: nat, home: nat, username: string, password: string): seq<Command> {
    var role, topic := HomeRoleName(user, home), HomeTopicPattern(user, home);
    [CreateRole(role),
     AddRoleAcl(role, Acl(PublishClientSend, topic)),
     AddRoleAcl(role, Acl(PublishClientReceive, topic)),
     AddRoleAcl(role, Acl(SubscribePattern, topic)),
     CreateClient(username, password),
     AddClientRole(username, role)]
  }

  /** The fates of the three messages that granting access may take. */
  datatype GrantFate = GrantFate(grant: Fate, undoClient: Fate, undoRole: Fate)

  function ProvisionHomeAccess(b: Broker, user: nat, home: nat, username: string, password: string, fate: GrantFate)
    : (Broker, bool)
  {
    var (b1, reply) := SendCommands(b, ProvisionCommands(user, home, username, password), fate.grant);
    if reply == Success then (b1, true)
    else
      var b2 := SendCommands(b1, [DeleteClient(username)], fate.undoClient).0;
      (SendCommands(b2, [DeleteRole(HomeRoleName(user, home))], fate.undoRole).0, false)
  }

  function CleanupCommands(user: nat, home: nat, username: string): seq<Command> {
    (if Blank(username) then [] else [DeleteClient(username)]) + [DeleteRole(HomeRoleName(user, home))]
  }

  function CleanupHomeAccess(b: Broker, user: nat, home: nat, username: string, fate: Fate): (Broker, bool) {
    var (after, reply) := SendCommands(b, CleanupCommands(user, home, username), fate);
    (after, reply == Success || reply == NotFound)
  }

  // ---------- what a home's access amounts to ----------

  predicate Gone(b: Broker, user: nat, home: nat, username: string) {
    username !in b.clients && HomeRoleName(user, home) !in b.roles
  }

  predicate Granted(b: Broker, user: nat, home: nat, username: string, password: string) {
    var role := HomeRoleName(user, home);
    && username in b.clients && b.clients[username] == Client(password, {role})
    && role in b.roles && b.roles[role] == HomeAcls(user, home)
  }

  /** Nothing but this client and this role, and the bindings to it, may have changed. */
  ghost predicate OnlyTouches(a: Broker, b: Broker, username: string, role: string) {
    && (forall u :: u != username ==> (u in a.clients <==> u in b.clients))
    && (forall u :: u != username && u in a.clients && role !in a.clients[u].roles ==>
          u in b.clients && b.clients[u] == a.clients[u])
    && (forall r :: r != role ==> (r in a.roles <==> r in b.roles))
    && (forall r :: r != role && r in a.roles ==> r in b.roles && b.roles[r] == a.roles[r])
    && (forall u :: u in b.clients && u !in a.clients ==> u == username)
  }

  predicate Concerns(c: Command, username: string, role: string) {
    match c
    case CreateRole(r) => r == role
    case AddRoleAcl(r, _) => r == role
    case CreateClient(u, _) => u == username
    case AddClientRole(u, r) => u == username && r == role
    case DeleteClient(u) => u == username
    case DeleteRole(r) => r == role
  }

  lemma ExecuteTouches(b: Broker, c: Command, refuse: bool, username: string, role: string)
    requires Concerns(c, username, role)
    ensures OnlyTouches(b, Execute(b, c, refuse).0, username, role)
  {
  }

  lemma TouchesTransitive(a: Broker, b: Broker, c: Broker, username: string, role: string)
    requires OnlyTouches(a, b, username, role) && OnlyTouches(b, c, username, role)
    ensures OnlyTouches(a, c, username, role)
  {
  }

  lemma {:induction false} ExecuteAllTouches(b: Broker, commands: seq<Command>, refused: set<nat>, at: nat,
                                             username: string, role: string)
    requires forall c :: c in commands ==> Concerns(c, username, role)
    ensures OnlyTouches(b, ExecuteAll(b, commands, refused, at).0, username, role)
    decreases |commands|
  {
    if commands != [] {
      hide Execute, OnlyTouches;
      var b1 := Execute(b, commands[0], at in refused).0;
      ExecuteTouches(b, commands[0], at in refused, username, role);
      ExecuteAllTouches(b1, commands[1..], refused, at + 1, username, role);
      TouchesTransitive(b, b1, ExecuteAll(b1, commands[1..], refused, at + 1).0, username, role);
    } else {
    }
  }

  lemma SendTouches(b: Broker, commands: seq<Command>, fate: Fate, username: string, role: string)
    requires forall c :: c in commands ==> Concerns(c, username, role)
    ensures OnlyTouches(b, SendCommands(b, commands, fate).0, username, role)
  {
    ExecuteAllTouches(b, commands, fate.refused, 0, username, role);
    ExecuteAllTouches(b, commands[..Min(fate.applied, |commands|)], fate.refused, 0, username, role);
    hide ExecuteAll;
  }

  /** Whatever happens to the messages, granting access concerns only the home's own names. */
  lemma ProvisionTouches(b: Broker, user: nat, home: nat, username: string, password: string, fate: GrantFate)
    ensures OnlyTouches(b, ProvisionHomeAccess(b, user, home, username, password, fate).0, username,
                        HomeRoleName(user, home))
  {
    hide SendCommands, OnlyTouches, HomeRoleName, HomeTopicPattern;
    var role := HomeRoleName(user, home);
    var b1 := SendCommands(b, ProvisionCommands(user, home, username, password), fate.grant).0;
    SendTouches(b, ProvisionCommands(user, home, username, password), fate.grant, username, role);
    var b2 := SendCommands(b1, [DeleteClient(username)], fate.undoClient).0;
    SendTouches(b1, [DeleteClient(username)], fate.undoClient, username, role);
    SendTouches(b2, [DeleteRole(role)], fate.undoRole, username, role);
    TouchesTransitive(b, b1, b2, username, role);
    TouchesTransitive(b, b2, SendCommands(b2, [DeleteRole(role)], fate.undoRole).0, username, role);
  }

  lemma CleanupTouches(b: Broker, user: nat, home: nat, username: string, fate: Fate)
    ensures OnlyTouches(b, CleanupHomeAccess(b, user, home, username, fate).0, username, HomeRoleName(user, home))
  {
    SendTouches(b, CleanupCommands(user, home, username), fate, username, HomeRoleName(user, home));
    hide SendCommands, OnlyTouches, HomeRoleName;
  }

  /** Access that has been granted is complete: the client exists with its password and exactly the
      home's role, which carries exactly the three access rules of the home's topics. */
  lemma GrantSucceeds(b: Broker, user: nat, home: nat, username: string, password: string, fate: GrantFate)
    ensures ProvisionHomeAccess(b, user, home, username, password, fate).1 ==>
              Granted(ProvisionHomeAccess(b, user, home, username, password, fate).0, user, home, username, password)
  {
    var commands := ProvisionCommands(user, home, username, password);
    hide HomeRoleName, HomeTopicPattern;
    if ProvisionHomeAccess(b, user, home, username, password, fate).1 {
      SixSucceed(b, user, home, username, password, fate.grant.refused);
    }
  }

  /** None of the six commands that grant access is refused. */
  predicate Willing(refused: set<nat>) { forall i: nat :: i < 6 ==> i !in refused }

  /** Granting access succeeds exactly if the broker answers, refuses none of the six commands, and
      knew neither the client nor the role before. */
  lemma GrantSucceedsIff(b: Broker, user: nat, home: nat, username: string, password: string, fate: GrantFate)
    ensures ProvisionHomeAccess(b, user, home, username, password, fate).1
            <==> fate.grant.answered && Willing(fate.grant.refused) && Gone(b, user, home, username)
  {
    hide HomeRoleName, HomeTopicPattern, Willing, Gone, ExecuteAll, FirstError;
    if ProvisionHomeAccess(b, user, home, username, password, fate).1 {
      SixSucceed(b, user, home, username, password, fate.grant.refused);
    } else if Willing(fate.grant.refused) && Gone(b, user, home, username) {
      SixWillSucceed(b, user, home, username, password, fate.grant.refused);
    }
  }

  lemma SixWillSucceed(b: Broker, user: nat, home: nat, username: string, password: string, refused: set<nat>)
    requires Willing(refused) && Gone(b, user, home, username)
    ensures FirstError(ExecuteAll(b, ProvisionCommands(user, home, username, password), refused, 0).1) == Success
  {
    hide HomeRoleName, HomeTopicPattern, ExecuteAll, FirstError;
    var s := ProvisionCommands(user, home, username, password);
    var role, topic := HomeRoleName(user, home), HomeTopicPattern(user, home);
    assert s[1..][1..] == s[2..] && s[2..][1..] == s[3..] && s[3..][1..] == s[4..] && s[4..][1..] == s[5..]
           && s[5..][1..] == [];
    var b1 := b.(roles := b.roles[role := {}]);
    var b2 := b.(roles := b1.roles[role := b1.roles[role] + {Acl(PublishClientSend, topic)}]);
    var b3 := b.(roles := b2.roles[role := b2.roles[role] + {Acl(PublishClientReceive, topic)}]);
    var b4 := b.(roles := b3.roles[role := b3.roles[role] + {Acl(SubscribePattern, topic)}]);
    var b5 := b4.(clients := b.clients[username := Client(password, {})]);
    OneDone(b, s, refused, 0, b1);
    OneDone(b1, s[1..], refused, 1, b2);
    OneDone(b2, s[2..], refused, 2, b3);
    OneDone(b3, s[3..], refused, 3, b4);
    OneDone(b4, s[4..], refused, 4, b5);
    OneDone(b5, s[5..], refused, 5, Execute(b5, s[5], false).0);
    NothingLeft(Execute(b5, s[5], false).0, [], refused, 6);
  }

  lemma OneDone(b: Broker, commands: seq<Command>, refused: set<nat>, at: nat, b1: Broker)
    requires commands != [] && Execute(b, commands[0], at in refused) == (b1, Done)
    ensures FirstError(ExecuteAll(b, commands, refused, at).1)
              == FirstError(ExecuteAll(b1, commands[1..], refused, at + 1).1)
  {
    hide Execute;
    var rest := ExecuteAll(b1, commands[1..], refused, at + 1).1;
    var responses := ExecuteAll(b, commands, refused, at).1;
    assert responses[0] == Done && responses[1..] == rest;
  }

  /** Six commands that all succeed, one after the other. */
  lemma SixSucceed(b: Broker, user: nat, home: nat, username: string, password: string, refused: set<nat>)
    requires FirstError(ExecuteAll(b, ProvisionCommands(user, home, username, password), refused, 0).1) == Success
    ensures Granted(ExecuteAll(b, ProvisionCommands(user, home, username, password), refused, 0).0, user, home,
                    username, password)
    ensures Willing(refused) && Gone(b, user, home, username)
  {
    hide HomeRoleName, HomeTopicPattern, Execute, ExecuteAll, FirstError;
    var s := ProvisionCommands(user, home, username, password);
    var role, topic := HomeRoleName(user, home), HomeTopicPattern(user, home);
    var b1 := OneSucceeds(b, s, refused, 0);
    assert s[1..][1..] == s[2..] && s[2..][1..] == s[3..] && s[3..][1..] == s[4..] && s[4..][1..] == s[5..]
           && s[5..][1..] == s[6..];
    var b2 := OneSucceeds(b1, s[1..], refused, 1);
    var b3 := OneSucceeds(b2, s[2..], refused, 2);
    var b4 := OneSucceeds(b3, s[3..], refused, 3);
    var b5 := OneSucceeds(b4, s[4..], refused, 4);
    var b6 := OneSucceeds(b5, s[5..], refused, 5);
    NothingLeft(b6, s[6..], refused, 6);
    CreateRoleDone(b, role, 0 in refused);
    AddAclDone(b1, role, Acl(PublishClientSend, topic), 1 in refused);
    AddAclDone(b2, role, Acl(PublishClientReceive, topic), 2 in refused);
    AddAclDone(b3, role, Acl(SubscribePattern, topic), 3 in refused);
    BindDone(b4, b5, username, password, role, 4 in refused, 5 in refused);
  }

  lemma OneSucceeds(b: Broker, commands: seq<Command>, refused: set<nat>, at: nat) returns (b1: Broker)
    requires commands != [] && FirstError(ExecuteAll(b, commands, refused, at).1) == Success
    ensures (b1, Done) == Execute(b, commands[0], at in refused)
    ensures FirstError(ExecuteAll(b1, commands[1..], refused, at + 1).1) == Success
    ensures ExecuteAll(b, commands, refused, at).0 == ExecuteAll(b1, commands[1..], refused, at + 1).0
  {
    hide Execute;
    b1 := Execute(b, commands[0], at in refused).0;
    var rest := ExecuteAll(b1, commands[1..], refused, at + 1).1;
    var responses := ExecuteAll(b, commands, refused, at).1;
    assert responses[0] == Execute(b, commands[0], at in refused).1 && responses[1..] == rest;
  }

  lemma NothingLeft(b: Broker, commands: seq<Command>, refused: set<nat>, at: nat)
    requires commands == []
    ensures ExecuteAll(b, commands, refused, at).0 == b && FirstError(ExecuteAll(b, commands, refused, at).1) == Success
  {
  }

  lemma CreateRoleDone(b: Broker, role: string, refuse: bool)
    requires Execute(b, CreateRole(role), refuse).1 == Done
    ensures Execute(b, CreateRole(role), refuse).0 == b.(roles := b.roles[role := {}]) && role !in b.roles && !refuse
  {
  }

  lemma AddAclDone(b: Broker, role: string, acl: Acl, refuse: bool)
    requires Execute(b, AddRoleAcl(role, acl), refuse).1 == Done
    ensures role in b.roles && !refuse
    ensures Execute(b, AddRoleAcl(role, acl), refuse).0 == b.(roles := b.roles[role := b.roles[role] + {acl}])
  {
  }

  lemma BindDone(b: Broker, mid: Broker, username: string, password: string, role: string, refuse: bool,
                 refuseBind: bool)
    requires Execute(b, CreateClient(username, password), refuse) == (mid, Done)
    requires Execute(mid, AddClientRole(username, role), refuseBind).1 == Done
    ensures var after := Execute(mid, AddClientRole(username, role), refuseBind).0;
            && after.roles == b.roles && role in b.roles && username !in b.clients && !refuse && !refuseBind
            && username in after.clients && after.clients[username] == Client(password, {role})
  {
  }

  /** A clean-up succeeds exactly if it is answered, and then the role is gone, and so is the client
      unless its name is blank and nothing was sent about it. */
  lemma CleanupSucceeds(b: Broker, user: nat, home: nat, username: string, fate: Fate)
    ensures CleanupHomeAccess(b, user, home, username, fate).1 <==> fate.answered
    ensures var (after, ok) := CleanupHomeAccess(b, user, home, username, fate);
            ok ==> HomeRoleName(user, home) !in after.roles && (!Blank(username) ==> Gone(after, user, home, username))
  {
    hide HomeRoleName, Blank;
    var role := HomeRoleName(user, home);
    var commands := CleanupCommands(user, home, username);
    if Blank(username) {
      assert commands == [DeleteRole(role)];
      OneDeletion(b, role, fate.refused, 0);
    } else {
      assert commands == [DeleteClient(username), DeleteRole(role)] && commands[1..] == [DeleteRole(role)];
      var b1 := Execute(b, DeleteClient(username), 0 in fate.refused).0;
      var r1 := Execute(b, DeleteClient(username), 0 in fate.refused).1;
      OneDeletion(b1, role, fate.refused, 1);
      var (b2, responses) := ExecuteAll(b1, [DeleteRole(role)], fate.refused, 1);
      assert ExecuteAll(b, commands, fate.refused, 0) == (b2, [r1] + responses);
      assert ([r1] + responses)[0] == r1 && ([r1] + responses)[1..] == responses;
    }
  }

  lemma OneDeletion(b: Broker, role: string, refused: set<nat>, at: nat)
    ensures var (after, responses) := ExecuteAll(b, [DeleteRole(role)], refused, at);
            && role !in after.roles && after.clients.Keys == b.clients.Keys
            && (FirstError(responses) == Success || FirstError(responses) == NotFound)
  {
    var (b1, response) := Execute(b, DeleteRole(role), at in refused);
    assert [DeleteRole(role)][1..] == [] && [response] + [] == [response] && [response][1..] == [];
    assert ExecuteAll(b, [DeleteRole(role)], refused, at) == (b1, [response]);
  }

  /** A clean-up never brings anything back. */
  lemma CleanupKeepsGone(b: Broker, user: nat, home: nat, username: string, fate: Fate)
    requires Gone(b, user, home, username)
    ensures Gone(CleanupHomeAccess(b, user, home, username, fate).0, user, home, username)
  {
    hide HomeRoleName, Blank;
    var commands := CleanupCommands(user, home, username);
    DeletionsOnlyRemove(b, commands, fate.refused, 0);
    DeletionsOnlyRemove(b, commands[..Min(fate.applied, |commands|)], fate.refused, 0);
    hide ExecuteAll;
  }

  lemma {:induction false} DeletionsOnlyRemove(b: Broker, commands: seq<Command>, refused: set<nat>, at: nat)
    requires forall c :: c in commands ==> Deletes(c)
    ensures var after := ExecuteAll(b, commands, refused, at).0;
            after.clients.Keys <= b.clients.Keys && after.roles.Keys <= b.roles.Keys
    decreases |commands|
  {
    if commands != [] {
      DeletionRemoves(b, commands[0], at in refused);
      hide Execute;
      DeletionsOnlyRemove(Execute(b, commands[0], at in refused).0, commands[1..], refused, at + 1);
    }
  }

  lemma DeletionRemoves(b: Broker, c: Command, refuse: bool)
    requires Deletes(c)
    ensures var after := Execute(b, c, refuse).0;
            after.clients.Keys <= b.clients.Keys && after.roles.Keys <= b.roles.Keys
  {
  }

  /** Another home's access is not affected. */
  lemma OthersUntouched(a: Broker, b: Broker, user: nat, home: nat, suffix: string, otherUser: nat, other: nat,
                        otherSuffix: string, password: string)
    requires home != other
    requires OnlyTouches(a, b, HomeMqttUsername(user, home, suffix), HomeRoleName(user, home))
    ensures Gone(a, otherUser, other, HomeMqttUsername(otherUser, other, otherSuffix)) ==>
              Gone(b, otherUser, other, HomeMqttUsername(otherUser, other, otherSuffix))
    ensures Granted(a, otherUser, other, HomeMqttUsername(otherUser, other, otherSuffix), password) ==>
              Granted(b, otherUser, other, HomeMqttUsername(otherUser, other, otherSuffix), password)
  {
    RoleNamesDiffer(user, home, otherUser, other);
    UsernamesDiffer(user, home, suffix, otherUser, other, otherSuffix);
    hide HomeMqttUsername, HomeRoleName, HomeAcls;
  }
}
