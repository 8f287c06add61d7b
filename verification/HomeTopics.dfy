/**
 What a home's role opens at the broker: topic filters as section 4.7 of MQTT 3.1.1 matches them, the
 topics of devices as the server builds them, and which of them a granted account reaches.
 */
module HomeTopics {
  import opened HomeNames
  import opened Dynsec
  import opened HomeJobs
  import opened HomeJobsRuns

  // ---------- topics ----------

  /** A capability's topic; `action` is "state" or "command". */
  function BuildTopic(user: nat, home: nat, device: nat, component: string, esphomeKey: string,
                      action: string): string {
    Decimal(user) + "/" + Decimal(home) + "/" + Decimal(device) + "/" + component + "/" + esphomeKey + "/" + action
  }

  function BuildStatusTopic(user: nat, home: nat, device: nat): string {
    Decimal(user) + "/" + Decimal(home) + "/" + Decimal(device) + "/status"
  }

  function BuildOTACommandTopic(user: nat, home: nat, device: nat): string {
    Decimal(user) + "/" + Decimal(home) + "/" + Decimal(device) + "/firmware_update"
  }

  /** One of a device's topics. */
  ghost predicate IsDeviceTopic(topic: string, user: nat, home: nat, device: nat) {
    || topic == BuildStatusTopic(user, home, device)
    || topic == BuildOTACommandTopic(user, home, device)
    || exists component, esphomeKey, action :: topic == BuildTopic(user, home, device, component, esphomeKey, action)
  }

  // ---------- filters ----------

  /** The levels of a topic or filter: what stands between its slashes. */
  function Levels(s: string): (levels: seq<string>)
    ensures levels != []
  {
    if s == "" then [""]
    else
      var rest := Levels(s[1..]);
      if s[0] == '/' then [""] + rest else [[s[0]] + rest[0]] + rest[1..]
  }

  /** A plus sign stands for one level, a number sign at the end for any number of levels. */
  predicate LevelsMatch(filter: seq<string>, topic: seq<string>) {
    if filter == [] then topic == []
    else if filter == ["#"] then true
    else topic != [] && (filter[0] == "+" || filter[0] == topic[0]) && LevelsMatch(filter[1..], topic[1..])
  }

  predicate TopicMatches(filter: string, topic: string) { LevelsMatch(Levels(filter), Levels(topic)) }

  /** Some rule of one of the client's roles lets it do this with the topic. */
  ghost predicate Reaches(b: Broker, username: string, kind: AclType, topic: string) {
    && username in b.clients
    && exists role, acl :: role in b.clients[username].roles && role in b.roles && acl in b.roles[role]
                           && acl.kind == kind && TopicMatches(acl.topic, topic)
  }

  lemma {:induction false} OneLevel(s: string)
    requires '/' !in s
    ensures Levels(s) == [s]
  {
    if s != "" {
      OneLevel(s[1..]);
      assert [s[0]] + s[1..] == s;
    }
  }

  lemma {:induction false} FirstLevel(s: string, rest: string)
    requires '/' !in s
    ensures Levels(s + "/" + rest) == [s] + Levels(rest)
  {
    var all := s + "/" + rest;
    if s == "" {
      assert all[1..] == rest;
    } else {
      FirstLevel(s[1..], rest);
      assert all[1..] == s[1..] + "/" + rest && all[0] == s[0];
      assert [s[0]] + s[1..] == s;
    }
  }

  lemma PatternLevels(user: nat, home: nat)
    ensures Levels(HomeTopicPattern(user, home)) == [Decimal(user), Decimal(home), "#"]
  {
    hide Decimal, Levels;
    OneLevel("#");
    FirstLevel(Decimal(home), "#");
    assert Decimal(home) + ("/" + "#") == Decimal(home) + "/" + "#";
    FirstLevel(Decimal(user), Decimal(home) + "/" + "#");
    assert Decimal(user) + "/" + (Decimal(home) + ("/" + "#")) == HomeTopicPattern(user, home);
  }

  lemma TopicLevels(topic: string, user: nat, home: nat, rest: string)
    requires topic == Decimal(user) + "/" + (Decimal(home) + "/" + rest)
    ensures Levels(topic) == [Decimal(user), Decimal(home)] + Levels(rest)
  {
    hide Decimal, Levels;
    FirstLevel(Decimal(home), rest);
    FirstLevel(Decimal(user), Decimal(home) + "/" + rest);
  }

  lemma DeviceTopicForm(topic: string, user: nat, home: nat, device: nat) returns (rest: string)
    requires IsDeviceTopic(topic, user, home, device)
    ensures topic == Decimal(user) + "/" + (Decimal(home) + "/" + rest)
  {
    hide Decimal;
    if topic == BuildStatusTopic(user, home, device) {
      rest := Decimal(device) + "/status";
    } else if topic == BuildOTACommandTopic(user, home, device) {
      rest := Decimal(device) + "/firmware_update";
    } else {
      var component, esphomeKey, action :| topic == BuildTopic(user, home, device, component, esphomeKey, action);
      rest := Decimal(device) + "/" + component + "/" + esphomeKey + "/" + action;
    }
    hide IsDeviceTopic;
    assert topic == Decimal(user) + "/" + (Decimal(home) + "/" + rest);
  }

  /** A home's pattern matches a device's topic exactly if the device is in this home of this user. */
  lemma PatternCoversHome(user: nat, home: nat, otherUser: nat, otherHome: nat, device: nat, topic: string)
    requires IsDeviceTopic(topic, otherUser, otherHome, device)
    ensures TopicMatches(HomeTopicPattern(user, home), topic) <==> user == otherUser && home == otherHome
  {
    var rest := DeviceTopicForm(topic, otherUser, otherHome, device);
    hide Decimal, Levels, IsDeviceTopic, HomeTopicPattern;
    PatternLevels(user, home);
    TopicLevels(topic, otherUser, otherHome, rest);
    ThreeLevels(Decimal(user), Decimal(home), Levels(topic));
    if Decimal(user) == Decimal(otherUser) && Decimal(home) == Decimal(otherHome) {
      DecimalIsInjective(user, otherUser);
      DecimalIsInjective(home, otherHome);
    }
  }

  lemma ThreeLevels(a: string, b: string, topic: seq<string>)
    requires |topic| >= 2 && '+' !in a && '+' !in b && '#' !in a && '#' !in b
    ensures LevelsMatch([a, b, "#"], topic) <==> topic[0] == a && topic[1] == b
  {
    assert "+"[0] == '+' && '+' in "+";
    assert |[a, b, "#"]| == 3 && [a, b, "#"][1..] == [b, "#"] && [b, "#"][1..] == ["#"];
    var rest := topic[1..];
    assert LevelsMatch([a, b, "#"], topic) == (a == topic[0] && LevelsMatch([b, "#"], rest));
    assert |[b, "#"]| == 2;
    assert LevelsMatch([b, "#"], rest) == (b == rest[0] && LevelsMatch(["#"], rest[1..]));
  }

  // ---------- ids ----------

  /** The number that a string of digits denotes. */
  function Denoted(s: string): int {
    if s == "" then 0 else 10 * Denoted(s[..|s| - 1]) + (s[|s| - 1] as int - '0' as int)
  }

  /** An id stands in the topics in decimal. */
  lemma {:induction false} DecimalDenotes(n: nat)
    ensures Denoted(Decimal(n)) == n
    ensures n > 0 ==> Decimal(n)[0] != '0'
  {
    var s := Decimal(n);
    DigitDenotes(n % 10);
    if n < 10 {
      assert s[..0] == "";
    } else {
      DecimalDenotes(n / 10);
      assert s[..|s| - 1] == Decimal(n / 10) && s[|s| - 1] == Digit(n % 10);
    }
  }

  lemma DigitDenotes(d: nat)
    requires d < 10
    ensures Digit(d) as int - '0' as int == d
  {
  }

  // ---------- accounts ----------

  /** A granted account may send to, receive from and subscribe to exactly the topics of its own home's
      devices, and of no device of any other home. */
  lemma GrantedReaches(b: Broker, user: nat, home: nat, username: string, password: string, fate: GrantFate,
                       kind: AclType, otherUser: nat, otherHome: nat, device: nat, topic: string)
    requires ProvisionHomeAccess(b, user, home, username, password, fate).1
    requires IsDeviceTopic(topic, otherUser, otherHome, device)
    ensures Reaches(ProvisionHomeAccess(b, user, home, username, password, fate).0, username, kind, topic)
       <==> user == otherUser && home == otherHome
  {
    hide ProvisionHomeAccess, IsDeviceTopic;
    GrantSucceeds(b, user, home, username, password, fate);
    GrantReaches(ProvisionHomeAccess(b, user, home, username, password, fate).0, user, home, username, password, kind,
                 otherUser, otherHome, device, topic);
  }

  lemma GrantReaches(b: Broker, user: nat, home: nat, username: string, password: string,
                     kind: AclType, otherUser: nat, otherHome: nat, device: nat, topic: string)
    requires Granted(b, user, home, username, password) && IsDeviceTopic(topic, otherUser, otherHome, device)
    ensures Reaches(b, username, kind, topic) <==> user == otherUser && home == otherHome
  {
    PatternCoversHome(user, home, otherUser, otherHome, device, topic);
    hide IsDeviceTopic, TopicMatches, HomeTopicPattern, HomeRoleName;
    var role, acl := HomeRoleName(user, home), Acl(kind, HomeTopicPattern(user, home));
    assert role in b.clients[username].roles && role in b.roles && acl in b.roles[role];
  }

  /** In every run: the account of a home that is ready, and whose deletion nobody has requested, reaches
      exactly the topics of the home's own devices. */
  lemma ReadyHomesReachTheirDevices(start: World, steps: seq<Step>, h: nat, kind: AclType, user: nat, home: nat,
                                    device: nat, topic: string)
    requires IsStart(start) && h in Run(start, steps).homes && h !in Run(start, steps).requested
    requires Run(start, steps).homes[h].state == Ready && IsDeviceTopic(topic, user, home, device)
    ensures var w := Run(start, steps);
            Reaches(w.broker, w.homes[h].username, kind, topic) <==> user == w.homes[h].user && home == h
  {
    hide Run, IsDeviceTopic, Granted, Reaches, JobsOf;
    HomeLifeCycle(start, steps, h);
    var w := Run(start, steps);
    GrantReaches(w.broker, w.homes[h].user, h, w.homes[h].username, w.homes[h].password, kind, user,
                 home, device, topic);
  }

  /** And a soft-deleted home's account reaches nothing. */
  lemma DeletedHomesReachNothing(start: World, steps: seq<Step>, h: nat, kind: AclType, topic: string)
    requires IsStart(start) && h in Run(start, steps).homes && Run(start, steps).homes[h].deleted
    ensures var w := Run(start, steps);
            h in w.issued && !Reaches(w.broker, HomeMqttUsername(w.homes[h].user, h, w.issued[h].suffix), kind, topic)
  {
    hide Run, HomeMqttUsername, HomeRoleName;
    DeletedHomesHaveNoAccess(start, steps, h);
  }
}
