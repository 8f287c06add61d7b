/**
 The names under which a home is known to the broker, and why no two homes share one.
 */
module HomeNames {
  import opened Strings

  function Digit(d: nat): char
    requires d < 10
  {
    "0123456789"[d]
  }

  /** A number in decimal. */
  function Decimal(n: nat): (s: string)
    ensures s != [] && '_' !in s && '/' !in s && '#' !in s && '+' !in s && (n < 10 <==> |s| == 1)
  {
    if n < 10 then [Digit(n)] else Decimal(n / 10) + [Digit(n % 10)]
  }

  function HomeRoleName(user: nat, home: nat): string { "home_" + (Decimal(user) + "_" + Decimal(home)) }

  function HomeTopicPattern(user: nat, home: nat): string { Decimal(user) + "/" + (Decimal(home) + "/" + "#") }

  function HomeMqttUsername(user: nat, home: nat, suffix: string): string {
    "home_" + (Decimal(user) + "_" + (Decimal(home) + "_" + suffix))
  }

  lemma DigitIsInjective(a: nat, b: nat)
    requires a < 10 && b < 10 && Digit(a) == Digit(b)
    ensures a == b
  {
  }

  lemma {:induction false} DecimalIsInjective(a: nat, b: nat)
    requires Decimal(a) == Decimal(b)
    ensures a == b
  {
    var s, t := Decimal(a), Decimal(b);
    if a < 10 {
      assert s[0] == t[0];
      DigitIsInjective(a, b);
    } else {
      assert s[..|s| - 1] == Decimal(a / 10) && t[..|t| - 1] == Decimal(b / 10);
      assert s[|s| - 1] == t[|t| - 1];
      DigitIsInjective(a % 10, b % 10);
      DecimalIsInjective(a / 10, b / 10);
    }
  }

  /** A separator that occurs in neither prefix cuts both strings at the same place. */
  lemma CutAtSeparator(separator: char, a: string, b: string, c: string, d: string)
    requires separator !in a && separator !in c && a + [separator] + b == c + [separator] + d
    ensures a == c && b == d
  {
    var left, right := a + [separator] + b, c + [separator] + d;
    assert left[|a|] == separator && right[|c|] == separator;
    assert forall i :: 0 <= i < |c| ==> right[i] == c[i];
    assert forall i :: 0 <= i < |a| ==> left[i] == a[i];
    assert left[..|a|] == a && right[..|c|] == c;
    assert left[|a| + 1..] == b && right[|c| + 1..] == d;
  }

  lemma SamePrefix(prefix: string, a: string, b: string)
    requires prefix + a == prefix + b
    ensures a == b
  {
    assert (prefix + a)[|prefix|..] == a && (prefix + b)[|prefix|..] == b;
  }

  lemma RoleNamesDiffer(user: nat, home: nat, otherUser: nat, otherHome: nat)
    ensures HomeRoleName(user, home) == HomeRoleName(otherUser, otherHome) <==> user == otherUser && home == otherHome
  {
    hide Decimal;
    if HomeRoleName(user, home) == HomeRoleName(otherUser, otherHome) {
      SamePrefix("home_", Decimal(user) + "_" + Decimal(home), Decimal(otherUser) + "_" + Decimal(otherHome));
      CutAtSeparator('_', Decimal(user), Decimal(home), Decimal(otherUser), Decimal(otherHome));
      DecimalIsInjective(user, otherUser);
      DecimalIsInjective(home, otherHome);
    }
  }

  /** The topics that one home's role opens are no other home's. */
  lemma TopicsDiffer(user: nat, home: nat, otherUser: nat, otherHome: nat)
    ensures HomeTopicPattern(user, home) == HomeTopicPattern(otherUser, otherHome) <==>
              user == otherUser && home == otherHome
  {
    hide Decimal;
    if HomeTopicPattern(user, home) == HomeTopicPattern(otherUser, otherHome) {
      CutAtSeparator('/', Decimal(user), Decimal(home) + "/" + "#", Decimal(otherUser), Decimal(otherHome) + "/" + "#");
      CutAtSeparator('/', Decimal(home), "#", Decimal(otherHome), "#");
      DecimalIsInjective(user, otherUser);
      DecimalIsInjective(home, otherHome);
    }
  }

  /** Whatever the random suffixes are, accounts of different homes have different names. */
  lemma UsernamesDiffer(user: nat, home: nat, suffix: string, otherUser: nat, otherHome: nat, otherSuffix: string)
    ensures HomeMqttUsername(user, home, suffix) == HomeMqttUsername(otherUser, otherHome, otherSuffix)
            <==> user == otherUser && home == otherHome && suffix == otherSuffix
  {
    hide Decimal;
    if HomeMqttUsername(user, home, suffix) == HomeMqttUsername(otherUser, otherHome, otherSuffix) {
      var rest, otherRest := Decimal(home) + "_" + suffix, Decimal(otherHome) + "_" + otherSuffix;
      SamePrefix("home_", Decimal(user) + "_" + rest, Decimal(otherUser) + "_" + otherRest);
      CutAtSeparator('_', Decimal(user), rest, Decimal(otherUser), otherRest);
      CutAtSeparator('_', Decimal(home), suffix, Decimal(otherHome), otherSuffix);
      DecimalIsInjective(user, otherUser);
      DecimalIsInjective(home, otherHome);
    }
  }

  lemma UsernameNotBlank(user: nat, home: nat, suffix: string)
    ensures !Blank(HomeMqttUsername(user, home, suffix)) && HomeMqttUsername(user, home, suffix) != ""
  {
    hide Decimal;
    assert HomeMqttUsername(user, home, suffix)[0] == 'h';
    NotBlank(HomeMqttUsername(user, home, suffix));
  }
}
