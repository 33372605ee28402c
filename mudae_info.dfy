/** Recognising the Mudae bot: the main bot by its id, and its "maid" instances
    by a user name of the form `Mudamaid\s*\d+`. */
module MudaeInfo {
  import opened Base
  import opened Strings
  import opened TimeRegex

  /** A Discord user as the bot sees it. */
  datatype User = User(id: Snowflake, username: string, isBot: bool)

  /** The main Mudae bot's id. */
  const MudaeId: Snowflake := 432_610_292_342_587_392

  const MaidPrefix: string := "Mudamaid"

  /** `^Mudamaid\s*\d+$` (case-sensitive): white space and digits after the prefix,
      then the end of the name or a final '\n' (where `$` also matches). Each run is
      the longest run of its class, since a digit is not white space and the end
      follows the digits. */
  predicate MaidName(name: string) {
    StartsWith(name, MaidPrefix)
    && (var b := Run(name, 8, Space);
        var d := Run(name, 8 + b, Digit);
        d >= 1 && (8 + b + d == |name| || (8 + b + d == |name| - 1 && name[|name| - 1] == '\n')))
  }

  /** The pattern read declaratively: `b` white-space characters and `d` digits. */
  predicate MaidShape(name: string, b: nat, d: nat) {
    StartsWith(name, MaidPrefix) && AllIn(name, 8, b, Space) && d >= 1 && AllIn(name, 8 + b, d, Digit)
    && (8 + b + d == |name| || (8 + b + d == |name| - 1 && name[|name| - 1] == '\n'))
  }

  lemma MaidShapeForced(name: string, b: nat, d: nat)
    requires MaidShape(name, b, d)
    ensures Run(name, 8, Space) == b && Run(name, 8 + b, Digit) == d
  {
    RunIsMaximal(name, 8, b, Space);
    if 8 + b + d < |name| {
      assert !IsDigit(name[8 + b + d]);
    }
    RunIsMaximal(name, 8 + b, d, Digit);
  }

  lemma MaidNameAgrees(name: string)
    ensures MaidName(name) <==> exists b: nat, d: nat :: MaidShape(name, b, d)
  {
    if MaidName(name) {
      var b := Run(name, 8, Space);
      RunFacts(name, 8, Space);
      RunFacts(name, 8 + b, Digit);
      assert MaidShape(name, b, Run(name, 8 + b, Digit));
    }
    forall b: nat, d: nat | MaidShape(name, b, d) ensures MaidName(name) {
      MaidShapeForced(name, b, d);
    }
  }

  /** MudaeInfo.IsMudae. */
  predicate IsMudae(u: User) {
    u.isBot && (u.id == MudaeId || MaidName(u.username))
  }

  /** A user is Mudae iff it is a bot and either has Mudae's id or a maid's name;
      in particular a user who is not a bot never is. */
  lemma IsMudaeSpec(u: User)
    ensures IsMudae(u) <==> u.isBot && (u.id == MudaeId || exists b: nat, d: nat :: MaidShape(u.username, b, d))
    ensures !u.isBot ==> !IsMudae(u)
  {
    MaidNameAgrees(u.username);
  }

  /** "Mudamaid 12" names a maid; the match is case-sensitive, so "mudamaid 12" does not. */
  lemma MaidNameExamples()
    ensures MaidName("Mudamaid 12")
    ensures !MaidName("mudamaid 12")
    ensures !MaidName("Mudamaid")
  {
    var s := "Mudamaid 12";
    assert s[..8] == MaidPrefix;
    assert Run(s, 8, Space) == 1 by { assert Run(s, 9, Space) == 0; }
    assert Run(s, 9, Digit) == 2 by { assert Run(s, 10, Digit) == 1 by { assert Run(s, 11, Digit) == 0; } }
    assert "mudamaid 12"[0] != MaidPrefix[0];
  }
}
