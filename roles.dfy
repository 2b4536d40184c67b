/** The four roles of the base game, their teams and what each may see. */
module Roles {
  import Options

  datatype Team = Good | Evil

  datatype Role = Merlin | LoyalServant | Assassin | Minion

  /**
   * One row of the role table. `knowsEvil` is the ability to see every evil
   * seat; `knowsTeammates` the ability of an evil role to see the other
   * evil seats. (The table's `known_to_merlin` flag is read nowhere.)
   */
  datatype RoleInfo = RoleInfo(role: Role, team: Team, knowsEvil: bool, knownToMerlin: bool, knowsTeammates: bool)

  /** The role table: only Merlin sees evil, only the evil roles know their teammates. */
  function Info(r: Role): (info: RoleInfo)
    ensures info.role == r
  {
    match r
    case Merlin => RoleInfo(Merlin, Good, knowsEvil := true, knownToMerlin := true, knowsTeammates := false)
    case LoyalServant => RoleInfo(LoyalServant, Good, knowsEvil := false, knownToMerlin := true, knowsTeammates := false)
    case Assassin => RoleInfo(Assassin, Evil, knowsEvil := false, knownToMerlin := true, knowsTeammates := true)
    case Minion => RoleInfo(Minion, Evil, knowsEvil := false, knownToMerlin := true, knowsTeammates := true)
  }

  function GetTeam(r: Role): Team { Info(r).team }

  predicate IsEvil(r: Role) { Info(r).team == Evil }

  predicate CanSeeEvil(r: Role) { Info(r).knowsEvil }

  predicate KnowsTeammates(r: Role) { Info(r).knowsTeammates }

  /** The string value of each role, as stored in records. */
  function Name(r: Role): string {
    match r
    case Merlin => "merlin"
    case LoyalServant => "loyal_servant"
    case Assassin => "assassin"
    case Minion => "minion"
  }

  /** `Role(s)`: the role whose value is `s`, if any. */
  function FromName(s: string): (r: Options.Option<Role>)
    ensures r.Some? ==> Name(r.value) == s
  {
    if s == "merlin" then Options.Some(Merlin)
    else if s == "loyal_servant" then Options.Some(LoyalServant)
    else if s == "assassin" then Options.Some(Assassin)
    else if s == "minion" then Options.Some(Minion)
    else Options.None
  }

  function TeamName(t: Team): string {
    match t
    case Good => "good"
    case Evil => "evil"
  }

  /** Merlin is good, sees evil and has no teammates to know. */
  lemma MerlinInfo()
    ensures GetTeam(Merlin) == Good && CanSeeEvil(Merlin) && !KnowsTeammates(Merlin)
  {}

  /** A loyal servant is good and has neither ability. */
  lemma LoyalServantInfo()
    ensures GetTeam(LoyalServant) == Good && !CanSeeEvil(LoyalServant) && !KnowsTeammates(LoyalServant)
  {}

  /** The assassin and the minion are evil, know their teammates and do not see evil as Merlin does. */
  lemma EvilRolesInfo(r: Role)
    requires r == Assassin || r == Minion
    ensures GetTeam(r) == Evil && KnowsTeammates(r) && !CanSeeEvil(r)
  {}

  /** `is_evil` agrees with `get_team`. */
  lemma IsEvilIffEvilTeam(r: Role)
    ensures IsEvil(r) <==> GetTeam(r) == Evil
  {}

  /** Seeing evil is Merlin's ability alone. */
  lemma CanSeeEvilOnlyMerlin(r: Role)
    ensures CanSeeEvil(r) <==> r == Merlin
  {}

  /** With these four roles, knowing one's teammates is the same as being evil. */
  lemma KnowsTeammatesIffEvil(r: Role)
    ensures KnowsTeammates(r) <==> IsEvil(r)
  {}

  /** The stored role names round-trip. */
  lemma NameRoundTrip(r: Role)
    ensures FromName(Name(r)) == Options.Some(r)
  {}
}
