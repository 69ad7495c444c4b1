/** The static team-information table and the first-match lookup the
    standings merge performs on it. */
module TeamInfo {
  import opened Results
  import opened JsObject
  import opened Sequences

  /** One entry of `basicTeamInfo`. */
  datatype TeamProfile = TeamProfile(
    name: string,
    url: string,
    coach: string,
    ongoingTournament: seq<string>,
    teamID: int,
    crest: string)
  {
    /** The entry as the JavaScript object literal it is written as. */
    function ToObject(): (o: Object)
      ensures o.Keys == ProfileKeys
    {
      map[
        "name" := Str(name),
        "url" := Str(url),
        "coach" := Str(coach),
        "ongoingTournament" := StrList(ongoingTournament),
        "teamID" := Num(teamID),
        "crest" := Str(crest)]
    }
  }

  /** The own keys of every `basicTeamInfo` entry. */
  const ProfileKeys: set<string> :=
    {"name", "url", "coach", "ongoingTournament", "teamID", "crest"}

  /** `basicTeamInfo`, in source order. */
  const BasicTeamInfo: seq<TeamProfile> := [
    TeamProfile(
      "Manchester City FC",
      "https://www.fctables.com/teams/manchester-city-189570/",
      "Pep Guardiola",
      ["Premier League", "UEFA Champions League"],
      65,
      "https://crests.football-data.org/65.png"),
    TeamProfile(
      "Liverpool FC",
      "https://www.fctables.com/teams/liverpool-189071/",
      "Arne Slot",
      ["Premier League", "UEFA Champions League"],
      64,
      "https://crests.football-data.org/64.png"),
    TeamProfile(
      "Arsenal FC",
      "https://www.fctables.com/teams/arsenal-180231/",
      "Mikel Arteta",
      ["Premier League", "UEFA Champions League"],
      57,
      "https://crests.football-data.org/57.png"),
    TeamProfile(
      "Chelsea FC",
      "https://www.fctables.com/teams/chelsea-182666/",
      "Mauricio Pochettino",
      ["Premier League", "UEFA Europa Conference League"],
      61,
      "https://crests.football-data.org/61.png"),
    TeamProfile(
      "Manchester United FC",
      "https://www.fctables.com/teams/manchester-united-189577/",
      "Erik ten Hag",
      ["Premier League", "UEFA Europa League"],
      66,
      "https://crests.football-data.org/66.png"),
    TeamProfile(
      "Tottenham Hotspur FC",
      "https://www.fctables.com/teams/tottenham-195775/",
      "Angelos Postecoglou",
      ["Premier League", "UEFA Europa League"],
      73,
      "https://crests.football-data.org/73.png"),
    TeamProfile(
      "West Ham United FC",
      "https://www.fctables.com/teams/west-ham-197305/",
      "David Moyes",
      ["Premier League"],
      563,
      "https://crests.football-data.org/563.png"),
    TeamProfile(
      "Everton FC",
      "https://www.fctables.com/teams/everton-184479/",
      "Sean Dyche",
      ["Premier League"],
      62,
      "https://crests.football-data.org/62.png"),
    TeamProfile(
      "Leicester City FC",
      "https://www.fctables.com/teams/leicester-188852/",
      "Steve Cooper",
      ["Premier League"],
      338,
      "https://crests.football-data.org/338.png"),
    TeamProfile(
      "Aston Villa FC",
      "https://www.fctables.com/teams/aston-villa-180502/",
      "Unai Emery",
      ["Premier League", "UEFA Champions League"],
      58,
      "https://crests.football-data.org/58.png"),
    TeamProfile(
      "Brighton and Hove Albion FC",
      "https://www.fctables.com/teams/brighton-181730/",
      "Roberto De Zerbi",
      ["Premier League"],
      397,
      "https://crests.football-data.org/397.png"),
    TeamProfile(
      "Newcastle United FC",
      "https://www.fctables.com/teams/newcastle-united-190686/",
      "Eddie Howe",
      ["Premier League"],
      67,
      "https://crests.football-data.org/67.png"),
    TeamProfile(
      "Wolverhampton Wanderers FC",
      "https://www.fctables.com/teams/wolverhampton-197476/",
      "Gary O'Neil",
      ["Premier League"],
      76,
      "https://crests.football-data.org/76.png"),
    TeamProfile(
      "Nottingham Forest FC",
      "https://www.fctables.com/teams/nottingham-forest-190924/",
      "Steve Cooper",
      ["Premier League"],
      351,
      "https://crests.football-data.org/351.png"),
    TeamProfile(
      "Ipswich Town FC",
      "https://www.fctables.com/teams/ipswich-187495/",
      "Kieran McKenna",
      ["Premier League"],
      349,
      "https://crests.football-data.org/349.png"),
    TeamProfile(
      "Southampton FC",
      "https://www.fctables.com/teams/southampton-194444/",
      "Russell Martin",
      ["Premier League"],
      340,
      "https://crests.football-data.org/340.png"),
    TeamProfile(
      "Brentford FC",
      "https://www.fctables.com/teams/brentford-181700/",
      "Thomas Frank",
      ["Premier League"],
      402,
      "https://crests.football-data.org/402.png"),
    TeamProfile(
      "Bournemouth FC",
      "https://www.fctables.com/teams/bournemouth-179321/",
      "Andoni Iraola",
      ["Premier League"],
      1044,
      "https://crests.football-data.org/bournemouth.png"),
    TeamProfile(
      "Fulham FC",
      "https://www.fctables.com/teams/fulham-185904/",
      "Marco Silva",
      ["Premier League"],
      63,
      "https://crests.football-data.org/63.png"),
    TeamProfile(
      "Crystal Palace FC",
      "https://www.fctables.com/teams/crystal-palace-183166/",
      "Roy Hodgson",
      ["Premier League"],
      354,
      "https://crests.football-data.org/354.png")
  ]

  function Names(table: seq<TeamProfile>): seq<string> {
    seq(|table|, i requires 0 <= i < |table| => table[i].name)
  }

  /** Entry `k` is the first one of `table` named `name`. */
  ghost predicate IsFirstNamed(table: seq<TeamProfile>, name: string, k: int) {
    && 0 <= k < |table|
    && table[k].name == name
    && forall j :: 0 <= j < k ==> table[j].name != name
  }

  /** `table.find(info => name === info.name)`: the first entry with that
      exact name, or `None` (`undefined`) when there is none. */
  function FindByName(table: seq<TeamProfile>, name: string): (r: Option<TeamProfile>)
    ensures r.None? <==> forall k :: 0 <= k < |table| ==> table[k].name != name
    ensures forall k :: IsFirstNamed(table, name, k) ==> r == Some(table[k])
  {
    if |table| == 0 then None
    else if table[0].name == name then Some(table[0])
    else
      assert forall k :: IsFirstNamed(table, name, k) ==> IsFirstNamed(table[1..], name, k - 1);
      FindByName(table[1..], name)
  }

  /** In a table whose names are pairwise distinct, looking up an entry's
      name finds that very entry, so first-match lookup is unambiguous. */
  lemma FindByNameDistinct(table: seq<TeamProfile>, k: int)
    requires Distinct(Names(table)) && 0 <= k < |table|
    ensures FindByName(table, table[k].name) == Some(table[k])
  {
    assert IsFirstNamed(table, table[k].name, k) by {
      forall j | 0 <= j < k
        ensures table[j].name != table[k].name
      {
        assert Names(table)[j] != Names(table)[k];
      }
    }
  }

  /** No two entries of `basicTeamInfo` share a name. */
  lemma BasicTeamInfoNamesDistinct()
    ensures |BasicTeamInfo| == 20
    ensures Distinct(Names(BasicTeamInfo))
  {
  }
}
