/** The standings path, `fetchAndMergeData`: read the league table rows,
    normalise them, and merge each with its entry of the team-information
    table. */
module Standings {
  import opened Results
  import opened Text
  import opened JsObject
  import opened TeamInfo
  import opened Sequences

  /** One `tr` of the league table body as the HTML parser hands it over:
      the untrimmed text of its team-name, rank and points cells. */
  datatype RawRow = RawRow(teamText: string, rankText: string, pointsText: string)

  /** An element of `tableRows`. */
  datatype StandingsRow = StandingsRow(team: string, rank: string, points: string)
  {
    /** The row as the JavaScript object literal it is pushed as. */
    function ToObject(): (o: Object)
      ensures o.Keys == RowKeys
    {
      map["team" := Str(team), "rank" := Str(rank), "points" := Str(points)]
    }
  }

  /** The own keys of every element of `tableRows`. */
  const RowKeys: set<string> := {"team", "rank", "points"}

  /** The body of the `.each` callback for one row: the trimmed cells,
      with the club suffix on the team name, or nothing when the trimmed team
      name is empty (header and filler rows). */
  function ReadRow(raw: RawRow): (r: Option<StandingsRow>)
    ensures r.Some? <==> !AllWhiteSpace(raw.teamText)
    ensures r.Some? ==> IsClubName(r.value.team)
  {
    var teamName := Trim(raw.teamText);
    if teamName != "" then
      var row := StandingsRow(teamName + ClubSuffix, Trim(raw.rankText), Trim(raw.pointsText));
      assert row.team[..|row.team| - |ClubSuffix|] == teamName;
      Some(row)
    else None
  }

  /** The callback applied to every row of the table body, in document
      order. */
  function ReadRows(rows: seq<RawRow>): seq<Option<StandingsRow>> {
    seq(|rows|, i requires 0 <= i < |rows| => ReadRow(rows[i]))
  }

  /** `tableRows` once the `.each` loop has run. It holds, in document
      order and one for one, the rows whose team cell is not blank: the k-th
      element comes from the k-th such row, with its three cells trimmed and
      the club suffix added to the team name. */
  function ExtractRows(rows: seq<RawRow>): (r: seq<StandingsRow>)
    ensures var idx := SomeIndices(ReadRows(rows));
      && |r| == |idx|
      && (forall k, l :: 0 <= k < l < |idx| ==> idx[k] < idx[l])
      && (forall i :: 0 <= i < |rows| && !AllWhiteSpace(rows[i].teamText) <==> i in idx)
      && forall k :: 0 <= k < |idx| ==>
           var raw := rows[idx[k]];
           r[k] == StandingsRow(Trim(raw.teamText) + ClubSuffix, Trim(raw.rankText), Trim(raw.pointsText))
  {
    CollectFollowsSomeIndices(ReadRows(rows));
    Collect(ReadRows(rows))
  }

  /** A table in which every row names a team loses no row and keeps the
      order. */
  lemma AllNamedRowsRecorded(rows: seq<RawRow>)
    requires forall i :: 0 <= i < |rows| ==> !AllWhiteSpace(rows[i].teamText)
    ensures |ExtractRows(rows)| == |rows|
    ensures forall i :: 0 <= i < |rows| ==> Some(ExtractRows(rows)[i]) == ReadRow(rows[i])
  {
    var cells := ReadRows(rows);
    assert forall i :: 0 <= i < |cells| ==> cells[i] == ReadRow(rows[i]);
    AllSomeCollected(cells);
  }

  /** `{ ...row, ...teamInfo }`: the row gains every field of its profile
      and keeps its own, as the two key sets are disjoint. */
  function MergeWithProfile(row: StandingsRow, info: TeamProfile): (r: Object)
    ensures r.Keys == RowKeys + ProfileKeys
    ensures forall k :: k in row.ToObject() ==> r[k] == row.ToObject()[k]
    ensures forall k :: k in info.ToObject() ==> r[k] == info.ToObject()[k]
  {
    Spread(row.ToObject(), info.ToObject())
  }

  /** The callback of `tableRows.map`: merge with the first profile of the
      same name, or keep the row as it is. */
  function MergeRow(row: StandingsRow, table: seq<TeamProfile>): (r: Object)
    ensures (forall k :: 0 <= k < |table| ==> table[k].name != row.team) ==> r == row.ToObject()
    ensures forall k :: IsFirstNamed(table, row.team, k) ==> r == MergeWithProfile(row, table[k])
    ensures RowKeys <= r.Keys && r["team"] == Str(row.team)
  {
    match FindByName(table, row.team)
    case Some(info) => MergeWithProfile(row, info)
    case None => row.ToObject()
  }

  /** `tableRows.map(...)`: one merged object per row, in the same order. */
  function MergeAll(rows: seq<StandingsRow>, table: seq<TeamProfile>): (r: seq<Object>)
    ensures |r| == |rows|
    ensures forall i :: 0 <= i < |rows| ==> r[i] == MergeRow(rows[i], table)
  {
    if |rows| == 0 then [] else [MergeRow(rows[0], table)] + MergeAll(rows[1..], table)
  }

  /** `fetchAndMergeData` once the page is fetched and parsed (`Ok`) or has
      failed (`Err`): any failure is swallowed into an empty result. */
  function FetchAndMergeData(page: Result<seq<RawRow>>, table: seq<TeamProfile>): (r: seq<Object>)
    ensures page.Err? ==> r == []
    ensures page.Ok? ==> |r| == |ExtractRows(page.value)|
  {
    match page
    case Err(_) => []
    case Ok(rows) => MergeAll(ExtractRows(rows), table)
  }

  /** The k-th element of `tableRows`, read off the k-th row with a
      non-blank team cell. */
  lemma RecordedRow(rows: seq<RawRow>, k: int)
    requires 0 <= k < |SomeIndices(ReadRows(rows))|
    ensures |ExtractRows(rows)| == |SomeIndices(ReadRows(rows))|
    ensures var raw := rows[SomeIndices(ReadRows(rows))[k]];
            ExtractRows(rows)[k] == StandingsRow(Trim(raw.teamText) + ClubSuffix, Trim(raw.rankText), Trim(raw.pointsText))
  {
  }

  /** The fields of one merged row: its own three, and every profile field
      of the first entry with its name. */
  lemma MergedFields(row: StandingsRow, table: seq<TeamProfile>)
    ensures var o := MergeRow(row, table);
            && o["team"] == Str(row.team) && o["rank"] == Str(row.rank) && o["points"] == Str(row.points)
            && forall j :: IsFirstNamed(table, row.team, j) ==>
                 o.Keys == RowKeys + ProfileKeys && forall key :: key in ProfileKeys ==> o[key] == table[j].ToObject()[key]
  {
    var o := MergeRow(row, table);
    assert o["rank"] == row.ToObject()["rank"];
    assert o["points"] == row.ToObject()["points"];
    forall j | IsFirstNamed(table, row.team, j)
      ensures o.Keys == RowKeys + ProfileKeys
      ensures forall key :: key in ProfileKeys ==> o[key] == table[j].ToObject()[key]
    {
      assert o == MergeWithProfile(row, table[j]);
    }
  }

  /** End to end: the k-th object returned comes from the k-th row with a
      non-blank team cell; it carries that row's trimmed team name with the
      club suffix and its trimmed rank and points, and, when the table has an
      entry of that name, every field of the first such entry. */
  lemma StandingsEndToEnd(rows: seq<RawRow>, table: seq<TeamProfile>, k: int)
    requires 0 <= k < |SomeIndices(ReadRows(rows))|
    ensures |FetchAndMergeData(Ok(rows), table)| == |SomeIndices(ReadRows(rows))|
    ensures var raw := rows[SomeIndices(ReadRows(rows))[k]];
            var o := FetchAndMergeData(Ok(rows), table)[k];
            && o["team"] == Str(Trim(raw.teamText) + ClubSuffix)
            && o["rank"] == Str(Trim(raw.rankText))
            && o["points"] == Str(Trim(raw.pointsText))
            && forall j :: IsFirstNamed(table, Trim(raw.teamText) + ClubSuffix, j) ==>
                 o.Keys == RowKeys + ProfileKeys && forall key :: key in ProfileKeys ==> o[key] == table[j].ToObject()[key]
  {
    RecordedRow(rows, k);
    var row := ExtractRows(rows)[k];
    MergedFields(row, table);
    assert FetchAndMergeData(Ok(rows), table)[k] == MergeRow(row, table);
  }

  /** A failed fetch cannot be told apart from a league table without
      rows. */
  lemma FailureLooksLikeEmptyTable(error: string, table: seq<TeamProfile>)
    ensures FetchAndMergeData(Err(error), table) == FetchAndMergeData(Ok([]), table) == []
  {
  }

  /** A concrete case of trimming and filtering: a row of white space and
      line breaks is dropped, and the padding around the cells of the next
      row is removed. */
  lemma PaddedRowsExample()
    ensures ExtractRows([RawRow(" \n\t", "", ""), RawRow("\t Arsenal ", " 3 ", "45\r\n")])
         == [StandingsRow("Arsenal FC", "3", "45")]
  {
    var rows := [RawRow(" \n\t", "", ""), RawRow("\t Arsenal ", " 3 ", "45\r\n")];
    BlankRowDropped();
    PaddedRowRead();
    var cells := ReadRows(rows);
    assert cells == [None, Some(StandingsRow("Arsenal FC", "3", "45"))];
    assert cells[..1] == [None];
    assert Collect(cells[..1]) == [];
  }

  lemma BlankRowDropped()
    ensures ReadRow(RawRow(" \n\t", "", "")) == None
  {
    assert AllWhiteSpace(" \n\t");
  }

  lemma PaddedRowRead()
    ensures ReadRow(RawRow("\t Arsenal ", " 3 ", "45\r\n")) == Some(StandingsRow("Arsenal FC", "3", "45"))
  {
    PaddedTeamTrimmed();
    PaddedRankTrimmed();
    PaddedPointsTrimmed();
    assert "Arsenal" + ClubSuffix == "Arsenal FC";
  }

  lemma PaddedTeamTrimmed()
    ensures Trim("\t Arsenal ") == "Arsenal"
  {
    var s := "\t Arsenal ";
    assert s[..2] == "\t " && s[9..] == " ";
    assert FramedBy(s, 2, "Arsenal");
    TrimUnique(s, 2, "Arsenal");
  }

  lemma PaddedRankTrimmed()
    ensures Trim(" 3 ") == "3"
  {
    var s := " 3 ";
    assert s[..1] == " " && s[2..] == " ";
    assert FramedBy(s, 1, "3");
    TrimUnique(s, 1, "3");
  }

  lemma PaddedPointsTrimmed()
    ensures Trim("45\r\n") == "45"
  {
    var s := "45\r\n";
    assert s[..0] == "" && s[2..] == "\r\n";
    assert FramedBy(s, 0, "45");
    TrimUnique(s, 0, "45");
  }

  /** A concrete case: a row for "Arsenal" with rank 3 and 45 points
      merges with the "Arsenal FC" profile. */
  lemma ArsenalExample()
    ensures FetchAndMergeData(Ok([RawRow("Arsenal", "3", "45")]), BasicTeamInfo) == [ArsenalMerged]
  {
    var row := StandingsRow("Arsenal FC", "3", "45");
    ArsenalRowRead();
    assert FetchAndMergeData(Ok([RawRow("Arsenal", "3", "45")]), BasicTeamInfo) == [MergeRow(row, BasicTeamInfo)];
    ArsenalProfileFound();
    ArsenalSpread();
  }

  /** The merged object for that row: its three cells and the six fields
      of the "Arsenal FC" entry at index.js:67-74. */
  const ArsenalMerged: Object := map[
    "team" := Str("Arsenal FC"), "rank" := Str("3"), "points" := Str("45"),
    "name" := Str("Arsenal FC"),
    "url" := Str("https://www.fctables.com/teams/arsenal-180231/"),
    "coach" := Str("Mikel Arteta"),
    "ongoingTournament" := StrList(["Premier League", "UEFA Champions League"]),
    "teamID" := Num(57),
    "crest" := Str("https://crests.football-data.org/57.png")]

  const ArsenalProfile: TeamProfile := TeamProfile(
    "Arsenal FC",
    "https://www.fctables.com/teams/arsenal-180231/",
    "Mikel Arteta",
    ["Premier League", "UEFA Champions League"],
    57,
    "https://crests.football-data.org/57.png")

  lemma ArsenalRowRead()
    ensures ExtractRows([RawRow("Arsenal", "3", "45")]) == [StandingsRow("Arsenal FC", "3", "45")]
  {
    var raw := RawRow("Arsenal", "3", "45");
    TrimmedIsFixed("Arsenal");
    TrimmedIsFixed("3");
    TrimmedIsFixed("45");
    assert "Arsenal" + ClubSuffix == "Arsenal FC";
    assert ReadRow(raw) == Some(StandingsRow("Arsenal FC", "3", "45"));
    AllNamedRowsRecorded([raw]);
  }

  lemma ArsenalProfileFound()
    ensures MergeRow(StandingsRow("Arsenal FC", "3", "45"), BasicTeamInfo)
         == MergeWithProfile(StandingsRow("Arsenal FC", "3", "45"), ArsenalProfile)
  {
    assert BasicTeamInfo[2] == ArsenalProfile;
    assert BasicTeamInfo[0].name != "Arsenal FC" && BasicTeamInfo[1].name != "Arsenal FC";
    assert IsFirstNamed(BasicTeamInfo, "Arsenal FC", 2);
  }

  lemma ArsenalSpread()
    ensures MergeWithProfile(StandingsRow("Arsenal FC", "3", "45"), ArsenalProfile) == ArsenalMerged
  {
  }
}
