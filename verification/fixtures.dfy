/** The match-history path, `scrapeData`: the last five results, the next
    fixture's two teams, and its kickoff date, read from one team page. */
module Fixtures {
  import opened Results
  import opened Text
  import opened NameCorrection
  import opened Sequences
  import TeamInfo

  /** One `div.game` of the last-matches box as the HTML parser hands it
      over: the untrimmed text of its home and away spans, and the texts of
      the `span` descendants of its score element in document order. */
  datatype GameEntry = GameEntry(homeText: string, awayText: string, scoreSpans: seq<string>)

  /** The `div.date` of one `div.status` of the head-to-head box: its
      `data-unixtime` attribute (`None` when absent) and its untrimmed
      text. */
  datatype StatusEntry = StatusEntry(unixTime: Option<string>, dateText: string)

  /** One `div.col-xs-5` of the game box: the texts of its anchors in
      document order. */
  datatype TeamSlot = TeamSlot(anchorTexts: seq<string>)

  /** What `scrapeData` reads off a fetched and parsed team page. */
  datatype MatchPage = MatchPage(games: seq<GameEntry>, statuses: seq<StatusEntry>, teamSlots: seq<TeamSlot>)

  /** The kickoff record: the formatted date and the text shown beside it. */
  datatype MatchDate = MatchDate(date: string, dateText: string)

  /** An element of the returned array: a finished match, or the trailing
      element that carries the next fixture. */
  datatype MatchItem =
    | Recent(homeTeam: string, awayTeam: string, homeScore: string, awayScore: string)
    | Upcoming(nextMatch: seq<string>, matchDate: Option<MatchDate>)

  /** How many finished matches are recorded. */
  const MaxRecentMatches: nat := 5
  /** The score spans read: the one between them is the separator glyph. */
  const HomeScoreSpan: nat := 0
  const AwayScoreSpan: nat := 2
  /** The only status entry that may hold the next kickoff. */
  const KickoffStatusIndex: nat := 7
  /** How many team slots name the next fixture's sides. */
  const NextMatchTeams: nat := 2
  /** The bound the array length is compared with before the trailing
      element is appended. */
  const ResultLimit: nat := 6

  /** `.find("span").eq(i).text().trim()`: selecting past the end yields an
      empty selection, whose text is "". */
  function SpanText(spans: seq<string>, i: nat): (r: string)
    ensures IsTrimmed(r)
    ensures i >= |spans| ==> r == ""
    ensures i < |spans| ==> (r == [] <==> AllWhiteSpace(spans[i]))
  {
    if i < |spans| then Trim(spans[i]) else ""
  }

  /** The record built for one game: four trimmed texts. */
  function ToRecent(g: GameEntry): (r: MatchItem)
    ensures r.Recent?
    ensures IsTrimmed(r.homeTeam) && IsTrimmed(r.awayTeam) && IsTrimmed(r.homeScore) && IsTrimmed(r.awayScore)
    ensures r.homeTeam == [] <==> AllWhiteSpace(g.homeText)
    ensures r.awayTeam == [] <==> AllWhiteSpace(g.awayText)
    ensures r.homeTeam == Trim(g.homeText) && r.awayTeam == Trim(g.awayText)
  {
    Recent(Trim(g.homeText), Trim(g.awayText),
           SpanText(g.scoreSpans, HomeScoreSpan), SpanText(g.scoreSpans, AwayScoreSpan))
  }

  /** The `.each` loop over the games: every game's record is built, and
      pushed while fewer than five are recorded. The games recorded are the
      first five of the page (or all, when there are fewer), in page order;
      later games are ignored. */
  function RecordGames(games: seq<GameEntry>): (r: seq<MatchItem>)
    ensures |r| == Min(|games|, MaxRecentMatches)
    ensures forall k :: 0 <= k < |r| ==> r[k] == ToRecent(games[k])
  {
    var all := seq(|games|, i requires 0 <= i < |games| => ToRecent(games[i]));
    PushWhileShortIsPrefix(all, MaxRecentMatches);
    PushWhileShort(all, MaxRecentMatches)
  }

  /** A recorded game reads its scores from spans 0 and 2 only, and a
      missing span reads as "": the separator span and any spans after the
      third never matter. */
  lemma ScoresIgnoreSeparator(g: GameEntry, separator: string, rest: seq<string>)
    ensures ToRecent(g).homeScore == if |g.scoreSpans| > 0 then Trim(g.scoreSpans[0]) else ""
    ensures ToRecent(g).awayScore == if |g.scoreSpans| > 2 then Trim(g.scoreSpans[2]) else ""
    ensures |g.scoreSpans| >= 3 ==>
      ToRecent(g) == ToRecent(g.(scoreSpans := [g.scoreSpans[0], separator, g.scoreSpans[2]] + rest))
  {
  }

  /** The kickoff record a status entry yields: only a present, non-empty
      `data-unixtime` counts (`if (unixTime)`); `format` stands for the
      locale-dependent formatting of the timestamp. */
  function KickoffOf(e: StatusEntry, format: string -> string): (r: Option<MatchDate>)
    ensures r.Some? <==> e.unixTime.Some? && e.unixTime.value != ""
    ensures r.Some? ==> r.value.date == format(e.unixTime.value) && IsTrimmed(r.value.dateText)
    ensures r.Some? ==> (r.value.dateText == [] <==> AllWhiteSpace(e.dateText))
    ensures r.Some? ==> r.value.dateText == Trim(e.dateText)
  {
    match e.unixTime
    case Some(t) => if t != "" then Some(MatchDate(format(t), Trim(e.dateText))) else None
    case None => None
  }

  /** The `.each` loop over the status entries: `matchDate` starts
      undefined and only the entry at index 7 may set it. With fewer than
      eight entries, or without a timestamp there, no kickoff is recorded. */
  function ScanStatuses(statuses: seq<StatusEntry>, format: string -> string): (r: Option<MatchDate>)
    ensures r == if |statuses| > KickoffStatusIndex then KickoffOf(statuses[KickoffStatusIndex], format) else None
  {
    var cells := seq(|statuses|, i requires 0 <= i < |statuses| => KickoffOf(statuses[i], format));
    AssignAtIndexReadsOneCell(cells, KickoffStatusIndex);
    AssignAtIndex(cells, KickoffStatusIndex)
  }

  /** `.find("a").last().text().trim() + " FC"`: a slot without anchors
      yields the bare suffix. */
  function SlotName(slot: TeamSlot): (r: string)
    ensures |r| >= |ClubSuffix| && r[|r| - |ClubSuffix|..] == ClubSuffix
    ensures IsTrimmed(r[..|r| - |ClubSuffix|])
    ensures |slot.anchorTexts| == 0 ==> r == ClubSuffix
    ensures |slot.anchorTexts| > 0 ==> r[..|r| - |ClubSuffix|] == Trim(slot.anchorTexts[|slot.anchorTexts| - 1])
  {
    var last := if |slot.anchorTexts| == 0 then "" else slot.anchorTexts[|slot.anchorTexts| - 1];
    Trim(last) + ClubSuffix
  }

  /** A slot's name after the alias table has repaired it: an unlisted
      name stays, a listed one becomes its counterpart, which the
      team-information table knows; repairing again changes nothing. */
  function FixtureTeam(slot: TeamSlot): (r: string)
    ensures SlotName(slot) !in FixtureAliases.wrong ==> r == SlotName(slot)
    ensures forall i :: 0 <= i < |FixtureAliases.wrong| && FixtureAliases.wrong[i] == SlotName(slot) ==>
      r == FixtureAliases.correct[i]
    ensures SlotName(slot) in FixtureAliases.wrong ==> r in TeamInfo.Names(TeamInfo.BasicTeamInfo)
    ensures Correct(FixtureAliases, r) == r
  {
    var name := SlotName(slot);
    FixtureAliasesSound();
    CorrectIdempotent(FixtureAliases, name);
    if name in FixtureAliases.wrong then
      CorrectedNameHasProfile(name);
      Correct(FixtureAliases, name)
    else name
  }

  /** The `.each` loop over the team slots: the slots at index 0 and 1
      are pushed onto `nextMatch`. So `nextMatch` names the first two slots
      (or fewer, when there are fewer), in order, each repaired by the alias
      table. */
  function CollectNextMatch(slots: seq<TeamSlot>): (r: seq<string>)
    ensures |r| == Min(|slots|, NextMatchTeams)
    ensures forall k :: 0 <= k < |r| ==> r[k] == FixtureTeam(slots[k])
  {
    var names := seq(|slots|, i requires 0 <= i < |slots| => FixtureTeam(slots[i]));
    PushBelowIndexIsPrefix(names, NextMatchTeams);
    PushBelowIndex(names, NextMatchTeams)
  }

  /** `if (matches.length < 6) matches.push({ nextMatch, matchDate })`. */
  function AppendUpcoming(matches: seq<MatchItem>, upcoming: MatchItem): (r: seq<MatchItem>)
    ensures |matches| < ResultLimit ==> |r| == |matches| + 1 && r[|matches|] == upcoming
    ensures |matches| >= ResultLimit ==> r == matches
    ensures forall k :: 0 <= k < |matches| ==> r[k] == matches[k]
  {
    if |matches| < ResultLimit then matches + [upcoming] else matches
  }

  /** What `scrapeData` returns for a fetched and parsed page: the recorded
      games followed by one trailing element that is always there, since at
      most five games are recorded. */
  function Assemble(page: MatchPage, format: string -> string): (r: seq<MatchItem>)
    ensures |r| == Min(|page.games|, MaxRecentMatches) + 1 && |r| <= ResultLimit
    ensures forall k :: 0 <= k < |r| - 1 ==> r[k] == ToRecent(page.games[k])
    ensures r[|r| - 1].Upcoming?
    ensures |r[|r| - 1].nextMatch| == Min(|page.teamSlots|, NextMatchTeams)
    ensures forall k :: 0 <= k < |r[|r| - 1].nextMatch| ==> r[|r| - 1].nextMatch[k] == FixtureTeam(page.teamSlots[k])
    ensures r[|r| - 1].matchDate
         == if |page.statuses| > KickoffStatusIndex then KickoffOf(page.statuses[KickoffStatusIndex], format) else None
  {
    var matches := RecordGames(page.games);
    AppendUpcoming(matches, Upcoming(CollectNextMatch(page.teamSlots), ScanStatuses(page.statuses, format)))
  }

  /** `scrapeData`: a failed fetch or parse is re-thrown, a parsed page is
      assembled. */
  function ScrapeData(fetched: Result<MatchPage>, format: string -> string): (r: Result<seq<MatchItem>>)
    ensures fetched.Err? ==> r == Err(fetched.error)
    ensures fetched.Ok? ==> r.Ok? && 1 <= |r.value| <= ResultLimit
  {
    match fetched
    case Err(e) => Err(e)
    case Ok(page) => Ok(Assemble(page, format))
  }

  /** Even a page with five or more finished games gets the trailing
      fixture element: the `< 6` guard never fails. */
  lemma UpcomingAlwaysAppended(page: MatchPage, format: string -> string)
    requires |page.games| >= MaxRecentMatches
    ensures |Assemble(page, format)| == ResultLimit
    ensures Assemble(page, format)[MaxRecentMatches].Upcoming?
  {
  }

  /** A failed fetch is reported as an error, never as a result: it cannot
      be mistaken for any page, not even one with nothing on it. */
  lemma FailureIsNotAResult(error: string, page: MatchPage, format: string -> string)
    ensures ScrapeData(Err(error), format).Err?
    ensures ScrapeData(Err(error), format) != ScrapeData(Ok(page), format)
  {
  }
}
