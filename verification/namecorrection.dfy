/** The table that repairs team names the match-history page spells
    differently from the team-information table. */
module NameCorrection {
  import opened Sequences
  import opened TeamInfo

  /** Two parallel lists: a name equal to `wrong[i]` becomes `correct[i]`. */
  datatype AliasTable = AliasTable(wrong: seq<string>, correct: seq<string>)
  {
    /** The lists line up and no malformed name is listed twice. */
    predicate WellFormed() {
      |wrong| == |correct| && Distinct(wrong)
    }

    /** No corrected name is itself listed as malformed. */
    predicate Closed() {
      forall i :: 0 <= i < |correct| ==> correct[i] !in wrong
    }
  }

  /** `wrongName` and `correctName` of `scrapeData`. */
  const FixtureAliases: AliasTable := AliasTable(
    ["Tottenham FC", "Brighton FC", "Ipswich FC", "West Ham FC", "Leicester FC"],
    ["Tottenham Hotspur FC", "Brighton and Hove Albion FC", "Ipswich Town FC",
     "West Ham United FC", "Leicester City FC"])

  /** `if (wrongName.includes(name)) name = correctName[wrongName.findIndex(e => e === name)]`:
      a listed name is replaced by its counterpart at the position where it
      is first listed, any other name passes through. */
  function Correct(t: AliasTable, name: string): (r: string)
    requires |t.wrong| == |t.correct|
    ensures name !in t.wrong ==> r == name
    ensures name in t.wrong ==> r in t.correct
    ensures forall i :: 0 <= i < |t.wrong| && t.wrong[i] == name && name !in t.wrong[..i] ==> r == t.correct[i]
  {
    if name in t.wrong then t.correct[IndexOf(t.wrong, name).value] else name
  }

  /** In a well-formed table every malformed name maps to the counterpart at
      its own position. */
  lemma CorrectAtPosition(t: AliasTable, i: int)
    requires t.WellFormed() && 0 <= i < |t.wrong|
    ensures Correct(t, t.wrong[i]) == t.correct[i]
  {
    IndexOfDistinct(t.wrong, i);
  }

  /** Correcting a corrected name changes nothing when no corrected name is
      listed as malformed. */
  lemma CorrectIdempotent(t: AliasTable, name: string)
    requires |t.wrong| == |t.correct| && t.Closed()
    ensures Correct(t, Correct(t, name)) == Correct(t, name)
  {
    var r := Correct(t, name);
    if name in t.wrong {
      var i :| 0 <= i < |t.correct| && t.correct[i] == r;
      assert r !in t.wrong;
    }
  }

  /** The table of `scrapeData` is well formed and closed, and every name it
      corrects to is a name of the team-information table. */
  lemma FixtureAliasesSound()
    ensures FixtureAliases.WellFormed() && FixtureAliases.Closed()
    ensures forall i :: 0 <= i < |FixtureAliases.correct| ==> FixtureAliases.correct[i] in Names(BasicTeamInfo)
  {
    var names := Names(BasicTeamInfo);
    assert names[5] == FixtureAliases.correct[0];
    assert names[10] == FixtureAliases.correct[1];
    assert names[14] == FixtureAliases.correct[2];
    assert names[6] == FixtureAliases.correct[3];
    assert names[8] == FixtureAliases.correct[4];
  }

  /** A corrected fixture name always finds its profile. */
  lemma CorrectedNameHasProfile(name: string)
    requires name in FixtureAliases.wrong
    ensures Correct(FixtureAliases, name) in Names(BasicTeamInfo)
  {
    FixtureAliasesSound();
  }
}
