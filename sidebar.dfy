/** The round history sidebar: the list of committed rounds, each with its
    number, its prompt, and, once revealed, the name of its winner. */
module Sidebar {
  import opened Types
  import ArenaContext
  import RankingPanel

  /** Shown for a winner-less round. */
  const UnknownName: string := "未知"

  /** Shown for a round without a prompt. */
  const NoPromptLabel: string := "（無提示詞）"

  /** `rounds`: the session's rounds, or none. */
  function SidebarRounds(session: Option<ArenaSession>): (rounds: seq<MatchRound>)
    ensures session.None? ==> rounds == []
    ensures session.Some? ==> rounds == session.value.rounds
  {
    if session.None? then [] else session.value.rounds
  }

  /** The empty-history message replaces the list. */
  predicate ShowEmptyHistory(session: Option<ArenaSession>)
  {
    |SidebarRounds(session)| == 0
  }

  /** The message shows exactly when the round counter in the header reads
      zero. */
  lemma EmptyHistoryMatchesCounter(s: ArenaContext.ArenaState)
    ensures ShowEmptyHistory(s.session) <==> ArenaContext.RoundCount(s) == 0
  {
  }

  /** `selectedModels.find(m => m.id === modelId)`. */
  function FindModel(models: seq<AIModel>, id: string): (r: Option<AIModel>)
    ensures r.Some? ==> r.value in models && r.value.id == id
    ensures r.None? <==> forall i :: 0 <= i < |models| ==> models[i].id != id
    ensures forall i ::
              (0 <= i < |models| && models[i].id == id && forall j :: 0 <= j < i ==> models[j].id != id) ==>
              r == Some(models[i])
  {
    if |models| == 0 then None
    else if models[0].id == id then Some(models[0])
    else
      var rest := models[1..];
      assert forall i :: 1 <= i < |models| ==> models[i] == rest[i - 1];
      FindModel(rest, id)
  }

  /** `getModelName`: the found model's name, or the id when no model has
      it or the name is empty. */
  function GetModelName(models: seq<AIModel>, id: string): string
  {
    var found := FindModel(models, id);
    if found.Some? && found.value.name != "" then found.value.name else id
  }

  /** With distinct ids, the name shown for a selected model is its own
      name, if it has one; an id no model has is shown as itself. */
  lemma {:induction false} GetModelNameMeaning(models: seq<AIModel>, id: string)
    requires DistinctIds(models)
    ensures forall k :: 0 <= k < |models| && models[k].id == id && models[k].name != "" ==>
              GetModelName(models, id) == models[k].name
    ensures (forall k :: 0 <= k < |models| ==> models[k].id != id) ==> GetModelName(models, id) == id
  {
    var found := FindModel(models, id);
    if found.Some? {
      var j :| 0 <= j < |models| && models[j] == found.value;
      forall k | 0 <= k < |models| && models[k].id == id ensures models[k] == found.value {
        assert k == j;
      }
    }
  }

  /** `round.rankings.find(r => r.rank === 1)`. */
  function RoundWinner(round: MatchRound): (w: Option<RankingResult>)
    ensures w.Some? ==> w.value in round.rankings && w.value.rank == 1
    ensures w.None? <==> forall i :: 0 <= i < |round.rankings| ==> round.rankings[i].rank != 1
    ensures forall i ::
              (0 <= i < |round.rankings| && round.rankings[i].rank == 1 && forall j :: 0 <= j < i ==> round.rankings[j].rank != 1) ==>
              w == Some(round.rankings[i])
  {
    FirstRankedOne(round.rankings)
  }

  function FirstRankedOne(rs: seq<RankingResult>): (w: Option<RankingResult>)
    ensures w.Some? ==> w.value in rs && w.value.rank == 1
    ensures w.None? <==> forall i :: 0 <= i < |rs| ==> rs[i].rank != 1
    ensures forall i ::
              (0 <= i < |rs| && rs[i].rank == 1 && forall j :: 0 <= j < i ==> rs[j].rank != 1) ==>
              w == Some(rs[i])
  {
    if |rs| == 0 then None
    else if rs[0].rank == 1 then Some(rs[0])
    else
      var rest := rs[1..];
      assert forall i :: 1 <= i < |rs| ==> rs[i] == rest[i - 1];
      FirstRankedOne(rest)
  }

  /** `winnerName`. */
  function WinnerName(models: seq<AIModel>, round: MatchRound): (name: string)
    ensures RoundWinner(round).None? ==> name == UnknownName
  {
    var w := RoundWinner(round);
    if w.Some? then GetModelName(models, w.value.modelId) else UnknownName
  }

  /** A round ranked by the ranking panel has exactly one winner: the
      single entry ranked first, so the sidebar never shows the unknown
      placeholder for it. */
  lemma {:induction false} CompleteRankingHasWinner(round: MatchRound)
    requires |round.rankings| > 0 && RankingPanel.RanksArePermutation(round.rankings)
    ensures RoundWinner(round).Some?
    ensures forall i :: 0 <= i < |round.rankings| && round.rankings[i].rank == 1 ==>
              RoundWinner(round) == Some(round.rankings[i])
  {
    RankingPanel.PermutationUsesEveryRank(round.rankings);
    assert 1 in RankingPanel.RankRange(|round.rankings|);
    var j :| 0 <= j < |round.rankings| && round.rankings[j].rank == 1;
    var w := RoundWinner(round).value;
    var k :| 0 <= k < |round.rankings| && round.rankings[k] == w;
    assert round.rankings[k].rank == 1;
  }

  /** The prompt line: the prompt, or the placeholder when it is empty. */
  function PromptLabel(prompt: string): (line: string)
    ensures prompt != "" ==> line == prompt
    ensures line != ""
  {
    if prompt == "" then NoPromptLabel else prompt
  }

  /** The champion line appears only on revealed rounds. */
  predicate ChampionShown(round: MatchRound)
  {
    round.revealed
  }

  /** The 1-based numbers of the listed rounds. */
  function RoundNumbers(session: Option<ArenaSession>): (ns: seq<nat>)
    ensures |ns| == |SidebarRounds(session)|
  {
    seq(|SidebarRounds(session)|, i requires 0 <= i < |SidebarRounds(session)| => i + 1)
  }

  /** The numbers run from 1 without gaps, so the last one is the round
      counter in the header. */
  lemma RoundNumbersCount(s: ArenaContext.ArenaState)
    ensures forall i :: 0 <= i < |RoundNumbers(s.session)| ==> RoundNumbers(s.session)[i] == i + 1
    ensures |RoundNumbers(s.session)| > 0 ==>
              RoundNumbers(s.session)[|RoundNumbers(s.session)| - 1] == ArenaContext.RoundCount(s)
  {
  }

  /** After a ranking is submitted and revealed, the new last entry of the
      list shows its champion, named after the model ranked first. */
  lemma {:induction false} SubmittedRoundShowsChampion(s: ArenaContext.ArenaState, rankings: seq<RankingResult>,
                                                       prompt: string, roundId: string, timestamp: int)
    requires s.session.Some?
    requires |rankings| > 0 && RankingPanel.RanksArePermutation(rankings)
    ensures var t := ArenaContext.Reduce(ArenaContext.CommitRound(s, rankings, prompt, roundId, timestamp),
                                         ArenaContext.RevealModels);
            var rounds := SidebarRounds(t.session);
            |rounds| > 0 && ChampionShown(rounds[|rounds| - 1]) &&
            rounds[|rounds| - 1].prompt == prompt &&
            forall i :: 0 <= i < |rankings| && rankings[i].rank == 1 ==>
              WinnerName(t.selectedModels, rounds[|rounds| - 1]) == GetModelName(t.selectedModels, rankings[i].modelId)
  {
    var t := ArenaContext.Reduce(ArenaContext.CommitRound(s, rankings, prompt, roundId, timestamp),
                                 ArenaContext.RevealModels);
    ArenaContext.CommitRoundAppendsOne(s, rankings, prompt, roundId, timestamp);
    var rounds := SidebarRounds(t.session);
    var last := rounds[|rounds| - 1];
    assert last == MatchRound(roundId, prompt, s.currentResponses, rankings, timestamp, true);
    CompleteRankingHasWinner(last);
  }
}
