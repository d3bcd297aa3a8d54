/** The arena page: when a prompt may be sent, when the ranking panel
    shows, when the next round is offered, and the handlers that drive the
    provider.  The page's own flags are the fields of a class; the React
    effects are methods the page runs when their inputs change. */
module BlindArena {
  import opened Types
  import Config
  import ArenaContext

  /** The characters `String.prototype.trim` removes: white space and line
      terminators as ECMAScript defines them. */
  predicate IsTrimmed(c: char)
  {
    var n := c as int;
    n == 0x09 || n == 0x0A || n == 0x0B || n == 0x0C || n == 0x0D || n == 0x20 ||
    n == 0xA0 || n == 0x1680 || (0x2000 <= n <= 0x200A) || n == 0x2028 || n == 0x2029 ||
    n == 0x202F || n == 0x205F || n == 0x3000 || n == 0xFEFF
  }

  /** `!prompt.trim()`: nothing is left once the ends are trimmed. */
  predicate IsBlank(s: string)
  {
    forall i :: 0 <= i < |s| ==> IsTrimmed(s[i])
  }

  /** `allResponsesLoaded`. */
  predicate AllResponsesLoaded(responses: seq<ModelResponse>)
  {
    |responses| > 0 && forall i :: 0 <= i < |responses| ==> !responses[i].isLoading
  }

  /** `currentRound`: the session's last round, if any. */
  function CurrentRound(session: Option<ArenaSession>): (r: Option<MatchRound>)
    ensures r.Some? <==> session.Some? && |session.value.rounds| > 0
    ensures r.Some? ==> r.value == session.value.rounds[|session.value.rounds| - 1]
  {
    if session.None? || |session.value.rounds| == 0 then None
    else Some(session.value.rounds[|session.value.rounds| - 1])
  }

  /** `isCurrentRoundRevealed`: false without a session or without rounds. */
  predicate IsCurrentRoundRevealed(session: Option<ArenaSession>)
  {
    CurrentRound(session).Some? && CurrentRound(session).value.revealed
  }

  /** `isMaxRounds`. */
  predicate IsMaxRounds(roundCount: nat)
  {
    roundCount >= Config.MaxRoundsPerSession
  }

  /** The prompt input's `disabled`. */
  predicate InputDisabled(isLoading: bool, showRanking: bool, isRevealed: bool)
  {
    isLoading || (showRanking && !isRevealed)
  }

  /** The send button's `disabled`. */
  predicate SubmitDisabled(prompt: string, isLoading: bool, showRanking: bool, isRevealed: bool)
  {
    IsBlank(prompt) || InputDisabled(isLoading, showRanking, isRevealed)
  }

  /** When the ranking panel renders. */
  predicate PanelVisible(showRanking: bool, responses: seq<ModelResponse>, isRevealed: bool)
  {
    showRanking && AllResponsesLoaded(responses) && !isRevealed
  }

  /** The answer area renders rather than the empty placeholder: there
      are answers, or they are on their way. */
  predicate AnswerAreaShown(s: ArenaContext.ArenaState)
  {
    |s.currentResponses| > 0 || s.isLoading
  }

  /** When the next-round button is offered: after a reveal, inside the
      answer area, below both caps. */
  predicate NextRoundOffered(isRevealed: bool, s: ArenaContext.ArenaState)
  {
    isRevealed && AnswerAreaShown(s) && !IsMaxRounds(ArenaContext.RoundCount(s)) && ArenaContext.NewRoundAllowed(s)
  }

  /** When the cap message shows in the button's place. */
  predicate CapMessageShown(isRevealed: bool, s: ArenaContext.ArenaState)
  {
    isRevealed && AnswerAreaShown(s) && !(!IsMaxRounds(ArenaContext.RoundCount(s)) && ArenaContext.NewRoundAllowed(s))
  }

  /** While the panel is up, neither the input nor the send button can be
      used: at most one unrevealed ranking is pending. */
  lemma PanelBlocksPrompt(prompt: string, isLoading: bool, showRanking: bool, responses: seq<ModelResponse>,
                          isRevealed: bool)
    requires PanelVisible(showRanking, responses, isRevealed)
    ensures InputDisabled(isLoading, showRanking, isRevealed)
    ensures SubmitDisabled(prompt, isLoading, showRanking, isRevealed)
  {
  }

  /** The next round is offered exactly after a reveal, with the answer
      area showing and fewer than ten rounds; both the page's cap and the
      provider's agree.  Otherwise, after a reveal in the answer area, the
      cap message shows instead; over the empty placeholder neither does. */
  lemma NextRoundOfferedExactly(isRevealed: bool, s: ArenaContext.ArenaState)
    ensures NextRoundOffered(isRevealed, s) <==>
              isRevealed && (|s.currentResponses| > 0 || s.isLoading) &&
              ArenaContext.RoundCount(s) < Config.MaxRoundsPerSession
    ensures CapMessageShown(isRevealed, s) <==>
              isRevealed && (|s.currentResponses| > 0 || s.isLoading) &&
              ArenaContext.RoundCount(s) >= Config.MaxRoundsPerSession
  {
  }

  /** Once every slot has settled, the responses are all loaded, provided
      a model was selected. */
  lemma {:induction false} SettledSlotsAreLoaded(selected: seq<AIModel>, shuffled: seq<AIModel>, createdAt: seq<int>,
                                                 outcomes: seq<ArenaContext.FetchOutcome>)
    requires |shuffled| == |selected| && multiset(shuffled) == multiset(selected)
    requires |selected| <= Config.MaxModelsPerRound
    requires |createdAt| == |shuffled| && |outcomes| == |shuffled|
    ensures AllResponsesLoaded(ArenaContext.SettledResponses(shuffled, createdAt, outcomes)) <==> |selected| > 0
  {
    ArenaContext.SettledResponsesMeaning(selected, shuffled, createdAt, outcomes);
  }

  /** Committing a round and then revealing: the session has one more
      round, it is the last, it carries the prompt, the answers and the
      rankings, and it is revealed. */
  lemma {:induction false} CommitThenReveal(s: ArenaContext.ArenaState, rankings: seq<RankingResult>, prompt: string,
                                            roundId: string, timestamp: int)
    requires s.session.Some?
    ensures var t := ArenaContext.Reduce(ArenaContext.CommitRound(s, rankings, prompt, roundId, timestamp),
                                         ArenaContext.RevealModels);
            ArenaContext.RoundCount(t) == ArenaContext.RoundCount(s) + 1 &&
            t.session.value.rounds[..ArenaContext.RoundCount(s)] == s.session.value.rounds &&
            CurrentRound(t.session) == Some(MatchRound(roundId, prompt, s.currentResponses, rankings, timestamp, true)) &&
            IsCurrentRoundRevealed(t.session)
  {
    ArenaContext.CommitRoundAppendsOne(s, rankings, prompt, roundId, timestamp);
    var c := ArenaContext.CommitRound(s, rankings, prompt, roundId, timestamp);
    var t := ArenaContext.Reduce(c, ArenaContext.RevealModels);
    assert t.session.value.rounds[..ArenaContext.RoundCount(s)] == c.session.value.rounds[..ArenaContext.RoundCount(s)];
  }

  class BlindArenaPage {
    var prompt: string
    var showRanking: bool
    var isRevealed: bool
    var currentPrompt: string
    const arena: ArenaContext.ArenaProvider

    constructor (arena: ArenaContext.ArenaProvider)
      ensures prompt == "" && !showRanking && !isRevealed && currentPrompt == ""
      ensures this.arena == arena
    {
      prompt := "";
      showRanking := false;
      isRevealed := false;
      currentPrompt := "";
      this.arena := arena;
    }

    /** The input's `onChange`. */
    method EditPrompt(text: string)
      modifies this
      ensures prompt == text
      ensures showRanking == old(showRanking) && isRevealed == old(isRevealed) && currentPrompt == old(currentPrompt)
    {
      prompt := text;
    }

    /** Whether `handleSubmitPrompt` goes past its guard. */
    predicate Sends()
      reads this, arena
    {
      !IsBlank(prompt) && !arena.state.isLoading
    }

    /** `handleSubmitPrompt`: ignored for a blank prompt or while loading;
        otherwise records the prompt, hides the panel, sends the prompt and
        empties the input. */
    method HandleSubmitPrompt(shuffled: seq<AIModel>, createdAt: seq<int>,
                              outcomes: seq<ArenaContext.FetchOutcome>, order: seq<nat>)
      requires Sends() ==>
                 |arena.state.selectedModels| <= Config.MaxModelsPerRound &&
                 |shuffled| == |arena.state.selectedModels| &&
                 multiset(shuffled) == multiset(arena.state.selectedModels) &&
                 |createdAt| == |shuffled| && |outcomes| == |shuffled| &&
                 ArenaContext.ArrivalOrder(order, |shuffled|)
      modifies this, arena
      ensures !old(Sends()) ==>
                prompt == old(prompt) && showRanking == old(showRanking) && isRevealed == old(isRevealed) &&
                currentPrompt == old(currentPrompt) && arena.state == old(arena.state)
      ensures old(Sends()) ==>
                currentPrompt == old(prompt) && prompt == "" && !showRanking && !isRevealed &&
                arena.state == old(arena.state).(
                  currentResponses := ArenaContext.SettledResponses(shuffled, createdAt, outcomes),
                  isLoading := false, error := None)
    {
      if IsBlank(prompt) || arena.state.isLoading {
        return;
      }
      currentPrompt := prompt;
      showRanking := false;
      isRevealed := false;
      arena.SubmitPrompt(prompt, shuffled, createdAt, outcomes, order);
      prompt := "";
    }

    /** The effect that opens the panel once every answer is in. */
    method ShowRankingEffect()
      modifies this
      ensures showRanking == (old(showRanking) || AllResponsesLoaded(arena.state.currentResponses))
      ensures prompt == old(prompt) && isRevealed == old(isRevealed) && currentPrompt == old(currentPrompt)
    {
      if AllResponsesLoaded(arena.state.currentResponses) && !showRanking && |arena.state.currentResponses| > 0 {
        showRanking := true;
      }
    }

    /** The effect that mirrors the last round's reveal flag. */
    method RevealedEffect()
      modifies this
      ensures isRevealed == IsCurrentRoundRevealed(arena.state.session)
      ensures prompt == old(prompt) && showRanking == old(showRanking) && currentPrompt == old(currentPrompt)
    {
      isRevealed := IsCurrentRoundRevealed(arena.state.session);
    }

    /** `handleRankingSubmit`: commits the round with the recorded prompt,
        reveals it, and marks the page revealed. */
    method HandleRankingSubmit(rankings: seq<RankingResult>, roundId: string, timestamp: int)
      modifies this, arena
      ensures arena.state == ArenaContext.Reduce(
                ArenaContext.CommitRound(old(arena.state), rankings, old(currentPrompt), roundId, timestamp),
                ArenaContext.RevealModels)
      ensures isRevealed
      ensures prompt == old(prompt) && showRanking == old(showRanking) && currentPrompt == old(currentPrompt)
    {
      arena.SubmitRanking(rankings, currentPrompt, roundId, timestamp);
      arena.RevealModels();
      isRevealed := true;
    }

    /** `handleNextRound`: clears the answers and the page's round flags. */
    method HandleNextRound()
      modifies this, arena
      ensures arena.state == ArenaContext.Reduce(old(arena.state), ArenaContext.NextRound)
      ensures !showRanking && !isRevealed && currentPrompt == "" && prompt == old(prompt)
    {
      arena.NextRound();
      showRanking := false;
      isRevealed := false;
      currentPrompt := "";
    }
  }
}
