/** The session/round state machine: the arena state, the closed set of
    actions, the pure reducer, and the provider whose helpers dispatch
    sequences of actions.  Values the source draws from `uuidv4()` and
    `Date.now()` travel inside the actions or are method parameters. */
module ArenaContext {
  import opened Types
  import Config
  import Storage
  import Seqs

  datatype Phase = Landing | Selection | Arena | Analytics

  datatype ArenaState = ArenaState(
    currentPhase: Phase,
    selectedModels: seq<AIModel>,
    session: Option<ArenaSession>,
    currentResponses: seq<ModelResponse>,
    isLoading: bool,
    error: Option<string>)

  /** A `Partial<ModelResponse>`: the fields present override. */
  datatype ResponsePatch = ResponsePatch(
    modelId: Option<string>,
    blindName: Option<string>,
    response: Option<string>,
    timestamp: Option<int>,
    isLoading: Option<bool>)

  datatype ArenaAction =
    | SetPhase(phase: Phase)
    | SetSelectedModels(models: seq<AIModel>)
    | StartSession(models: seq<AIModel>, sessionId: string, startTime: int)
    | SetLoading(loading: bool)
    | SetResponses(responses: seq<ModelResponse>)
    | UpdateResponse(index: nat, patch: ResponsePatch)
    | SubmitRanking(rankings: seq<RankingResult>, roundId: string, timestamp: int)
    | RevealModels
    | NextRound
    | EndSession(endTime: int)
    | Reset
    | SetError(message: Option<string>)
    | LoadSession(loaded: ArenaSession)

  const InitialState: ArenaState := ArenaState(Landing, [], None, [], false, None)

  /** `{ ...r, ...p }`. */
  function Merge(r: ModelResponse, p: ResponsePatch): ModelResponse
  {
    ModelResponse(
      if p.modelId.Some? then p.modelId.value else r.modelId,
      if p.blindName.Some? then p.blindName.value else r.blindName,
      if p.response.Some? then p.response.value else r.response,
      if p.timestamp.Some? then p.timestamp.value else r.timestamp,
      if p.isLoading.Some? then p.isLoading.value else r.isLoading)
  }

  /** Every caller updates a response slot that exists: the indices come
      from the same list that filled `currentResponses`. */
  predicate Applicable(s: ArenaState, a: ArenaAction)
  {
    a.UpdateResponse? ==> a.index < |s.currentResponses|
  }

  /** The rounds after marking the last one revealed. */
  function RevealLast(rounds: seq<MatchRound>): seq<MatchRound>
    requires |rounds| > 0
  {
    rounds[|rounds| - 1 := rounds[|rounds| - 1].(revealed := true)]
  }

  /** `arenaReducer`: each action returns a new state built from the old
      one; what each action does is stated by the lemmas below. */
  function Reduce(s: ArenaState, a: ArenaAction): ArenaState
    requires Applicable(s, a)
  {
    match a
    case SetPhase(phase) => s.(currentPhase := phase)
    case SetSelectedModels(models) => s.(selectedModels := models)
    case StartSession(models, sessionId, startTime) =>
      var newSession := ArenaSession(sessionId, models, [], startTime, None, false);
      s.(session := Some(newSession), selectedModels := models, currentPhase := Arena, currentResponses := [])
    case SetLoading(loading) => s.(isLoading := loading)
    case SetResponses(responses) => s.(currentResponses := responses)
    case UpdateResponse(index, patch) =>
      s.(currentResponses := s.currentResponses[index := Merge(s.currentResponses[index], patch)])
    case SubmitRanking(rankings, roundId, timestamp) =>
      if s.session.None? then s
      else
        // the source computes the prompt as `cond ? '' : ''`: always empty
        var newRound := MatchRound(roundId, "", s.currentResponses, rankings, timestamp, false);
        s.(session := Some(s.session.value.(rounds := s.session.value.rounds + [newRound])))
    case RevealModels =>
      if s.session.None? || |s.session.value.rounds| == 0 then s
      else s.(session := Some(s.session.value.(rounds := RevealLast(s.session.value.rounds))))
    case NextRound => s.(currentResponses := [], isLoading := false)
    case EndSession(endTime) =>
      if s.session.None? then s
      else s.(session := Some(s.session.value.(endTime := Some(endTime), completed := true)),
              currentPhase := Analytics)
    case Reset => InitialState
    case SetError(message) => s.(error := message)
    case LoadSession(loaded) =>
      s.(session := Some(loaded), selectedModels := loaded.selectedModels,
         currentPhase := if loaded.completed then Analytics else Arena)
  }

  /** START_SESSION: a fresh, empty, open session over the payload, on the
      arena page, with no answers. */
  lemma StartSessionOpens(s: ArenaState, models: seq<AIModel>, sessionId: string, startTime: int)
    ensures var t := Reduce(s, StartSession(models, sessionId, startTime));
            t.session == Some(ArenaSession(sessionId, models, [], startTime, None, false)) &&
            t.selectedModels == models && t.currentPhase == Arena && t.currentResponses == [] &&
            t.isLoading == s.isLoading && t.error == s.error
  {
  }

  /** UPDATE_RESPONSE: only the addressed slot changes, by merging the
      patch; the list keeps its length. */
  lemma UpdateTouchesOneSlot(s: ArenaState, index: nat, patch: ResponsePatch)
    requires index < |s.currentResponses|
    ensures var t := Reduce(s, UpdateResponse(index, patch));
            t == s.(currentResponses := t.currentResponses) &&
            |t.currentResponses| == |s.currentResponses| &&
            t.currentResponses[index] == Merge(s.currentResponses[index], patch) &&
            forall i :: 0 <= i < |s.currentResponses| && i != index ==>
              t.currentResponses[i] == s.currentResponses[i]
  {
  }

  /** SUBMIT_RANKING: a no-op without a session; otherwise exactly one
      unrevealed round, with an empty prompt and the current answers, is
      appended and nothing else changes. */
  lemma SubmitAppendsRound(s: ArenaState, rankings: seq<RankingResult>, roundId: string, timestamp: int)
    ensures var t := Reduce(s, SubmitRanking(rankings, roundId, timestamp));
            (s.session.None? ==> t == s) &&
            (s.session.Some? ==>
              t == s.(session := t.session) && t.session.Some? &&
              t.session.value == s.session.value.(rounds := t.session.value.rounds) &&
              t.session.value.rounds ==
                s.session.value.rounds + [MatchRound(roundId, "", s.currentResponses, rankings, timestamp, false)])
  {
  }

  /** REVEAL_MODELS: a no-op without a session or without rounds;
      otherwise only the last round's flag is set. */
  lemma RevealMarksLast(s: ArenaState)
    ensures var t := Reduce(s, RevealModels);
            ((s.session.None? || |s.session.value.rounds| == 0) ==> t == s) &&
            (s.session.Some? && |s.session.value.rounds| > 0 ==>
              var before := s.session.value.rounds;
              t == s.(session := t.session) && t.session.Some? &&
              t.session.value == s.session.value.(rounds := t.session.value.rounds) &&
              |t.session.value.rounds| == |before| &&
              t.session.value.rounds[|before| - 1] == before[|before| - 1].(revealed := true) &&
              forall i :: 0 <= i < |before| - 1 ==> t.session.value.rounds[i] == before[i])
  {
  }

  /** NEXT_ROUND clears the answers and the loading flag and keeps the
      session; RESET returns exactly the initial state. */
  lemma NextRoundAndReset(s: ArenaState)
    ensures Reduce(s, NextRound) == s.(currentResponses := [], isLoading := false)
    ensures Reduce(s, Reset) == InitialState
  {
  }

  /** END_SESSION completes and stamps the session, keeps its rounds, and
      moves to the analytics page; a no-op without a session. */
  lemma EndSessionCompletes(s: ArenaState, endTime: int)
    ensures var t := Reduce(s, EndSession(endTime));
            (s.session.None? ==> t == s) &&
            (s.session.Some? ==>
              t == s.(session := t.session, currentPhase := Analytics) &&
              t.session == Some(s.session.value.(endTime := Some(endTime), completed := true)) &&
              t.session.value.rounds == s.session.value.rounds)
  {
  }

  /** LOAD_SESSION installs the session and its models, and goes to the
      analytics page exactly when the session is completed. */
  lemma LoadSessionPicksPage(s: ArenaState, loaded: ArenaSession)
    ensures var t := Reduce(s, LoadSession(loaded));
            t.session == Some(loaded) && t.selectedModels == loaded.selectedModels &&
            (t.currentPhase == Analytics <==> loaded.completed) &&
            (t.currentPhase == Arena <==> !loaded.completed) &&
            t.currentResponses == s.currentResponses && t.isLoading == s.isLoading && t.error == s.error
  {
  }

  /** The setters change their own field and nothing else. */
  lemma SettersTouchOwnField(s: ArenaState, a: ArenaAction)
    requires a.SetPhase? || a.SetSelectedModels? || a.SetLoading? || a.SetResponses? || a.SetError?
    ensures a.SetPhase? ==> Reduce(s, a) == s.(currentPhase := a.phase)
    ensures a.SetSelectedModels? ==> Reduce(s, a) == s.(selectedModels := a.models)
    ensures a.SetLoading? ==> Reduce(s, a) == s.(isLoading := a.loading)
    ensures a.SetResponses? ==> Reduce(s, a) == s.(currentResponses := a.responses)
    ensures a.SetError? ==> Reduce(s, a) == s.(error := a.message)
  {
  }

  /** `getRoundCount`: zero without a session. */
  function RoundCount(s: ArenaState): nat
  {
    if s.session.None? then 0 else |s.session.value.rounds|
  }

  /** `canStartNewRound`: always without a session, else below the cap. */
  predicate NewRoundAllowed(s: ArenaState)
  {
    s.session.None? || |s.session.value.rounds| < Config.MaxRoundsPerSession
  }

  /** The round counter reads zero exactly when no round has been played,
      and a new round may start exactly while the counter is below the
      cap. */
  lemma RoundCountAndCap(s: ArenaState)
    ensures RoundCount(s) == 0 <==> s.session.None? || s.session.value.rounds == []
    ensures NewRoundAllowed(s) <==> RoundCount(s) < Config.MaxRoundsPerSession
  {
  }

  /** What the `submitRanking` helper leaves in the state: the current
      session with one more, unrevealed round that carries the prompt,
      loaded back through LOAD_SESSION. */
  function CommitRound(s: ArenaState, rankings: seq<RankingResult>, prompt: string,
                       roundId: string, timestamp: int): ArenaState
  {
    if s.session.None? then s
    else
      var newRound := MatchRound(roundId, prompt, s.currentResponses, rankings, timestamp, false);
      Reduce(s, LoadSession(s.session.value.(rounds := s.session.value.rounds + [newRound])))
  }

  /** The helper appends exactly one round, carrying the given prompt, and
      keeps every earlier round and the rest of the session; its page is
      the arena unless the session was already completed. */
  lemma {:induction false} CommitRoundAppendsOne(s: ArenaState, rankings: seq<RankingResult>, prompt: string,
                                                 roundId: string, timestamp: int)
    requires s.session.Some?
    ensures var t := CommitRound(s, rankings, prompt, roundId, timestamp);
            t.session.Some? &&
            RoundCount(t) == RoundCount(s) + 1 &&
            t.session.value.rounds[..RoundCount(s)] == s.session.value.rounds &&
            t.session.value.rounds[RoundCount(s)] ==
              MatchRound(roundId, prompt, s.currentResponses, rankings, timestamp, false) &&
            t.session.value.(rounds := s.session.value.rounds) == s.session.value &&
            t.currentResponses == s.currentResponses &&
            t.selectedModels == s.session.value.selectedModels &&
            t.isLoading == s.isLoading && t.error == s.error &&
            t.currentPhase == (if s.session.value.completed then Analytics else Arena)
  {
    var t := CommitRound(s, rankings, prompt, roundId, timestamp);
    assert t.session.value.rounds[..RoundCount(s)] == s.session.value.rounds;
  }

  /** Updates at distinct slots commute: the order in which answers arrive
      does not matter. */
  lemma UpdatesCommute(s: ArenaState, i: nat, p: ResponsePatch, j: nat, q: ResponsePatch)
    requires i < |s.currentResponses| && j < |s.currentResponses| && i != j
    ensures Reduce(Reduce(s, UpdateResponse(i, p)), UpdateResponse(j, q)) ==
            Reduce(Reduce(s, UpdateResponse(j, q)), UpdateResponse(i, p))
  {
    var a := Reduce(Reduce(s, UpdateResponse(i, p)), UpdateResponse(j, q));
    var b := Reduce(Reduce(s, UpdateResponse(j, q)), UpdateResponse(i, p));
    assert a.currentResponses == b.currentResponses;
  }

  /** Revealing twice is revealing once. */
  lemma RevealIdempotent(s: ArenaState)
    ensures Reduce(Reduce(s, RevealModels), RevealModels) == Reduce(s, RevealModels)
  {
    if s.session.Some? && |s.session.value.rounds| > 0 {
      var once := Reduce(s, RevealModels).session.value.rounds;
      assert RevealLast(once) == once;
    }
  }

  // ---------------------------------------------------------------------
  // Runs of several steps

  /** One state change: a reducer action, or the `submitRanking` helper. */
  datatype Step =
    | Act(action: ArenaAction)
    | Commit(rankings: seq<RankingResult>, prompt: string, roundId: string, timestamp: int)

  predicate StepApplicable(s: ArenaState, st: Step)
  {
    st.Act? ==> Applicable(s, st.action)
  }

  function Apply(s: ArenaState, st: Step): ArenaState
    requires StepApplicable(s, st)
  {
    match st
    case Act(a) => Reduce(s, a)
    case Commit(rankings, prompt, roundId, timestamp) => CommitRound(s, rankings, prompt, roundId, timestamp)
  }

  predicate RunApplicable(s: ArenaState, steps: seq<Step>)
    decreases |steps|
  {
    |steps| == 0 || (StepApplicable(s, steps[0]) && RunApplicable(Apply(s, steps[0]), steps[1..]))
  }

  function Run(s: ArenaState, steps: seq<Step>): ArenaState
    requires RunApplicable(s, steps)
    decreases |steps|
  {
    if |steps| == 0 then s else Run(Apply(s, steps[0]), steps[1..])
  }

  /** Steps that stay within one session: everything except starting,
      resetting or loading a session. */
  predicate KeepsSession(st: Step)
  {
    st.Act? ==> !(st.action.StartSession? || st.action.Reset? || st.action.LoadSession?)
  }

  /** A later version of a round: the same round, possibly revealed since. */
  predicate Evolves(r: MatchRound, r': MatchRound)
  {
    r'.id == r.id && r'.prompt == r.prompt && r'.responses == r.responses &&
    r'.rankings == r.rankings && r'.timestamp == r.timestamp &&
    (r.revealed ==> r'.revealed)
  }

  /** The round history only grows, earlier rounds keep their rankings and
      a revealed round stays revealed. */
  predicate HistoryExtends(before: seq<MatchRound>, after: seq<MatchRound>)
  {
    |before| <= |after| && forall i :: 0 <= i < |before| ==> Evolves(before[i], after[i])
  }

  lemma {:induction false} StepExtendsHistory(s: ArenaState, st: Step)
    requires s.session.Some? && StepApplicable(s, st) && KeepsSession(st)
    ensures Apply(s, st).session.Some?
    ensures HistoryExtends(s.session.value.rounds, Apply(s, st).session.value.rounds)
  {
    if st.Commit? {
      CommitRoundAppendsOne(s, st.rankings, st.prompt, st.roundId, st.timestamp);
      var after := Apply(s, st).session.value.rounds;
      forall i | 0 <= i < |s.session.value.rounds|
        ensures Evolves(s.session.value.rounds[i], after[i])
      {
        assert after[i] == after[..RoundCount(s)][i];
      }
    }
  }

  /** Within one session, no sequence of steps removes a round, re-ranks
      it, or hides a revealed one. */
  lemma {:induction false} RunExtendsHistory(s: ArenaState, steps: seq<Step>)
    requires s.session.Some? && RunApplicable(s, steps)
    requires forall k :: 0 <= k < |steps| ==> KeepsSession(steps[k])
    ensures Run(s, steps).session.Some?
    ensures HistoryExtends(s.session.value.rounds, Run(s, steps).session.value.rounds)
    decreases |steps|
  {
    if |steps| > 0 {
      var next := Apply(s, steps[0]);
      StepExtendsHistory(s, steps[0]);
      assert forall k :: 0 <= k < |steps[1..]| ==> KeepsSession(steps[1..][k]) by {
        forall k | 0 <= k < |steps[1..]| ensures KeepsSession(steps[1..][k]) {
          assert steps[1..][k] == steps[k + 1];
        }
      }
      RunExtendsHistory(next, steps[1..]);
    }
  }

  /** Once the round cap is reached, no step within the session allows a
      new round again. */
  lemma {:induction false} CapIsPermanent(s: ArenaState, steps: seq<Step>)
    requires RunApplicable(s, steps) && !NewRoundAllowed(s)
    requires forall k :: 0 <= k < |steps| ==> KeepsSession(steps[k])
    ensures !NewRoundAllowed(Run(s, steps))
    ensures RoundCount(Run(s, steps)) >= RoundCount(s)
  {
    RunExtendsHistory(s, steps);
  }

  // ---------------------------------------------------------------------
  // Blind assignment and answer collection (`submitPrompt`)

  /** How one answer request ends. */
  datatype FetchOutcome =
    | Resolved(text: string, at: int)
    | Rejected(reason: string)

  const ErrorPrefix: string := "錯誤：無法獲取回應 - "

  /** The initial slots: slot i gets the i-th shuffled model and the i-th
      blind label, empty text, and is loading. */
  function InitialResponses(shuffled: seq<AIModel>, createdAt: seq<int>): (rs: seq<ModelResponse>)
    requires |shuffled| <= |Config.BlindNames| && |createdAt| == |shuffled|
    ensures |rs| == |shuffled|
    ensures forall i :: 0 <= i < |rs| ==>
              rs[i] == ModelResponse(shuffled[i].id, Config.BlindNames[i], "", createdAt[i], true)
  {
    seq(|shuffled|, i requires 0 <= i < |shuffled| =>
      ModelResponse(shuffled[i].id, Config.BlindNames[i], "", createdAt[i], true))
  }

  /** The patch an answer's outcome dispatches. */
  function PatchFor(o: FetchOutcome): ResponsePatch
  {
    match o
    case Resolved(text, at) => ResponsePatch(None, None, Some(text), Some(at), Some(false))
    case Rejected(reason) => ResponsePatch(None, None, Some(ErrorPrefix + reason), None, Some(false))
  }

  /** The slots once every answer has settled. */
  function SettledResponses(shuffled: seq<AIModel>, createdAt: seq<int>, outcomes: seq<FetchOutcome>): seq<ModelResponse>
    requires |shuffled| <= |Config.BlindNames| && |createdAt| == |shuffled| && |outcomes| == |shuffled|
  {
    var initial := InitialResponses(shuffled, createdAt);
    seq(|shuffled|, i requires 0 <= i < |shuffled| => Merge(initial[i], PatchFor(outcomes[i])))
  }

  /** After collection every slot has settled, keeps its model and blind
      label, and holds the answer or the error text; the slots' models are
      the selected models, each once. */
  lemma SettledResponsesMeaning(selected: seq<AIModel>, shuffled: seq<AIModel>, createdAt: seq<int>,
                                outcomes: seq<FetchOutcome>)
    requires |shuffled| == |selected| && multiset(shuffled) == multiset(selected)
    requires |selected| <= Config.MaxModelsPerRound
    requires |createdAt| == |shuffled| && |outcomes| == |shuffled|
    ensures var rs := SettledResponses(shuffled, createdAt, outcomes);
            |rs| == |selected| &&
            multiset(Seqs.Map((r: ModelResponse) => r.modelId, rs)) == multiset(Ids(selected)) &&
            forall i :: 0 <= i < |rs| ==>
              !rs[i].isLoading && rs[i].modelId == shuffled[i].id &&
              rs[i].blindName == Config.BlindNames[i] &&
              (outcomes[i].Resolved? ==> rs[i].response == outcomes[i].text && rs[i].timestamp == outcomes[i].at) &&
              (outcomes[i].Rejected? ==> rs[i].response == ErrorPrefix + outcomes[i].reason &&
                                         rs[i].timestamp == createdAt[i])
  {
    var rs := SettledResponses(shuffled, createdAt, outcomes);
    Seqs.MapPermutation((m: AIModel) => m.id, shuffled, selected);
    assert Seqs.Map((r: ModelResponse) => r.modelId, rs) == Ids(shuffled);
  }

  /** `order` lists every slot index once: the order answers arrive in. */
  predicate ArrivalOrder(order: seq<nat>, n: nat)
  {
    |order| == n && (forall k :: 0 <= k < |order| ==> order[k] < n) && (forall i :: 0 <= i < n ==> i in order)
  }

  // ---------------------------------------------------------------------
  // The provider

  class ArenaProvider {
    var state: ArenaState
    const store: Storage.LocalStore

    constructor (store: Storage.LocalStore)
      ensures state == InitialState && this.store == store
    {
      state := InitialState;
      this.store := store;
    }

    /** `dispatch`: the reducer applied to the current state. */
    method Dispatch(a: ArenaAction)
      requires Applicable(state, a)
      modifies this
      ensures state == Reduce(old(state), a)
    {
      state := Reduce(state, a);
    }

    /** `startSession`: forgets the stored session, then starts afresh. */
    method StartSession(models: seq<AIModel>, sessionId: string, startTime: int)
      modifies this, store
      ensures store.items == old(store.items) - {Config.CurrentSessionKey}
      ensures state == Reduce(old(state), ArenaAction.StartSession(models, sessionId, startTime))
    {
      store.ClearCurrentSession();
      Dispatch(ArenaAction.StartSession(models, sessionId, startTime));
    }

    /** `submitPrompt`: assigns the shuffled models to the blind slots,
        then records each answer as it arrives, in the given order.  The
        result does not depend on that order. */
    method SubmitPrompt(prompt: string, shuffled: seq<AIModel>, createdAt: seq<int>,
                        outcomes: seq<FetchOutcome>, order: seq<nat>)
      requires |state.selectedModels| <= Config.MaxModelsPerRound
      requires |shuffled| == |state.selectedModels| && multiset(shuffled) == multiset(state.selectedModels)
      requires |createdAt| == |shuffled| && |outcomes| == |shuffled|
      requires ArrivalOrder(order, |shuffled|)
      modifies this
      ensures state == old(state).(currentResponses := SettledResponses(shuffled, createdAt, outcomes),
                                   isLoading := false, error := None)
    {
      SettersTouchOwnField(state, SetLoading(true));
      Dispatch(SetLoading(true));
      SettersTouchOwnField(state, SetError(None));
      Dispatch(SetError(None));
      var initial := InitialResponses(shuffled, createdAt);
      SettersTouchOwnField(state, SetResponses(initial));
      Dispatch(SetResponses(initial));
      RecordAnswers(shuffled, createdAt, outcomes, order);
      SettersTouchOwnField(state, SetLoading(false));
      Dispatch(SetLoading(false));
    }

    /** One settled request: UPDATE_RESPONSE with the outcome's patch. */
    method Answer(i: nat, o: FetchOutcome)
      requires i < |state.currentResponses|
      modifies this
      ensures state == old(state).(currentResponses :=
                old(state).currentResponses[i := Merge(old(state).currentResponses[i], PatchFor(o))])
    {
      UpdateTouchesOneSlot(state, i, PatchFor(o));
      Dispatch(UpdateResponse(i, PatchFor(o)));
    }

    /** The answer requests of `submitPrompt`: each outcome, as it arrives,
        updates its own slot. */
    method RecordAnswers(shuffled: seq<AIModel>, createdAt: seq<int>, outcomes: seq<FetchOutcome>, order: seq<nat>)
      requires |shuffled| <= |Config.BlindNames| && |createdAt| == |shuffled| && |outcomes| == |shuffled|
      requires ArrivalOrder(order, |shuffled|)
      requires state.currentResponses == InitialResponses(shuffled, createdAt)
      modifies this
      ensures state == old(state).(currentResponses := SettledResponses(shuffled, createdAt, outcomes))
    {
      var n := |shuffled|;
      ghost var initial := state.currentResponses;
      ghost var settled := SettledResponses(shuffled, createdAt, outcomes);
      var k := 0;
      while k < n
        invariant 0 <= k <= n
        invariant state == old(state).(currentResponses := state.currentResponses)
        invariant |state.currentResponses| == n
        invariant forall i :: 0 <= i < n ==>
                    state.currentResponses[i] == if i in order[..k] then settled[i] else initial[i]
      {
        var i := order[k];
        Seqs.PrefixSnoc(order, k);
        Answer(i, outcomes[i]);
        k := k + 1;
      }
      assert order[..n] == order;
      assert state.currentResponses == settled;
    }

    /** `submitRanking`: commits the round with its prompt. */
    method SubmitRanking(rankings: seq<RankingResult>, prompt: string, roundId: string, timestamp: int)
      modifies this
      ensures state == CommitRound(old(state), rankings, prompt, roundId, timestamp)
    {
      if state.session.None? {
        return;
      }
      var newRound := MatchRound(roundId, prompt, state.currentResponses, rankings, timestamp, false);
      var updated := state.session.value.(rounds := state.session.value.rounds + [newRound]);
      Dispatch(LoadSession(updated));
    }

    method RevealModels()
      modifies this
      ensures state == Reduce(old(state), ArenaAction.RevealModels)
    {
      Dispatch(ArenaAction.RevealModels);
    }

    method NextRound()
      modifies this
      ensures state == Reduce(old(state), ArenaAction.NextRound)
    {
      Dispatch(ArenaAction.NextRound);
    }

    /** `endSession`: completes the session, then forgets the stored one. */
    method EndSession(endTime: int)
      modifies this, store
      ensures state == Reduce(old(state), ArenaAction.EndSession(endTime))
      ensures store.items == old(store.items) - {Config.CurrentSessionKey}
    {
      Dispatch(ArenaAction.EndSession(endTime));
      store.ClearCurrentSession();
    }

    /** `resetArena`: forgets the stored session and returns to the start. */
    method ResetArena()
      modifies this, store
      ensures state == InitialState
      ensures store.items == old(store.items) - {Config.CurrentSessionKey}
    {
      store.ClearCurrentSession();
      Dispatch(Reset);
    }
  }
}
