/** The records the arena passes around: models, responses, rankings,
    rounds, sessions, per-model statistics and the anonymous export.
    Numbers that are timestamps or ranks are integers; uuids are opaque
    strings supplied by the caller. */
module Types {
  import Seqs

  datatype Option<+T> = None | Some(value: T)

  /** A catalogued language model. */
  datatype AIModel = AIModel(
    id: string,
    name: string,
    provider: string,
    description: string,
    available: bool)

  /** One blind answer slot of the current round. */
  datatype ModelResponse = ModelResponse(
    modelId: string,
    blindName: string,
    response: string,
    timestamp: int,
    isLoading: bool)

  /** The rank the user gave to one blind slot. */
  datatype RankingResult = RankingResult(
    modelId: string,
    blindName: string,
    rank: int)

  /** A committed round of a session. */
  datatype MatchRound = MatchRound(
    id: string,
    prompt: string,
    responses: seq<ModelResponse>,
    rankings: seq<RankingResult>,
    timestamp: int,
    revealed: bool)

  /** A whole challenge; `endTime` is absent until the session is ended. */
  datatype ArenaSession = ArenaSession(
    id: string,
    selectedModels: seq<AIModel>,
    rounds: seq<MatchRound>,
    startTime: int,
    endTime: Option<int>,
    completed: bool)

  /** Aggregated statistics of one model over a session. */
  datatype ModelStats = ModelStats(
    modelId: string,
    modelName: string,
    totalRounds: nat,
    averageRank: real,
    firstPlaceCount: nat,
    secondPlaceCount: nat,
    thirdPlaceCount: nat)

  /** The anonymised record exported for one round. */
  datatype AnonymousRankingData = AnonymousRankingData(
    modelIds: seq<string>,
    ranks: seq<int>,
    timestamp: int)

  /** The ids of a list of models, in order. */
  function Ids(models: seq<AIModel>): (ids: seq<string>)
    ensures |ids| == |models|
    ensures forall i :: 0 <= i < |models| ==> ids[i] == models[i].id
  {
    Seqs.Map((m: AIModel) => m.id, models)
  }

  /** No two models of the list share an id. */
  predicate DistinctIds(models: seq<AIModel>)
  {
    forall i, j :: 0 <= i < j < |models| ==> models[i].id != models[j].id
  }
}
