/** The arena's configuration: the model catalogue, the round and selection
    limits, the blind slot labels and the local storage keys. */
module Config {
  import opened Types

  const MaxModelsPerRound: nat := 3
  const MinModelsPerRound: nat := 1
  const MaxRoundsPerSession: nat := 10

  /** Bounds, in milliseconds, of the simulated answer delay. */
  const MockResponseDelayMin: int := 1000
  const MockResponseDelayMax: int := 3000

  /** The labels shown instead of model names until a round is revealed. */
  const BlindNames: seq<string> := ["模型 A", "模型 B", "模型 C"]

  const CurrentSessionKey: string := "arena_current_session"
  const SessionHistoryKey: string := "arena_session_history"
  const UserPreferencesKey: string := "arena_user_preferences"

  const AvailableModels: seq<AIModel> := [
    AIModel("gpt-4", "GPT-4", "OpenAI",
      "OpenAI 最強大的語言模型，擅長複雜推理與創意寫作", true),
    AIModel("gpt-4-turbo", "GPT-4 Turbo", "OpenAI",
      "更快速的 GPT-4 版本，具有更長的上下文視窗", true),
    AIModel("claude-3-opus", "Claude 3 Opus", "Anthropic",
      "Anthropic 的旗艦模型，以安全性和深度分析著稱", true),
    AIModel("claude-3-sonnet", "Claude 3 Sonnet", "Anthropic",
      "平衡效能與速度的 Claude 模型", true),
    AIModel("gemini-pro", "Gemini Pro", "Google",
      "Google 的多模態 AI 模型", true),
    AIModel("gemini-ultra", "Gemini Ultra", "Google",
      "Google 最強大的 AI 模型", true),
    AIModel("llama-3-70b", "Llama 3 70B", "Meta",
      "Meta 開源的大型語言模型", true),
    AIModel("mistral-large", "Mistral Large", "Mistral AI",
      "歐洲領先的開源語言模型", true)
  ]

  /** The limits are consistent with each other. */
  lemma LimitsConsistent()
    ensures 1 <= MinModelsPerRound <= MaxModelsPerRound
    ensures MockResponseDelayMin <= MockResponseDelayMax
  {
  }

  /** There is one distinct blind label per possible selected model, so
      `BlindNames[i]` is defined for every slot of a valid selection. */
  lemma BlindNamesCoverSlots()
    ensures |BlindNames| == MaxModelsPerRound
    ensures forall i, j :: 0 <= i < j < |BlindNames| ==> BlindNames[i] != BlindNames[j]
  {
  }

  /** The catalogue has eight entries with distinct ids, all available. */
  lemma CatalogueWellFormed()
    ensures |AvailableModels| == 8
    ensures DistinctIds(AvailableModels)
    ensures forall m :: m in AvailableModels ==> m.available
  {
  }

  /** The three storage keys are distinct. */
  lemma StorageKeysDistinct()
    ensures CurrentSessionKey != SessionHistoryKey
    ensures CurrentSessionKey != UserPreferencesKey
    ensures SessionHistoryKey != UserPreferencesKey
  {
  }
}
