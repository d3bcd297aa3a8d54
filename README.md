# Personal LLM Arena — a verified model of its bookkeeping

Personal LLM Arena is a browser UI for comparing the answers of up to three
language models on the same prompt, blind: the answers are shown under the
labels "模型 A/B/C" in shuffled order, the user ranks them (by dragging or
with one dropdown per answer), and only then are the models revealed. Rounds
accumulate in a session; the analytics page turns them into per-model
statistics and names a winner.

This project models that bookkeeping in Dafny and proves its properties:

| file | module | models |
|---|---|---|
| `types.dfy` | `Types` | the records of `src/types/index.ts` |
| `config.dfy` | `Config` | the catalogue, limits, blind labels and storage keys of `src/config/models.ts` |
| `seqs.dfy` | `Seqs` | sequence helpers (map, distinctness, removal, permutation of images) |
| `storage.dfy` | `Storage` | `src/lib/storage.ts`: a `LocalStore` class over a key→value map, and the anonymous export |
| `arena_context.dfy` | `ArenaContext` | `src/context/ArenaContext.tsx`: the pure reducer over an action datatype, runs of steps, and the `ArenaProvider` class whose helpers dispatch actions |
| `ranking_panel.dfy` | `RankingPanel` | `src/components/RankingPanel.tsx`: drag order, the dropdown rank map, the submission |
| `analytics.dfy` | `Analytics` | `src/components/Analytics.tsx`: the statistics fold and the winner |
| `blind_arena.dfy` | `BlindArena` | `src/components/BlindArena.tsx`: gating predicates and the `BlindArenaPage` class with its handlers |
| `model_selection.dfy` | `ModelSelection` | `src/components/ModelSelection.tsx`: offer, toggle, start, grouping by provider |
| `sidebar.dfy` | `Sidebar` | `src/components/Sidebar.tsx`: the round history lookups and fallbacks |

Values the program draws from `uuidv4()`, `Date.now()`, `Math.random()` and
the answer requests are parameters: `submitPrompt` receives the shuffled
selection (any permutation of the selected models), one creation time per
slot, one outcome per slot (an answer or a failure reason) and the order in
which the outcomes arrive.

The reducer is a function `ArenaContext.Reduce`, whose effect per action
is stated by one lemma each; the provider helpers that
dispatch several actions are methods of `ArenaContext.ArenaProvider`, whose
`state` field they update through `Dispatch`.

Three behaviours of the code worth knowing when reading the model:

- the blind labels are "模型 A", "模型 B", "模型 C"
  (src/config/models.ts:73);
- the analytics list is empty when the session has no rounds
  (src/components/Analytics.tsx:32);
- the winner is chosen among all records, including those of models that
  were never ranked, whose average stays 0 (`Analytics.UnrankedModelWins`).

## Model

| member | source | states |
|---|---|---|
| `Config.LimitsConsistent` | src/config/models.ts:65-70 | at least one and at most three models per round, and the delay bounds are ordered |
| `Config.BlindNamesCoverSlots` | src/config/models.ts:73 | exactly three blind labels, pairwise distinct, one per possible slot |
| `Config.CatalogueWellFormed` | src/config/models.ts:5-62 | eight catalogue entries with distinct ids, all available |
| `Config.StorageKeysDistinct` | src/config/models.ts:76-80 | the three storage keys differ |
| `Types.Ids` | src/types/index.ts:2-8 | the ids of a model list, position by position |
| `Storage.StoredSession` | src/lib/storage.ts:25-35 | the session a store yields: none when the key is absent or holds no session |
| `Storage.StoredHistory` | src/lib/storage.ts:68-78 | the history a store yields: the empty list when the key is absent |
| `Storage.LocalStore.SaveCurrentSession` | src/lib/storage.ts:12-20 | sets the session key; a later load yields exactly that session; the history is untouched |
| `Storage.LocalStore.LoadCurrentSession` | src/lib/storage.ts:25-35 | returns the stored session, or none |
| `Storage.LocalStore.ClearCurrentSession` | src/lib/storage.ts:40-48 | removes the session key only; a later load yields none |
| `Storage.LocalStore.SaveSessionToHistory` | src/lib/storage.ts:53-63 | the stored history becomes the old history with the session appended; every other key is unchanged |
| `Storage.LocalStore.LoadSessionHistory` | src/lib/storage.ts:68-78 | returns the stored history, the empty list when the key is absent |
| `Storage.Anonymise` | src/lib/storage.ts:140-144 | a round's record lists its entries' model ids and ranks position by position, and carries the round's timestamp |
| `Storage.SessionToAnonymousData` | src/lib/storage.ts:139-145 | one record per round, in round order |
| `Storage.ExportAppend` | src/lib/storage.ts:139-145 | appending a round appends exactly its record to the export and leaves earlier records unchanged |
| `ArenaContext.StartSessionOpens` | src/context/ArenaContext.tsx:54-69 | START_SESSION opens an empty, uncompleted session over the payload, on the arena page, with no answers; loading and error are kept |
| `ArenaContext.UpdateTouchesOneSlot` | src/context/ArenaContext.tsx:77-84 | UPDATE_RESPONSE merges the patch into the addressed slot only; the list keeps its length and nothing else changes |
| `ArenaContext.SubmitAppendsRound` | src/context/ArenaContext.tsx:86-107 | SUBMIT_RANKING appends exactly one unrevealed round with an empty prompt and the current answers, or does nothing without a session |
| `ArenaContext.RevealMarksLast` | src/context/ArenaContext.tsx:109-123 | REVEAL_MODELS flags the last round only, or does nothing without a session or rounds |
| `ArenaContext.NextRoundAndReset` | src/context/ArenaContext.tsx:125-149 | NEXT_ROUND clears the answers and the loading flag and keeps the session; RESET gives the initial state |
| `ArenaContext.EndSessionCompletes` | src/context/ArenaContext.tsx:132-146 | END_SESSION completes and stamps the session, keeps its rounds and goes to the analytics page, or does nothing without a session |
| `ArenaContext.LoadSessionPicksPage` | src/context/ArenaContext.tsx:154-160 | LOAD_SESSION installs the session and its models and shows the analytics page exactly when the session is completed |
| `ArenaContext.SettersTouchOwnField` | src/context/ArenaContext.tsx:48-152 | each setter action changes its own field and nothing else |
| `ArenaContext.RoundCountAndCap` | src/context/ArenaContext.tsx:306-313 | `getRoundCount` is zero exactly when there is no session or it has no rounds; `canStartNewRound` holds exactly when that count is below ten |
| `ArenaContext.CommitRoundAppendsOne` | src/context/ArenaContext.tsx:267-286 | the `submitRanking` helper appends exactly one round with the given prompt, keeps earlier rounds and the rest of the session, takes the session's models as the selection, keeps loading and error, and shows the arena unless the session was completed |
| `ArenaContext.UpdatesCommute` | src/context/ArenaContext.tsx:77-84 | answer updates to distinct slots commute |
| `ArenaContext.RevealIdempotent` | src/context/ArenaContext.tsx:109-123 | revealing twice equals revealing once |
| `ArenaContext.StepExtendsHistory` | src/context/ArenaContext.tsx:46-165 | no single action within a session and no commit removes a round, changes its contents or hides a revealed one |
| `ArenaContext.RunExtendsHistory` | src/context/ArenaContext.tsx:46-165 | the same for any sequence of such steps |
| `ArenaContext.CapIsPermanent` | src/context/ArenaContext.tsx:306-309 | once ten rounds are reached, no step within the session makes a new round allowed again |
| `ArenaContext.InitialResponses` | src/context/ArenaContext.tsx:224-230 | slot i holds the i-th shuffled model, the i-th blind label, an empty answer, its creation time, and is loading |
| `ArenaContext.SettledResponsesMeaning` | src/context/ArenaContext.tsx:221-261 | once all answers settle, each slot is loaded, keeps its model and label, and holds the answer (with its time) or the error prefix followed by the reason; the slots' model ids are the selected models' ids, each once |
| `ArenaContext.ArenaProvider.constructor` | src/context/ArenaContext.tsx:36-43 | the provider starts in the initial state |
| `ArenaContext.ArenaProvider.Dispatch` | src/context/ArenaContext.tsx:191 | the state becomes the reducer's result |
| `ArenaContext.ArenaProvider.StartSession` | src/context/ArenaContext.tsx:209-212 | forgets the stored session, then applies START_SESSION |
| `ArenaContext.ArenaProvider.SubmitPrompt` | src/context/ArenaContext.tsx:214-265 | whatever the arrival order, the answers end as the settled slots, loading is off, the error cleared, and nothing else changes |
| `ArenaContext.ArenaProvider.Answer` | src/context/ArenaContext.tsx:235-261 | one arriving outcome merges its patch into its own slot and changes nothing else |
| `ArenaContext.ArenaProvider.RecordAnswers` | src/context/ArenaContext.tsx:235-261 | after every outcome has arrived, in whatever order, each slot holds its settled answer and nothing else has changed |
| `ArenaContext.ArenaProvider.SubmitRanking` | src/context/ArenaContext.tsx:267-286 | the state becomes the committed round's state |
| `ArenaContext.ArenaProvider.RevealModels` | src/context/ArenaContext.tsx:288-290 | applies REVEAL_MODELS |
| `ArenaContext.ArenaProvider.NextRound` | src/context/ArenaContext.tsx:292-294 | applies NEXT_ROUND |
| `ArenaContext.ArenaProvider.EndSession` | src/context/ArenaContext.tsx:296-299 | applies END_SESSION, then forgets the stored session |
| `ArenaContext.ArenaProvider.ResetArena` | src/context/ArenaContext.tsx:301-304 | forgets the stored session and returns to the initial state |
| `RankingPanel.InitialItems` | src/components/RankingPanel.tsx:29 | the drag list is the responses' blind labels in response order |
| `RankingPanel.IndexOf` | src/components/RankingPanel.tsx:45-46 | the first position of a present label |
| `RankingPanel.ArrayMove` | src/components/RankingPanel.tsx:47 | a rearrangement of the same labels that puts the moved label at the target position |
| `RankingPanel.HandleDragEnd` | src/components/RankingPanel.tsx:40-50 | unchanged without a target or when dropped on itself; otherwise the same labels, with the dragged one at the target's old position |
| `RankingPanel.Reassign` | src/components/RankingPanel.tsx:52-70 | a positive rank is set for the label and a zero rank removes its entry; every other entry survives unless it held that rank |
| `RankingPanel.HandleDropdownChange` | src/components/RankingPanel.tsx:52-70 | the loop that evicts every holder of the rank, then assigns or deletes, yields exactly `Reassign` |
| `RankingPanel.ReassignKeepsRanksUnique` | src/components/RankingPanel.tsx:56-60 | no two labels ever share a rank |
| `RankingPanel.EnabledChoiceEvictsNobody` | src/components/RankingPanel.tsx:157-161 | choosing an enabled option changes only the choosing label's entry |
| `RankingPanel.OptionDisabledMeaning` | src/components/RankingPanel.tsx:157-161 | an option is disabled iff another label holds its rank |
| `RankingPanel.ChoiceKeepsWellFormed` | src/components/RankingPanel.tsx:150-161 | choices among the offered ranks keep the map over the responses' labels with ranks 1..N |
| `RankingPanel.FindByBlindName` | src/components/RankingPanel.tsx:90 | the first response bearing a label |
| `RankingPanel.DragRankings` | src/components/RankingPanel.tsx:89-96 | the label at position i gets rank i+1 and the model of the response bearing it |
| `RankingPanel.DropdownRankings` | src/components/RankingPanel.tsx:82-86 | one entry per response, in response order, with its chosen rank |
| `RankingPanel.HandleSubmit` | src/components/RankingPanel.tsx:72-102 | the submission is refused exactly when the submit button is disabled: dropdown mode with fewer ranked labels than responses |
| `RankingPanel.RankRange` | src/components/RankingPanel.tsx:157-158 | the N ranks 1..N |
| `RankingPanel.PermutationUsesEveryRank` | src/components/RankingPanel.tsx:82-96 | distinct ranks within 1..N over N entries use every rank 1..N |
| `RankingPanel.DragEntriesPermuteResponses` | src/components/RankingPanel.tsx:89-96 | a drag submission names each response's (model, label) pair exactly once |
| `RankingPanel.SubmittedRankingIsComplete` | src/components/RankingPanel.tsx:72-100 | in either mode an accepted submission has one entry per response and ranks that are a permutation of 1..N, with dropdown entries in response order |
| `Analytics.IndexOfId` | src/components/Analytics.tsx:52-53 | the record of a model id, or none |
| `Analytics.Put` | src/components/Analytics.tsx:38-46 | map insertion: an existing id keeps its place and takes the new record, a new id goes last; ids stay distinct |
| `Analytics.PutStoresRecord` | src/components/Analytics.tsx:38-46 | after `set`, the record stored under the id is the new record, whether or not the id was present |
| `Analytics.SetRecord` | src/components/Analytics.tsx:38-46 | the in-place assignment `stats[id] = record` computes `Put` |
| `Analytics.InitialStats` | src/components/Analytics.tsx:37-47 | distinct ids, at most one record per selected model, every counter zero |
| `Analytics.InitialStatsCoverSelection` | src/components/Analytics.tsx:37-47 | every selected model has a record |
| `Analytics.InitialStatsOfDistinct` | src/components/Analytics.tsx:37-47 | with distinct ids, record i is model i's zero record |
| `Analytics.InitStatsMap` | src/components/Analytics.tsx:37-47 | the initialisation loop yields `InitialStats` |
| `Analytics.FoldRound` | src/components/Analytics.tsx:51-60 | folding one round's rankings turns every record tallied over the earlier entries into the record tallied over those entries and this round's |
| `Analytics.FoldEntry` | src/components/Analytics.tsx:50-60 | one inner step folds the entry into its model's record and leaves the others as they were |
| `Analytics.FinishAverages` | src/components/Analytics.tsx:64-68 | each record with rounds gets its sum divided by its count; the others are kept |
| `Analytics.ComputeStats` | src/components/Analytics.tsx:31-71 | the nested loops yield exactly the specified statistics |
| `Analytics.TallyStep` | src/components/Analytics.tsx:52-58 | one more entry bumps its model's count, rank sum and matching placement counter |
| `Analytics.StatsPresence` | src/components/Analytics.tsx:32-70 | the list is empty without a session or rounds; otherwise every selected model has a record |
| `Analytics.StatsMeaning` | src/components/Analytics.tsx:50-68 | each record counts its model's entries over all rounds and its placements 1/2/3; its average is the rank sum over the count, or zero without entries |
| `Analytics.FinishedTallyMeaning` | src/components/Analytics.tsx:50-68 | a finished record's counters are the counts of its entries, and average times count is the rank sum |
| `Analytics.PlacementsWithinTotal` | src/components/Analytics.tsx:56-58 | firsts plus seconds plus thirds never exceed the rounds |
| `Analytics.NoEntriesNoSum` | src/components/Analytics.tsx:55-65 | a model without entries has rank sum zero |
| `Analytics.AverageBounds` | src/components/Analytics.tsx:64-68 | an average lies within the bounds of the ranks given |
| `Analytics.WinnerIndex` | src/components/Analytics.tsx:145-148 | the first record with the least average |
| `Analytics.Winner` | src/components/Analytics.tsx:145-148 | undefined exactly for an empty list, else the first minimal record |
| `Analytics.ShowWinnerExactly` | src/components/Analytics.tsx:164 | the announcement shows exactly when the session has rounds and a model is selected |
| `Analytics.UnrankedModelWins` | src/components/Analytics.tsx:145-148 | a selected model that was never ranked has average zero and so wins over every ranked model |
| `Analytics.TwoRoundExample` | src/components/Analytics.tsx:145-148 | two models each first once and second once both average 1.5, and the tie goes to the first listed |
| `BlindArena.CurrentRound` | src/components/BlindArena.tsx:34 | the session's last round, none without a session or rounds |
| `BlindArena.PanelBlocksPrompt` | src/components/BlindArena.tsx:175-226 | while the ranking panel is shown neither the input nor the send button can be used |
| `BlindArena.NextRoundOfferedExactly` | src/components/BlindArena.tsx:114-204 | after a reveal, with answers present or loading (not the empty placeholder), the next round is offered exactly below ten rounds and the cap message shows exactly at ten or more; over the placeholder neither shows |
| `BlindArena.SettledSlotsAreLoaded` | src/components/BlindArena.tsx:30-31 | after collection all answers are loaded iff at least one model was selected |
| `BlindArena.CommitThenReveal` | src/components/BlindArena.tsx:58-62 | submitting then revealing adds one round, the last, carrying prompt, answers and rankings, and revealed |
| `BlindArena.BlindArenaPage.constructor` | src/components/BlindArena.tsx:22-25 | empty prompt, panel hidden, nothing revealed, no recorded prompt |
| `BlindArena.BlindArenaPage.EditPrompt` | src/components/BlindArena.tsx:216 | only the prompt changes |
| `BlindArena.BlindArenaPage.HandleSubmitPrompt` | src/components/BlindArena.tsx:47-56 | nothing happens for a blank prompt or while loading; otherwise the prompt is recorded, the flags reset, the answers collected and the input emptied |
| `BlindArena.BlindArenaPage.ShowRankingEffect` | src/components/BlindArena.tsx:37-41 | the panel flag turns on once all answers are loaded and never turns off here |
| `BlindArena.BlindArenaPage.RevealedEffect` | src/components/BlindArena.tsx:43-45 | the reveal flag mirrors the last round's |
| `BlindArena.BlindArenaPage.HandleRankingSubmit` | src/components/BlindArena.tsx:58-62 | commits the round with the recorded prompt, reveals it, and marks the page revealed |
| `BlindArena.BlindArenaPage.HandleNextRound` | src/components/BlindArena.tsx:64-69 | applies NEXT_ROUND and clears the panel, reveal flag and recorded prompt |
| `ModelSelection.Available` | src/components/ModelSelection.tsx:13 | exactly the available catalogue entries |
| `ModelSelection.AvailableConcat` | src/components/ModelSelection.tsx:13 | filtering distributes over concatenation, so the offer keeps catalogue order |
| `ModelSelection.OfferIsCatalogue` | src/components/ModelSelection.tsx:13 | the page offers the whole catalogue in order |
| `ModelSelection.Without` | src/components/ModelSelection.tsx:20 | exactly the models with another id |
| `ModelSelection.ToggleModel` | src/components/ModelSelection.tsx:15-29 | an error, with the selection unchanged, exactly when adding a fourth model |
| `ModelSelection.ToggleMembership` | src/components/ModelSelection.tsx:15-29 | a click flips the clicked id's membership, except that a fourth model is refused, and leaves every other id's membership as it was |
| `ModelSelection.ToggleKeepsOrder` | src/components/ModelSelection.tsx:15-29 | an unselected model below the limit is appended at the end; a selected one is taken out of its position, the others keeping their order |
| `ModelSelection.ToggleKeepsValid` | src/components/ModelSelection.tsx:15-29 | a click keeps at most three models with distinct ids |
| `ModelSelection.ClicksKeepValid` | src/components/ModelSelection.tsx:15-29 | any series of clicks from none keeps the selection valid |
| `ModelSelection.AddThenRemoveRestores` | src/components/ModelSelection.tsx:18-27 | selecting a model and clicking it again restores the selection |
| `ModelSelection.HandleStart` | src/components/ModelSelection.tsx:35-41 | refuses with the error exactly when nothing is selected, else starts with the selection |
| `ModelSelection.StartedSelectionInBounds` | src/components/ModelSelection.tsx:35-41 | a started session has one to three models with distinct ids |
| `ModelSelection.ProvidersOf` | src/components/ModelSelection.tsx:44-50 | each provider once, covering every model |
| `ModelSelection.Push` | src/components/ModelSelection.tsx:45-49 | given the record built from the models seen so far, it returns the record of those models and one more |
| `ModelSelection.ModelsByProvider` | src/components/ModelSelection.tsx:44-50 | the loop's keys are the providers and each group is that provider's models in order |
| `ModelSelection.EachModelInOneGroup` | src/components/ModelSelection.tsx:44-50 | every model is in its provider's group and no other |
| `ModelSelection.GroupKeepsOrder` | src/components/ModelSelection.tsx:44-50 | within a group models keep their relative order |
| `Sidebar.SidebarRounds` | src/components/Sidebar.tsx:10 | the session's rounds, none without a session |
| `Sidebar.EmptyHistoryMatchesCounter` | src/components/Sidebar.tsx:26 | the empty-history message shows iff the round count is zero |
| `Sidebar.FindModel` | src/components/Sidebar.tsx:71 | the first selected model with the id, or none exactly when no model has it |
| `Sidebar.GetModelNameMeaning` | src/components/Sidebar.tsx:70-73 | a selected model's name is shown for its id; an unknown id is shown as itself |
| `Sidebar.RoundWinner` | src/components/Sidebar.tsx:76 | the first entry ranked first, none exactly when no entry is |
| `Sidebar.WinnerName` | src/components/Sidebar.tsx:77 | the placeholder "未知" when no entry is ranked first |
| `Sidebar.CompleteRankingHasWinner` | src/components/Sidebar.tsx:76-77 | a round ranked 1..N has a winner, its unique first-ranked entry |
| `Sidebar.PromptLabel` | src/components/Sidebar.tsx:94 | the prompt, or "（無提示詞）" when empty; never empty |
| `Sidebar.RoundNumbersCount` | src/components/Sidebar.tsx:83 | rounds are numbered 1, 2, … and the last number is the round count |
| `Sidebar.SubmittedRoundShowsChampion` | src/components/Sidebar.tsx:76-97 | after submit and reveal the newest entry shows its champion: the name of the model ranked first |
| `Seqs.MapPermutation` | src/context/ArenaContext.tsx:221 | images of rearranged lists are rearranged |

## Left out

- The JSON layer, the `typeof window` guards and the `try`/`catch` logging of `src/lib/storage.ts`: JSON encoding is taken as a faithful round trip, and a value of another shape under a key reads as absent.
- `saveToGlobalDB` (src/lib/storage.ts:85-134): a mock of a remote database that only logs.
- `src/lib/api.ts`: the simulated answers, their random delays and failures are replaced by arbitrary outcomes passed to `ArenaContext.ArenaProvider.SubmitPrompt`.
- The shuffle `sort(() => Math.random() - 0.5)`: modelled as any permutation; nothing is said about its distribution.
- The asynchronous interleaving of `submitPrompt`: answers arrive in any order, but no other action runs between them.
- `ArenaContext.ArenaProvider.SubmitPrompt`: requires at most three selected models, the number of blind labels; the source indexes `BLIND_NAMES` out of range otherwise.
- `ArenaContext.Reduce`: requires an UPDATE_RESPONSE index inside the answer list; every caller uses an index of the list it just set.
- The React effects that load the stored session on mount and save it on every change (src/context/ArenaContext.tsx:194-206), and the `useReducer`/`useContext` wiring.
- The chart and radar data, `toFixed` and the `4 - averageRank` display values of src/components/Analytics.tsx:74-136: display formatting over floating point. Averages are exact `real`s here.
- The drag-and-drop library: `arrayMove` is modelled by its documented remove-then-insert meaning.
- The timestamp formatting, the back and end buttons of the arena page (`handleEndSession` only calls `endSession`), and all rendering.
- No invariant bounds the rounds of a session by ten: nothing enforces it when a ranking is submitted.

