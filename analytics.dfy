/** Per-model statistics over a session and the choice of the winner.
    The statistics are kept, as in the component, in an insertion-ordered
    map from model id to a record whose counters are bumped in place; here
    that map is a sequence of records with distinct ids. */
module Analytics {
  import opened Types

  // ---------------------------------------------------------------------
  // The id-keyed record list

  /** `modelStatsMap.get(id)`: the position of the record with that id. */
  function IndexOfId(stats: seq<ModelStats>, id: string): (r: Option<nat>)
    ensures r.Some? ==> r.value < |stats| && stats[r.value].modelId == id
    ensures r.None? <==> forall k :: 0 <= k < |stats| ==> stats[k].modelId != id
  {
    if |stats| == 0 then None
    else if stats[0].modelId == id then Some(0)
    else match IndexOfId(stats[1..], id)
      case None => None
      case Some(k) => Some(k + 1)
  }

  /** No two records share a model id. */
  predicate DistinctStatIds(stats: seq<ModelStats>)
  {
    forall i, j :: 0 <= i < j < |stats| ==> stats[i].modelId != stats[j].modelId
  }

  /** A record whose counters are all at their starting value. */
  predicate Unused(s: ModelStats)
  {
    s.totalRounds == 0 && s.averageRank == 0.0 &&
    s.firstPlaceCount == 0 && s.secondPlaceCount == 0 && s.thirdPlaceCount == 0
  }

  /** The starting record of a selected model. */
  function Zero(model: AIModel): ModelStats
  {
    ModelStats(model.id, model.name, 0, 0.0, 0, 0, 0)
  }

  /** `modelStatsMap.set(s.modelId, s)`: an existing key keeps its place and
      takes the new record; a new key goes at the end. */
  function Put(stats: seq<ModelStats>, s: ModelStats): (r: seq<ModelStats>)
    requires DistinctStatIds(stats)
    ensures DistinctStatIds(r)
    ensures |stats| <= |r| <= |stats| + 1
    ensures IndexOfId(r, s.modelId).Some?
    ensures s in r
    ensures forall k :: 0 <= k < |r| ==> r[k] == s || (k < |stats| && r[k] == stats[k])
    ensures forall k :: 0 <= k < |stats| ==> r[k] == stats[k] || (r[k] == s && stats[k].modelId == s.modelId)
  {
    var found := IndexOfId(stats, s.modelId);
    if found.Some? then
      assert stats[found.value := s][found.value].modelId == s.modelId;
      stats[found.value := s]
    else
      assert (stats + [s])[|stats|].modelId == s.modelId;
      stats + [s]
  }

  /** After a `set`, the record stored under the id is the new one. */
  lemma PutStoresRecord(stats: seq<ModelStats>, s: ModelStats)
    requires DistinctStatIds(stats)
    ensures forall k :: 0 <= k < |Put(stats, s)| && Put(stats, s)[k].modelId == s.modelId ==> Put(stats, s)[k] == s
  {
    var r := Put(stats, s);
    var j :| 0 <= j < |r| && r[j] == s;
    forall k | 0 <= k < |r| && r[k].modelId == s.modelId ensures r[k] == s {
      assert r[k].modelId == r[j].modelId;
    }
  }

  /** An id with a record keeps one after a `set`. */
  lemma PutKeepsIds(stats: seq<ModelStats>, s: ModelStats, id: string)
    requires DistinctStatIds(stats) && IndexOfId(stats, id).Some?
    ensures IndexOfId(Put(stats, s), id).Some?
  {
    var k := IndexOfId(stats, id).value;
    assert Put(stats, s)[k].modelId == id;
  }

  /** The map after the initialisation `forEach`: one unused record per
      distinct selected id, in order of first appearance, each named after
      the last model selected with that id. */
  function InitialStats(models: seq<AIModel>): (stats: seq<ModelStats>)
    ensures DistinctStatIds(stats)
    ensures |stats| <= |models|
    ensures forall k :: 0 <= k < |stats| ==> Unused(stats[k])
    decreases |models|
  {
    if |models| == 0 then []
    else Put(InitialStats(models[..|models| - 1]), Zero(models[|models| - 1]))
  }

  /** Every selected model has a record. */
  lemma {:induction false} InitialStatsCoverSelection(models: seq<AIModel>)
    ensures forall i :: 0 <= i < |models| ==> IndexOfId(InitialStats(models), models[i].id).Some?
    decreases |models|
  {
    if |models| > 0 {
      var init := models[..|models| - 1];
      InitialStatsCoverSelection(init);
      var before := InitialStats(init);
      assert InitialStats(models) == Put(before, Zero(models[|models| - 1]));
      forall i | 0 <= i < |init| ensures IndexOfId(InitialStats(models), models[i].id).Some? {
        PutKeepsIds(before, Zero(models[|models| - 1]), init[i].id);
      }
    }
  }

  /** With distinct ids, there is exactly one unused record per selected
      model, in selection order. */
  lemma {:induction false} InitialStatsOfDistinct(models: seq<AIModel>)
    requires DistinctIds(models)
    ensures |InitialStats(models)| == |models|
    ensures forall i :: 0 <= i < |models| ==> InitialStats(models)[i] == Zero(models[i])
    decreases |models|
  {
    if |models| > 0 {
      var init := models[..|models| - 1];
      InitialStatsOfDistinct(init);
      var last := models[|models| - 1];
      assert IndexOfId(InitialStats(init), last.id).None? by {
        forall k | 0 <= k < |InitialStats(init)| ensures InitialStats(init)[k].modelId != last.id {
          assert InitialStats(init)[k] == Zero(init[k]);
        }
      }
    }
  }

  // ---------------------------------------------------------------------
  // What the fold counts

  /** Every ranking entry of the rounds, round by round. */
  function Entries(rounds: seq<MatchRound>): seq<RankingResult>
  {
    if |rounds| == 0 then [] else Entries(rounds[..|rounds| - 1]) + rounds[|rounds| - 1].rankings
  }

  /** The number of entries for a model. */
  function CountOf(es: seq<RankingResult>, id: string): nat
  {
    if |es| == 0 then 0
    else CountOf(es[..|es| - 1], id) + (if es[|es| - 1].modelId == id then 1 else 0)
  }

  /** The number of entries giving a model a given rank. */
  function RankCountOf(es: seq<RankingResult>, id: string, rank: int): nat
  {
    if |es| == 0 then 0
    else RankCountOf(es[..|es| - 1], id, rank) +
         (if es[|es| - 1].modelId == id && es[|es| - 1].rank == rank then 1 else 0)
  }

  /** The sum of a model's ranks. */
  function RankSum(es: seq<RankingResult>, id: string): int
  {
    if |es| == 0 then 0
    else RankSum(es[..|es| - 1], id) + (if es[|es| - 1].modelId == id then es[|es| - 1].rank else 0)
  }

  /** A record after folding the entries in, before the division: the rank
      sum still sits in `averageRank`. */
  function Tally(s: ModelStats, es: seq<RankingResult>): ModelStats
  {
    ModelStats(s.modelId, s.modelName, CountOf(es, s.modelId), RankSum(es, s.modelId) as real,
               RankCountOf(es, s.modelId, 1), RankCountOf(es, s.modelId, 2), RankCountOf(es, s.modelId, 3))
  }

  /** The division step: a model with rounds gets sum / count, one without
      keeps 0. */
  function Finish(s: ModelStats): ModelStats
  {
    if s.totalRounds > 0 then s.(averageRank := s.averageRank / s.totalRounds as real) else s
  }

  /** The statistics the component displays: none without a session or
      without rounds; otherwise one finished tally per initial record. */
  function ExpectedStats(session: Option<ArenaSession>, models: seq<AIModel>): seq<ModelStats>
  {
    if session.None? || |session.value.rounds| == 0 then []
    else
      var init := InitialStats(models);
      var es := Entries(session.value.rounds);
      seq(|init|, k requires 0 <= k < |init| => Finish(Tally(init[k], es)))
  }

  /** Folding one more entry into a tally bumps the counters of that
      entry's model and no other. */
  lemma TallyStep(s: ModelStats, es: seq<RankingResult>, e: RankingResult)
    ensures var before, after := Tally(s, es), Tally(s, es + [e]);
            if e.modelId == s.modelId then
              after == before.(totalRounds := before.totalRounds + 1,
                               averageRank := before.averageRank + e.rank as real,
                               firstPlaceCount := before.firstPlaceCount + (if e.rank == 1 then 1 else 0),
                               secondPlaceCount := before.secondPlaceCount + (if e.rank == 2 then 1 else 0),
                               thirdPlaceCount := before.thirdPlaceCount + (if e.rank == 3 then 1 else 0))
            else after == before
  {
    assert (es + [e])[..|es|] == es;
  }

  lemma EntriesStep(rounds: seq<MatchRound>, r: nat)
    requires r < |rounds|
    ensures Entries(rounds[..r + 1]) == Entries(rounds[..r]) + rounds[r].rankings
  {
    assert rounds[..r + 1][..r] == rounds[..r];
  }

  lemma InitialStatsStep(models: seq<AIModel>, i: nat)
    requires i < |models|
    ensures InitialStats(models[..i + 1]) == Put(InitialStats(models[..i]), Zero(models[i]))
  {
    assert models[..i + 1][..i] == models[..i];
  }

  /** `modelStatsMap.set`: overwrite the record with the same id in place,
      or add the record at the end. */
  method SetRecord(stats: seq<ModelStats>, s: ModelStats) returns (next: seq<ModelStats>)
    requires DistinctStatIds(stats)
    ensures next == Put(stats, s)
  {
    var found := IndexOfId(stats, s.modelId);
    if found.Some? {
      next := stats[found.value := s];
    } else {
      next := stats + [s];
    }
  }

  /** Initialise the map: one `set` per selected model. */
  method InitStatsMap(selectedModels: seq<AIModel>) returns (stats: seq<ModelStats>)
    ensures stats == InitialStats(selectedModels)
  {
    stats := [];
    var i := 0;
    while i < |selectedModels|
      invariant 0 <= i <= |selectedModels|
      invariant stats == InitialStats(selectedModels[..i])
    {
      var model := selectedModels[i];
      var blank := ModelStats(model.id, model.name, 0, 0.0, 0, 0, 0);
      InitialStatsStep(selectedModels, i);
      stats := SetRecord(stats, blank);
      i := i + 1;
    }
    assert selectedModels[..i] == selectedModels;
  }

  /** The body of the inner `forEach`: the record of the entry's model, if
      any, counts one more round, adds the rank, and bumps the matching
      placement counter. */
  method FoldEntry(stats: seq<ModelStats>, ghost init: seq<ModelStats>, ghost done: seq<RankingResult>,
                   entry: RankingResult) returns (next: seq<ModelStats>)
    requires DistinctStatIds(init) && |stats| == |init|
    requires forall k :: 0 <= k < |init| ==> stats[k] == Tally(init[k], done)
    ensures |next| == |init|
    ensures forall k :: 0 <= k < |init| ==> next[k] == Tally(init[k], done + [entry])
  {
    forall k | 0 <= k < |init| {
      TallyStep(init[k], done, entry);
    }
    next := stats;
    var found := IndexOfId(stats, entry.modelId);
    if found.Some? {
      var k := found.value;
      var stat := stats[k];
      stat := stat.(totalRounds := stat.totalRounds + 1, averageRank := stat.averageRank + entry.rank as real);
      if entry.rank == 1 {
        stat := stat.(firstPlaceCount := stat.firstPlaceCount + 1);
      }
      if entry.rank == 2 {
        stat := stat.(secondPlaceCount := stat.secondPlaceCount + 1);
      }
      if entry.rank == 3 {
        stat := stat.(thirdPlaceCount := stat.thirdPlaceCount + 1);
      }
      next := stats[k := stat];
    }
  }

  /** The division pass: each record with rounds gets its sum divided by
      its count, in place. */
  method FinishAverages(stats: seq<ModelStats>) returns (next: seq<ModelStats>)
    ensures |next| == |stats|
    ensures forall k :: 0 <= k < |stats| ==> next[k] == Finish(stats[k])
  {
    next := stats;
    var k := 0;
    while k < |next|
      invariant 0 <= k <= |next| == |stats|
      invariant forall q :: 0 <= q < k ==> next[q] == Finish(stats[q])
      invariant forall q :: k <= q < |stats| ==> next[q] == stats[q]
    {
      var stat := next[k];
      if stat.totalRounds > 0 {
        next := next[k := stat.(averageRank := stat.averageRank / stat.totalRounds as real)];
      }
      k := k + 1;
    }
  }

  /** The inner `forEach`: every entry of one round folded in, in order. */
  method FoldRound(stats: seq<ModelStats>, ghost init: seq<ModelStats>, ghost done: seq<RankingResult>,
                   rankings: seq<RankingResult>) returns (next: seq<ModelStats>)
    requires DistinctStatIds(init) && |stats| == |init|
    requires forall k :: 0 <= k < |init| ==> stats[k] == Tally(init[k], done)
    ensures |next| == |init|
    ensures forall k :: 0 <= k < |init| ==> next[k] == Tally(init[k], done + rankings)
  {
    next := stats;
    var j := 0;
    assert done + rankings[..j] == done;
    while j < |rankings|
      invariant 0 <= j <= |rankings|
      invariant |next| == |init|
      invariant forall k :: 0 <= k < |init| ==> next[k] == Tally(init[k], done + rankings[..j])
    {
      assert done + rankings[..j + 1] == (done + rankings[..j]) + [rankings[j]];
      next := FoldEntry(next, init, done + rankings[..j], rankings[j]);
      j := j + 1;
    }
    assert rankings[..j] == rankings;
  }

  /** The `stats` computation: initialise the map, fold every ranking entry
      of every round into its model's record, then divide. */
  method ComputeStats(session: Option<ArenaSession>, selectedModels: seq<AIModel>) returns (stats: seq<ModelStats>)
    ensures stats == ExpectedStats(session, selectedModels)
  {
    if session.None? || |session.value.rounds| == 0 {
      return [];
    }
    var rounds := session.value.rounds;
    stats := InitStatsMap(selectedModels);
    ghost var init := stats;
    assert DistinctStatIds(init);

    var r := 0;
    while r < |rounds|
      invariant 0 <= r <= |rounds|
      invariant |stats| == |init|
      invariant forall k :: 0 <= k < |init| ==> stats[k] == Tally(init[k], Entries(rounds[..r]))
    {
      stats := FoldRound(stats, init, Entries(rounds[..r]), rounds[r].rankings);
      EntriesStep(rounds, r);
      r := r + 1;
    }
    assert rounds[..r] == rounds;
    stats := FinishAverages(stats);
  }

  // ---------------------------------------------------------------------
  // Properties of the statistics

  /** The three placement counters never add up to more than the rounds. */
  lemma {:induction false} PlacementsWithinTotal(es: seq<RankingResult>, id: string)
    ensures RankCountOf(es, id, 1) + RankCountOf(es, id, 2) + RankCountOf(es, id, 3) <= CountOf(es, id)
  {
    if |es| > 0 {
      PlacementsWithinTotal(es[..|es| - 1], id);
    }
  }

  /** A model without entries has rank sum 0. */
  lemma {:induction false} NoEntriesNoSum(es: seq<RankingResult>, id: string)
    ensures CountOf(es, id) == 0 ==> RankSum(es, id) == 0
  {
    if |es| > 0 {
      NoEntriesNoSum(es[..|es| - 1], id);
    }
  }

  /** When every rank is at least lo, a model's rank sum is at least lo
      times its count. */
  lemma {:induction false} RankSumAtLeast(es: seq<RankingResult>, id: string, lo: int)
    requires forall i :: 0 <= i < |es| ==> lo <= es[i].rank
    ensures lo * CountOf(es, id) <= RankSum(es, id)
  {
    if |es| > 0 {
      RankSumAtLeast(es[..|es| - 1], id, lo);
    }
  }

  /** When every rank is at most hi, a model's rank sum is at most hi times
      its count. */
  lemma {:induction false} RankSumAtMost(es: seq<RankingResult>, id: string, hi: int)
    requires forall i :: 0 <= i < |es| ==> es[i].rank <= hi
    ensures RankSum(es, id) <= hi * CountOf(es, id)
  {
    if |es| > 0 {
      RankSumAtMost(es[..|es| - 1], id, hi);
    }
  }

  lemma DivisionBounds(sum: real, n: real, lo: real, hi: real)
    requires n > 0.0 && lo * n <= sum <= hi * n
    ensures lo <= sum / n <= hi
  {
    var q := sum / n;
    assert q * n == sum;
  }

  lemma CastProduct(a: int, b: int)
    ensures (a * b) as real == a as real * b as real
  {
  }

  /** The average of a record with rounds lies within the bounds of the
      ranks given. */
  lemma AverageBounds(s: ModelStats, es: seq<RankingResult>, lo: int, hi: int)
    requires forall i :: 0 <= i < |es| ==> lo <= es[i].rank <= hi
    requires CountOf(es, s.modelId) > 0
    ensures lo as real <= Finish(Tally(s, es)).averageRank <= hi as real
  {
    RankSumAtLeast(es, s.modelId, lo);
    RankSumAtMost(es, s.modelId, hi);
    BoundedSumAverage(s, es, lo, hi);
  }

  lemma BoundedSumAverage(s: ModelStats, es: seq<RankingResult>, lo: int, hi: int)
    requires CountOf(es, s.modelId) > 0
    requires lo * CountOf(es, s.modelId) <= RankSum(es, s.modelId) <= hi * CountOf(es, s.modelId)
    ensures lo as real <= Finish(Tally(s, es)).averageRank <= hi as real
  {
    var n := CountOf(es, s.modelId);
    var sum := RankSum(es, s.modelId);
    CastProduct(lo, n);
    CastProduct(hi, n);
    DivisionBounds(sum as real, n as real, lo as real, hi as real);
  }

  /** What a finished record means: its counters count the entries of its
      model, the placements fit in the total, and its average times its
      count is its rank sum, or it is 0 without rounds. */
  lemma {:induction false} FinishedTallyMeaning(s: ModelStats, es: seq<RankingResult>)
    ensures var f := Finish(Tally(s, es));
            f.modelId == s.modelId && f.modelName == s.modelName &&
            f.totalRounds == CountOf(es, s.modelId) &&
            f.firstPlaceCount == RankCountOf(es, s.modelId, 1) &&
            f.secondPlaceCount == RankCountOf(es, s.modelId, 2) &&
            f.thirdPlaceCount == RankCountOf(es, s.modelId, 3) &&
            f.firstPlaceCount + f.secondPlaceCount + f.thirdPlaceCount <= f.totalRounds &&
            (f.totalRounds > 0 ==> f.averageRank * f.totalRounds as real == RankSum(es, s.modelId) as real) &&
            (f.totalRounds == 0 ==> f.averageRank == 0.0)
  {
    PlacementsWithinTotal(es, s.modelId);
    NoEntriesNoSum(es, s.modelId);
    var t := Tally(s, es);
    if t.totalRounds > 0 {
      DivisionTimes(t.averageRank, t.totalRounds as real);
    }
  }

  /** Each displayed record is the finished tally, over all entries of all
      rounds, of the selected model it was created for. */
  lemma StatsMeaning(session: Option<ArenaSession>, models: seq<AIModel>, k: nat)
    requires k < |ExpectedStats(session, models)|
    ensures session.Some? && |session.value.rounds| > 0
    ensures var s := ExpectedStats(session, models)[k];
            var es := Entries(session.value.rounds);
            s.totalRounds == CountOf(es, s.modelId) &&
            s.firstPlaceCount == RankCountOf(es, s.modelId, 1) &&
            s.secondPlaceCount == RankCountOf(es, s.modelId, 2) &&
            s.thirdPlaceCount == RankCountOf(es, s.modelId, 3) &&
            s.firstPlaceCount + s.secondPlaceCount + s.thirdPlaceCount <= s.totalRounds &&
            (s.totalRounds > 0 ==> s.averageRank == RankSum(es, s.modelId) as real / s.totalRounds as real) &&
            (s.totalRounds == 0 ==> s.averageRank == 0.0)
  {
    var es := Entries(session.value.rounds);
    var init := InitialStats(models);
    var s := ExpectedStats(session, models)[k];
    assert s == Finish(Tally(init[k], es));
    FinishedTallyMeaning(init[k], es);
  }

  lemma DivisionTimes(sum: real, n: real)
    requires n > 0.0
    ensures (sum / n) * n == sum
  {
  }

  /** Without rounds there is nothing to show; with rounds every selected
      model has a record. */
  lemma StatsPresence(session: Option<ArenaSession>, models: seq<AIModel>)
    ensures (session.None? || |session.value.rounds| == 0) ==> ExpectedStats(session, models) == []
    ensures session.Some? && |session.value.rounds| > 0 ==>
              forall i :: 0 <= i < |models| ==> IndexOfId(ExpectedStats(session, models), models[i].id).Some?
  {
    if session.Some? && |session.value.rounds| > 0 {
      var stats := ExpectedStats(session, models);
      var init := InitialStats(models);
      InitialStatsCoverSelection(models);
      forall i | 0 <= i < |models| ensures IndexOfId(stats, models[i].id).Some? {
        var k := IndexOfId(init, models[i].id).value;
        assert stats[k].modelId == models[i].id;
      }
    }
  }

  // ---------------------------------------------------------------------
  // Winner

  /** The `reduce` that keeps the better record: the position of the first
      record with the least average. */
  function WinnerIndex(stats: seq<ModelStats>): (w: nat)
    requires |stats| > 0
    ensures w < |stats|
    ensures forall k :: 0 <= k < |stats| ==> stats[w].averageRank <= stats[k].averageRank
    ensures forall k :: 0 <= k < w ==> stats[k].averageRank > stats[w].averageRank
    decreases |stats|
  {
    if |stats| == 1 then 0
    else
      var best := WinnerIndex(stats[..|stats| - 1]);
      if stats[|stats| - 1].averageRank < stats[best].averageRank then |stats| - 1 else best
  }

  /** `winner`: undefined for an empty list. */
  function Winner(stats: seq<ModelStats>): (w: Option<ModelStats>)
    ensures w.None? <==> |stats| == 0
    ensures w.Some? ==> w.value == stats[WinnerIndex(stats)]
  {
    if |stats| == 0 then None else Some(stats[WinnerIndex(stats)])
  }

  /** The announcement condition: a winner exists and the session has
      rounds. */
  predicate ShowWinner(stats: seq<ModelStats>, session: Option<ArenaSession>)
  {
    Winner(stats).Some? && session.Some? && |session.value.rounds| > 0
  }

  /** The winner is announced exactly when the session has rounds and at
      least one model was selected. */
  lemma {:induction false} ShowWinnerExactly(session: Option<ArenaSession>, models: seq<AIModel>)
    ensures ShowWinner(ExpectedStats(session, models), session) <==>
              session.Some? && |session.value.rounds| > 0 && |models| > 0
  {
    StatsPresence(session, models);
    if session.Some? && |session.value.rounds| > 0 && |models| > 0 {
      assert IndexOfId(ExpectedStats(session, models), models[0].id).Some?;
    }
  }

  /** Records without rounds are not excluded from the choice: when every
      rank is at least 1, a selected model that was never ranked beats all
      ranked ones, since its average stays 0. */
  lemma UnrankedModelWins(session: Option<ArenaSession>, models: seq<AIModel>, k: nat)
    requires k < |ExpectedStats(session, models)|
    requires ExpectedStats(session, models)[k].totalRounds == 0
    requires session.Some?
    requires forall i :: 0 <= i < |Entries(session.value.rounds)| ==> 1 <= Entries(session.value.rounds)[i].rank
    ensures Winner(ExpectedStats(session, models)).value.totalRounds == 0
  {
    var stats := ExpectedStats(session, models);
    var es := Entries(session.value.rounds);
    var w := WinnerIndex(stats);
    var init := InitialStats(models);
    StatsMeaning(session, models, k);
    if stats[w].totalRounds > 0 {
      assert stats[w] == Finish(Tally(init[w], es));
      AverageBounds(init[w], es, 1, 1 + MaxRank(es));
    }
  }

  /** The largest rank given, or 0. */
  function MaxRank(es: seq<RankingResult>): (m: int)
    ensures forall i :: 0 <= i < |es| ==> es[i].rank <= m
  {
    if |es| == 0 then 0
    else
      var rest := MaxRank(es[..|es| - 1]);
      assert forall i :: 0 <= i < |es| - 1 ==> es[..|es| - 1][i] == es[i];
      if es[|es| - 1].rank > rest then es[|es| - 1].rank else rest
  }

  /** The four entries of the worked example below. */
  function ExampleEntries(): seq<RankingResult>
  {
    [RankingResult("a", "x", 1), RankingResult("b", "y", 2), RankingResult("a", "x", 2), RankingResult("b", "y", 1)]
  }

  lemma ExampleTallyA()
    ensures Tally(ModelStats("a", "A", 0, 0.0, 0, 0, 0), ExampleEntries()) == ModelStats("a", "A", 2, 3.0, 1, 1, 0)
  {
    var es := ExampleEntries();
    var p1, p2, p3 := es[..1], es[..2], es[..3];
    assert es[..3] == p3 && p3[..2] == p2 && p2[..1] == p1 && p1[..0] == [];
    assert CountOf(p1, "a") == 1 && CountOf(p2, "a") == 1 && CountOf(p3, "a") == 2;
    assert RankSum(p1, "a") == 1 && RankSum(p2, "a") == 1 && RankSum(p3, "a") == 3;
    assert RankCountOf(p1, "a", 1) == 1 && RankCountOf(p2, "a", 1) == 1 && RankCountOf(p3, "a", 1) == 1;
    assert RankCountOf(p1, "a", 2) == 0 && RankCountOf(p2, "a", 2) == 0 && RankCountOf(p3, "a", 2) == 1;
    assert RankCountOf(p1, "a", 3) == 0 && RankCountOf(p2, "a", 3) == 0 && RankCountOf(p3, "a", 3) == 0;
  }

  lemma ExampleTallyB()
    ensures Tally(ModelStats("b", "B", 0, 0.0, 0, 0, 0), ExampleEntries()) == ModelStats("b", "B", 2, 3.0, 1, 1, 0)
  {
    var es := ExampleEntries();
    var p1, p2, p3 := es[..1], es[..2], es[..3];
    assert es[..3] == p3 && p3[..2] == p2 && p2[..1] == p1 && p1[..0] == [];
    assert CountOf(p1, "b") == 0 && CountOf(p2, "b") == 1 && CountOf(p3, "b") == 1;
    assert RankSum(p1, "b") == 0 && RankSum(p2, "b") == 2 && RankSum(p3, "b") == 2;
    assert RankCountOf(p1, "b", 1) == 0 && RankCountOf(p2, "b", 1) == 0 && RankCountOf(p3, "b", 1) == 0;
    assert RankCountOf(p1, "b", 2) == 0 && RankCountOf(p2, "b", 2) == 1 && RankCountOf(p3, "b", 2) == 1;
    assert RankCountOf(p1, "b", 3) == 0 && RankCountOf(p2, "b", 3) == 0 && RankCountOf(p3, "b", 3) == 0;
  }

  /** The session of the worked example: models a and b, each first once
      and second once over two rounds. */
  function ExampleSession(): ArenaSession
  {
    var a := AIModel("a", "A", "p", "", true);
    var b := AIModel("b", "B", "p", "", true);
    var r1 := MatchRound("r1", "", [], [RankingResult("a", "x", 1), RankingResult("b", "y", 2)], 0, true);
    var r2 := MatchRound("r2", "", [], [RankingResult("a", "x", 2), RankingResult("b", "y", 1)], 0, true);
    ArenaSession("s", [a, b], [r1, r2], 0, None, true)
  }

  lemma ExampleStats()
    ensures var stats := ExpectedStats(Some(ExampleSession()), ExampleSession().selectedModels);
            |stats| == 2 &&
            stats[0] == ModelStats("a", "A", 2, 1.5, 1, 1, 0) &&
            stats[1] == ModelStats("b", "B", 2, 1.5, 1, 1, 0)
  {
    var session := ExampleSession();
    var r1, r2 := session.rounds[0], session.rounds[1];
    InitialStatsOfDistinct(session.selectedModels);
    assert session.rounds == [r1, r2];
    assert [r1, r2][..1] == [r1];
    assert [r1][..0] == [];
    assert Entries([r1]) == r1.rankings;
    assert Entries([r1, r2]) == ExampleEntries();
    ExampleTallyA();
    ExampleTallyB();
  }

  /** Two models, two rounds, each first once and second once: both average
      1.5 with one first and one second place, and the tie goes to the
      first selected. */
  lemma TwoRoundExample()
    ensures var stats := ExpectedStats(Some(ExampleSession()), ExampleSession().selectedModels);
            |stats| == 2 &&
            stats[0] == ModelStats("a", "A", 2, 1.5, 1, 1, 0) &&
            stats[1] == ModelStats("b", "B", 2, 1.5, 1, 1, 0) &&
            Winner(stats) == Some(stats[0])
  {
    ExampleStats();
    var stats := ExpectedStats(Some(ExampleSession()), ExampleSession().selectedModels);
    assert stats[..1] == [stats[0]];
    assert WinnerIndex(stats) == 0;
  }}
