/** Ranking collection: the drag-ordered list of blind labels, the dropdown
    map from blind label to rank, and the submission that turns either into
    ranking entries. */
module RankingPanel {
  import opened Types
  import Seqs

  // ---------------------------------------------------------------------
  // Drag mode

  /** The blind labels in response order: the initial drag list. */
  function InitialItems(responses: seq<ModelResponse>): (items: seq<string>)
    ensures |items| == |responses|
    ensures forall i :: 0 <= i < |responses| ==> items[i] == responses[i].blindName
  {
    Seqs.Map((r: ModelResponse) => r.blindName, responses)
  }

  /** `items.indexOf(x)` for an element that is present. */
  function IndexOf(items: seq<string>, x: string): (i: nat)
    requires x in items
    ensures i < |items| && items[i] == x
    ensures forall j :: 0 <= j < i ==> items[j] != x
  {
    if items[0] == x then 0 else 1 + IndexOf(items[1..], x)
  }

  /** `arrayMove(items, from, to)`: take the element out at `from`, then
      insert it at `to` in what remains. */
  function ArrayMove(items: seq<string>, from: nat, to: nat): (r: seq<string>)
    requires from < |items| && to < |items|
    ensures |r| == |items| && multiset(r) == multiset(items)
    ensures r[to] == items[from]
  {
    var rest := items[..from] + items[from + 1..];
    Seqs.RemoveAt(items, from);
    assert rest[..to] + rest[to..] == rest;
    assert multiset(rest[..to] + [items[from]] + rest[to..]) == multiset(rest) + multiset{items[from]};
    rest[..to] + [items[from]] + rest[to..]
  }

  /** `handleDragEnd`: nothing happens without a target or when an item
      is dropped on itself; otherwise the dragged label moves to the
      target's place and the list stays a rearrangement of itself. */
  function HandleDragEnd(items: seq<string>, active: string, over: Option<string>): (r: seq<string>)
    requires active in items
    requires over.Some? ==> over.value in items
    ensures over.None? || over.value == active ==> r == items
    ensures |r| == |items| && multiset(r) == multiset(items)
    ensures over.Some? && over.value != active ==> r[IndexOf(items, over.value)] == active
  {
    if over.Some? && active != over.value then
      ArrayMove(items, IndexOf(items, active), IndexOf(items, over.value))
    else
      items
  }

  // ---------------------------------------------------------------------
  // Dropdown mode

  /** `handleDropdownChange` as a value: every label holding `rank` loses
      it, then `blindName` gets `rank`, or loses its entry when `rank` is
      the empty choice. */
  function Reassign(m: map<string, int>, blindName: string, rank: int): (r: map<string, int>)
    ensures rank > 0 ==> blindName in r && r[blindName] == rank
    ensures rank <= 0 ==> blindName !in r
    ensures forall k :: k in r && k != blindName ==> k in m && r[k] == m[k] && m[k] != rank
    ensures forall k :: k in m && k != blindName && m[k] != rank ==> k in r
  {
    var kept := map k | k in m && m[k] != rank :: m[k];
    if rank > 0 then kept[blindName := rank] else kept - {blindName}
  }

  /** `handleDropdownChange`: copies the map, deletes every key holding
      `rank` one key at a time, then assigns or deletes `blindName`. */
  method HandleDropdownChange(current: map<string, int>, blindName: string, rank: int)
    returns (next: map<string, int>)
    ensures next == Reassign(current, blindName, rank)
  {
    next := current;
    var pending := current.Keys;
    while pending != {}
      invariant pending <= current.Keys
      invariant next == map k | k in current && (k in pending || current[k] != rank) :: current[k]
      decreases pending
    {
      var key :| key in pending;
      if next[key] == rank {
        next := next - {key};
      }
      pending := pending - {key};
    }
    if rank > 0 {
      next := next[blindName := rank];
    } else {
      next := next - {blindName};
    }
  }

  /** No two labels hold the same rank. */
  predicate UniqueRanks(m: map<string, int>)
  {
    forall a, b :: a in m && b in m && a != b ==> m[a] != m[b]
  }

  /** The dropdown never lets two labels share a rank. */
  lemma ReassignKeepsRanksUnique(m: map<string, int>, blindName: string, rank: int)
    requires UniqueRanks(m)
    ensures UniqueRanks(Reassign(m, blindName, rank))
  {
  }

  /** The per-option rule: a rank is disabled for a label when another
      label holds it. */
  predicate OptionDisabled(m: map<string, int>, blindName: string, rank: int)
  {
    rank in m.Values && (blindName !in m || m[blindName] != rank)
  }

  /** Picking an enabled option changes the picking label's entry and no
      other. */
  lemma {:induction false} EnabledChoiceEvictsNobody(m: map<string, int>, blindName: string, rank: int)
    requires UniqueRanks(m)
    requires rank > 0 && !OptionDisabled(m, blindName, rank)
    ensures Reassign(m, blindName, rank) == m[blindName := rank]
  {
    var r := Reassign(m, blindName, rank);
    forall k | k in m && k != blindName
      ensures k in r && r[k] == m[k]
    {
      assert m[k] in m.Values;
    }
  }

  /** An option is disabled exactly when some other label holds its rank. */
  lemma {:induction false} OptionDisabledMeaning(m: map<string, int>, blindName: string, rank: int)
    requires UniqueRanks(m)
    ensures OptionDisabled(m, blindName, rank) <==> exists k :: k in m && k != blindName && m[k] == rank
  {
    if OptionDisabled(m, blindName, rank) {
      var k :| k in m && m[k] == rank;
      assert k != blindName;
    }
    if exists k :: k in m && k != blindName && m[k] == rank {
      var k :| k in m && k != blindName && m[k] == rank;
      assert m[k] in m.Values;
    }
  }

  /** The set of the responses' blind labels. */
  function LabelSet(responses: seq<ModelResponse>): set<string>
  {
    set i | 0 <= i < |responses| :: responses[i].blindName
  }

  /** What the dropdown map can hold: labels of the responses, mapped to
      distinct ranks among those offered, 1..N. */
  predicate DropdownWellFormed(m: map<string, int>, responses: seq<ModelResponse>)
  {
    m.Keys <= LabelSet(responses) &&
    (forall k :: k in m ==> 1 <= m[k] <= |responses|) &&
    UniqueRanks(m)
  }

  /** Choosing, for one of the responses' labels, one of the offered ranks
      or the empty choice keeps the map well formed. */
  lemma ChoiceKeepsWellFormed(m: map<string, int>, responses: seq<ModelResponse>, i: nat, rank: int)
    requires DropdownWellFormed(m, responses)
    requires i < |responses| && 0 <= rank <= |responses|
    ensures DropdownWellFormed(Reassign(m, responses[i].blindName, rank), responses)
  {
  }

  // ---------------------------------------------------------------------
  // Submission

  /** `isSubmitDisabled`: only the dropdown can be incomplete. */
  predicate IsSubmitDisabled(useDropdown: bool, m: map<string, int>, count: nat)
  {
    useDropdown && |m| != count
  }

  /** `responses.find(r => r.blindName === b)`. */
  function FindByBlindName(responses: seq<ModelResponse>, b: string): (r: Option<ModelResponse>)
    ensures r.Some? ==> r.value in responses && r.value.blindName == b
    ensures r.None? ==> forall i :: 0 <= i < |responses| ==> responses[i].blindName != b
    ensures forall i ::
              (0 <= i < |responses| && responses[i].blindName == b && forall j :: 0 <= j < i ==> responses[j].blindName != b) ==>
              r == Some(responses[i])
  {
    if |responses| == 0 then None
    else if responses[0].blindName == b then Some(responses[0])
    else
      var rest := responses[1..];
      assert forall i :: 1 <= i < |responses| ==> responses[i] == rest[i - 1];
      FindByBlindName(rest, b)
  }

  /** Drag ranking: the label at position i gets rank i + 1 and the model
      of the response bearing it. */
  function DragRankings(items: seq<string>, responses: seq<ModelResponse>): (rs: seq<RankingResult>)
    requires forall b :: b in items ==> b in LabelSet(responses)
    ensures |rs| == |items|
    ensures forall i :: 0 <= i < |items| ==>
              rs[i].rank == i + 1 && rs[i].blindName == items[i] &&
              FindByBlindName(responses, items[i]).Some? &&
              rs[i].modelId == FindByBlindName(responses, items[i]).value.modelId
  {
    LabelsAreFound(responses, items);
    seq(|items|, i requires 0 <= i < |items| =>
      var found := FindByBlindName(responses, items[i]);
      RankingResult(found.value.modelId, found.value.blindName, i + 1))
  }

  /** Looking up one of the responses' labels finds a response. */
  lemma LabelsAreFound(responses: seq<ModelResponse>, items: seq<string>)
    requires forall b :: b in items ==> b in LabelSet(responses)
    ensures forall i :: 0 <= i < |items| ==> FindByBlindName(responses, items[i]).Some?
  {
    forall i | 0 <= i < |items| ensures FindByBlindName(responses, items[i]).Some? {
      assert items[i] in items;
      var j :| 0 <= j < |responses| && responses[j].blindName == items[i];
    }
  }

  /** Dropdown ranking: one entry per response, in response order. */
  function DropdownRankings(m: map<string, int>, responses: seq<ModelResponse>): (rs: seq<RankingResult>)
    requires LabelSet(responses) <= m.Keys
    ensures |rs| == |responses|
    ensures forall i :: 0 <= i < |responses| ==>
              rs[i] == RankingResult(responses[i].modelId, responses[i].blindName, m[responses[i].blindName])
  {
    seq(|responses|, i requires 0 <= i < |responses| =>
      RankingResult(responses[i].modelId, responses[i].blindName, m[responses[i].blindName]))
  }

  /** A set has no more elements than the sequence listing it. */
  lemma {:induction false} LabelSetSize(responses: seq<ModelResponse>)
    ensures |LabelSet(responses)| <= |responses|
  {
    if |responses| > 0 {
      var init := responses[..|responses| - 1];
      LabelSetSize(init);
      assert LabelSet(responses) == LabelSet(init) + {responses[|responses| - 1].blindName} by {
        forall b | b in LabelSet(responses) ensures b in LabelSet(init) + {responses[|responses| - 1].blindName} {
          var i :| 0 <= i < |responses| && responses[i].blindName == b;
          if i < |responses| - 1 {
            assert init[i] == responses[i];
          }
        }
      }
    }
  }

  /** A dropdown map with one key per response, all of them labels, holds
      every label. */
  lemma {:induction false} FullMapHoldsEveryLabel(m: map<string, int>, responses: seq<ModelResponse>)
    requires m.Keys <= LabelSet(responses) && |m| == |responses|
    ensures LabelSet(responses) <= m.Keys
  {
    LabelSetSize(responses);
    var labels := LabelSet(responses);
    assert labels == m.Keys + (labels - m.Keys);
    assert |labels| == |m.Keys| + |labels - m.Keys|;
    assert |m.Keys| == |m|;
    assert labels - m.Keys == {};
  }

  /** `handleSubmit`: a rejected dropdown submission (the alert) is `None`,
      otherwise the entries passed to `onSubmit`.  It is rejected exactly
      when the submit button is disabled. */
  function HandleSubmit(useDropdown: bool, items: seq<string>, m: map<string, int>,
                        responses: seq<ModelResponse>): (o: Option<seq<RankingResult>>)
    requires useDropdown ==> m.Keys <= LabelSet(responses)
    requires !useDropdown ==> forall b :: b in items ==> b in LabelSet(responses)
    ensures o.None? <==> IsSubmitDisabled(useDropdown, m, |responses|)
  {
    if useDropdown then
      if |m| != |responses| then None
      else
        FullMapHoldsEveryLabel(m, responses);
        Some(DropdownRankings(m, responses))
    else
      Some(DragRankings(items, responses))
  }

  // ---------------------------------------------------------------------
  // What an accepted submission is

  /** The ranks are 1..N, each once. */
  predicate RanksArePermutation(rs: seq<RankingResult>)
  {
    (forall i :: 0 <= i < |rs| ==> 1 <= rs[i].rank <= |rs|) &&
    (forall i, j :: 0 <= i < j < |rs| ==> rs[i].rank != rs[j].rank)
  }

  function EntrySlot(e: RankingResult): (string, string)
  {
    (e.modelId, e.blindName)
  }

  function ResponseSlot(r: ModelResponse): (string, string)
  {
    (r.modelId, r.blindName)
  }

  /** The entries name the responses' (model, label) pairs, each exactly as
      often as the responses do. */
  predicate OneEntryPerResponse(rs: seq<RankingResult>, responses: seq<ModelResponse>)
  {
    multiset(Seqs.Map(EntrySlot, rs)) == multiset(Seqs.Map(ResponseSlot, responses))
  }

  /** The slot of the response bearing a label. */
  function SlotByLabel(responses: seq<ModelResponse>, b: string): (string, string)
  {
    var found := FindByBlindName(responses, b);
    if found.Some? then ResponseSlot(found.value) else ("", b)
  }

  /** With distinct labels, looking a response up by its own label finds it. */
  lemma {:induction false} FindOwnLabel(responses: seq<ModelResponse>, i: nat)
    requires Seqs.Distinct(InitialItems(responses)) && i < |responses|
    ensures FindByBlindName(responses, responses[i].blindName) == Some(responses[i])
  {
    if i > 0 {
      assert responses[0].blindName == InitialItems(responses)[0] != InitialItems(responses)[i];
      var tail := responses[1..];
      assert InitialItems(tail) == InitialItems(responses)[1..];
      assert tail[i - 1] == responses[i];
      FindOwnLabel(tail, i - 1);
    }
  }

  /** A rearrangement of the labels holds only labels. */
  lemma ItemsAreLabels(items: seq<string>, responses: seq<ModelResponse>)
    requires multiset(items) == multiset(InitialItems(responses))
    ensures forall b :: b in items ==> b in LabelSet(responses)
  {
    forall b | b in items ensures b in LabelSet(responses) {
      assert b in multiset(InitialItems(responses));
      var i :| 0 <= i < |responses| && InitialItems(responses)[i] == b;
    }
  }

  /** Each drag entry's slot is the slot of the response its label names. */
  lemma DragSlots(items: seq<string>, responses: seq<ModelResponse>)
    requires forall b :: b in items ==> b in LabelSet(responses)
    ensures Seqs.Map(EntrySlot, DragRankings(items, responses)) == Seqs.Map(b => SlotByLabel(responses, b), items)
  {
  }

  /** Slotting the labels by name gives back the responses' own slots. */
  lemma {:induction false} OwnSlots(responses: seq<ModelResponse>)
    requires Seqs.Distinct(InitialItems(responses))
    ensures Seqs.Map(b => SlotByLabel(responses, b), InitialItems(responses)) == Seqs.Map(ResponseSlot, responses)
  {
    forall i | 0 <= i < |responses|
      ensures Seqs.Map(b => SlotByLabel(responses, b), InitialItems(responses))[i] == Seqs.Map(ResponseSlot, responses)[i]
    {
      FindOwnLabel(responses, i);
    }
  }

  /** The drag entries' slots are the responses' slots, rearranged. */
  lemma {:induction false} DragEntriesPermuteResponses(items: seq<string>, responses: seq<ModelResponse>)
    requires Seqs.Distinct(InitialItems(responses))
    requires multiset(items) == multiset(InitialItems(responses))
    ensures forall b :: b in items ==> b in LabelSet(responses)
    ensures OneEntryPerResponse(DragRankings(items, responses), responses)
  {
    ItemsAreLabels(items, responses);
    DragSlots(items, responses);
    OwnSlots(responses);
    Seqs.MapPermutation(b => SlotByLabel(responses, b), items, InitialItems(responses));
  }

  /** The numbers 1..n. */
  function RankRange(n: nat): (r: set<int>)
    ensures |r| == n
    ensures forall k :: k in r <==> 1 <= k <= n
  {
    if n == 0 then {} else RankRange(n - 1) + {n}
  }

  function RankSet(rs: seq<RankingResult>): set<int>
  {
    set i | 0 <= i < |rs| :: rs[i].rank
  }

  lemma {:induction false} RankSetSize(rs: seq<RankingResult>)
    requires forall i, j :: 0 <= i < j < |rs| ==> rs[i].rank != rs[j].rank
    ensures |RankSet(rs)| == |rs|
  {
    if |rs| > 0 {
      var init := rs[..|rs| - 1];
      RankSetSize(init);
      var last := rs[|rs| - 1].rank;
      assert RankSet(rs) == RankSet(init) + {last} by {
        forall x | x in RankSet(rs) ensures x in RankSet(init) + {last} {
          var i :| 0 <= i < |rs| && rs[i].rank == x;
          if i < |rs| - 1 {
            assert init[i] == rs[i];
          }
        }
      }
      assert last !in RankSet(init);
    }
  }

  /** Distinct ranks within 1..N over N entries use every rank of 1..N: no
      rank is skipped. */
  lemma {:induction false} PermutationUsesEveryRank(rs: seq<RankingResult>)
    requires RanksArePermutation(rs)
    ensures RankSet(rs) == RankRange(|rs|)
  {
    RankSetSize(rs);
    var used, all := RankSet(rs), RankRange(|rs|);
    assert used <= all;
    assert all == used + (all - used);
    assert |all| == |used| + |all - used|;
    assert all - used == {};
  }

  /** An accepted dropdown submission lists the responses in order, each
      with its chosen rank, and the ranks are 1..N each once. */
  lemma {:induction false} DropdownSubmissionComplete(m: map<string, int>, responses: seq<ModelResponse>)
    requires Seqs.Distinct(InitialItems(responses))
    requires DropdownWellFormed(m, responses) && |m| == |responses|
    ensures LabelSet(responses) <= m.Keys
    ensures var rs := DropdownRankings(m, responses);
            RanksArePermutation(rs) && RankSet(rs) == RankRange(|responses|) &&
            OneEntryPerResponse(rs, responses) &&
            forall i :: 0 <= i < |responses| ==>
              rs[i].modelId == responses[i].modelId && rs[i].blindName == responses[i].blindName
  {
    FullMapHoldsEveryLabel(m, responses);
    var rs := DropdownRankings(m, responses);
    DropdownRanksDistinct(m, responses);
    DropdownSlotsMatch(m, responses);
    PermutationUsesEveryRank(rs);
  }

  /** Distinct labels carry distinct chosen ranks. */
  lemma DropdownRanksDistinct(m: map<string, int>, responses: seq<ModelResponse>)
    requires Seqs.Distinct(InitialItems(responses))
    requires DropdownWellFormed(m, responses) && LabelSet(responses) <= m.Keys
    ensures RanksArePermutation(DropdownRankings(m, responses))
  {
    var rs := DropdownRankings(m, responses);
    forall i, j | 0 <= i < j < |rs| ensures rs[i].rank != rs[j].rank {
      assert rs[i].blindName == InitialItems(responses)[i] != InitialItems(responses)[j] == rs[j].blindName;
    }
  }

  /** The dropdown entries carry the responses' (model, label) pairs in
      response order. */
  lemma DropdownSlotsMatch(m: map<string, int>, responses: seq<ModelResponse>)
    requires LabelSet(responses) <= m.Keys
    ensures Seqs.Map(EntrySlot, DropdownRankings(m, responses)) == Seqs.Map(ResponseSlot, responses)
  {
  }

  /** An accepted drag submission has one entry per response and ranks 1..N
      each once. */
  lemma {:induction false} DragSubmissionComplete(items: seq<string>, responses: seq<ModelResponse>)
    requires Seqs.Distinct(InitialItems(responses))
    requires multiset(items) == multiset(InitialItems(responses))
    ensures forall b :: b in items ==> b in LabelSet(responses)
    ensures var rs := DragRankings(items, responses);
            |rs| == |responses| &&
            RanksArePermutation(rs) && RankSet(rs) == RankRange(|responses|) &&
            OneEntryPerResponse(rs, responses)
  {
    DragEntriesPermuteResponses(items, responses);
    var rs := DragRankings(items, responses);
    assert |multiset(items)| == |multiset(InitialItems(responses))|;
    assert RanksArePermutation(rs);
    PermutationUsesEveryRank(rs);
  }

  /** The central property: an accepted submission, in either mode, has
      exactly one entry per response and ranks forming a permutation of
      1..N.  Dropdown entries also follow response order. */
  lemma {:induction false} SubmittedRankingIsComplete(useDropdown: bool, items: seq<string>, m: map<string, int>,
                                                       responses: seq<ModelResponse>)
    requires Seqs.Distinct(InitialItems(responses))
    requires useDropdown ==> DropdownWellFormed(m, responses)
    requires !useDropdown ==> multiset(items) == multiset(InitialItems(responses))
    ensures useDropdown ==> m.Keys <= LabelSet(responses)
    ensures !useDropdown ==> forall b :: b in items ==> b in LabelSet(responses)
    ensures var o := HandleSubmit(useDropdown, items, m, responses);
            o.Some? ==>
              |o.value| == |responses| &&
              RanksArePermutation(o.value) && RankSet(o.value) == RankRange(|responses|) &&
              OneEntryPerResponse(o.value, responses) &&
              (useDropdown ==> forall i :: 0 <= i < |responses| ==>
                 o.value[i].modelId == responses[i].modelId && o.value[i].blindName == responses[i].blindName)
  {
    if useDropdown {
      if |m| == |responses| {
        DropdownSubmissionComplete(m, responses);
      }
    } else {
      DragSubmissionComplete(items, responses);
    }
  }
}
