/** The model selection page: which models are offered, how a click
    toggles a model in or out of the selection under the limit of three,
    when a session may start, and the grouping of the offer by provider. */
module ModelSelection {
  import opened Types
  import Config
  import Seqs

  /** The error shown when a fourth model is clicked. */
  const TooManyMessage: string := "最多只能選擇 3 個模型"

  /** The error shown when starting with no model selected. */
  const TooFewMessage: string := "請至少選擇 1 個模型"

  // ---------------------------------------------------------------------
  // The offer

  /** `availableModels`: the catalogue entries flagged available, in
      catalogue order (`AvailableConcat`). */
  function Available(catalogue: seq<AIModel>): (r: seq<AIModel>)
    ensures |r| <= |catalogue|
    ensures forall m :: m in r <==> m in catalogue && m.available
  {
    if |catalogue| == 0 then []
    else (if catalogue[0].available then [catalogue[0]] else []) + Available(catalogue[1..])
  }

  /** Filtering distributes over concatenation, so the kept entries stay
      in catalogue order. */
  lemma {:induction false} AvailableConcat(xs: seq<AIModel>, ys: seq<AIModel>)
    ensures Available(xs + ys) == Available(xs) + Available(ys)
  {
    if |xs| > 0 {
      var head := if xs[0].available then [xs[0]] else [];
      assert (xs + ys)[1..] == xs[1..] + ys;
      assert Available(xs + ys) == head + Available(xs[1..] + ys);
      assert Available(xs) == head + Available(xs[1..]);
      AvailableConcat(xs[1..], ys);
    } else {
      assert xs + ys == ys;
    }
  }

  /** Filtering a catalogue whose entries are all available changes
      nothing. */
  lemma {:induction false} AvailableKeepsAll(catalogue: seq<AIModel>)
    requires forall m :: m in catalogue ==> m.available
    ensures Available(catalogue) == catalogue
  {
    if |catalogue| > 0 {
      assert catalogue[0] in catalogue;
      forall m | m in catalogue[1..] ensures m.available {
        assert m in catalogue;
      }
      AvailableKeepsAll(catalogue[1..]);
    }
  }

  /** The page offers the whole catalogue, in catalogue order. */
  lemma OfferIsCatalogue()
    ensures Available(Config.AvailableModels) == Config.AvailableModels
  {
    Config.CatalogueWellFormed();
    AvailableKeepsAll(Config.AvailableModels);
  }

  // ---------------------------------------------------------------------
  // Toggling

  /** `selectedModels.find(m => m.id === id)` finds something. */
  predicate IsSelected(selection: seq<AIModel>, id: string)
  {
    exists i :: 0 <= i < |selection| && selection[i].id == id
  }

  /** `selectedModels.filter(m => m.id !== id)`. */
  function Without(selection: seq<AIModel>, id: string): (r: seq<AIModel>)
    ensures |r| <= |selection|
    ensures forall m :: m in r <==> m in selection && m.id != id
  {
    if |selection| == 0 then []
    else (if selection[0].id != id then [selection[0]] else []) + Without(selection[1..], id)
  }

  /** The selection and the error message after a click. */
  datatype ToggleResult = ToggleResult(selection: seq<AIModel>, error: Option<string>)

  /** `toggleModel`: clears the error, then removes a selected model, or
      appends an unselected one unless three are already selected, in
      which case the selection stays and the error is set. */
  function ToggleModel(selection: seq<AIModel>, model: AIModel): (t: ToggleResult)
    ensures t.error.Some? <==> !IsSelected(selection, model.id) && |selection| >= Config.MaxModelsPerRound
    ensures t.error.Some? ==> t.error.value == TooManyMessage && t.selection == selection
  {
    if IsSelected(selection, model.id) then ToggleResult(Without(selection, model.id), None)
    else if |selection| >= Config.MaxModelsPerRound then ToggleResult(selection, Some(TooManyMessage))
    else ToggleResult(selection + [model], None)
  }

  /** A selection the page can hold: at most three models, no id twice. */
  predicate ValidSelection(selection: seq<AIModel>)
  {
    |selection| <= Config.MaxModelsPerRound && DistinctIds(selection)
  }

  /** Removing an id keeps the remaining ids distinct. */
  lemma {:induction false} WithoutKeepsDistinct(selection: seq<AIModel>, id: string)
    requires DistinctIds(selection)
    ensures DistinctIds(Without(selection, id))
  {
    if |selection| > 0 {
      var tail := selection[1..];
      assert DistinctIds(tail) by {
        forall i, j | 0 <= i < j < |tail| ensures tail[i].id != tail[j].id {
          assert tail[i] == selection[i + 1] && tail[j] == selection[j + 1];
        }
      }
      WithoutKeepsDistinct(tail, id);
      var rest := Without(tail, id);
      forall k | 0 <= k < |rest| ensures rest[k].id != selection[0].id {
        assert rest[k] in tail;
        var j :| 0 <= j < |tail| && tail[j] == rest[k];
        assert selection[j + 1] == rest[k];
      }
    }
  }

  /** A click keeps the selection valid. */
  lemma ToggleKeepsValid(selection: seq<AIModel>, model: AIModel)
    requires ValidSelection(selection)
    ensures ValidSelection(ToggleModel(selection, model).selection)
  {
    if IsSelected(selection, model.id) {
      WithoutKeepsDistinct(selection, model.id);
    }
  }

  /** Where a click puts things: an unselected model below the limit goes
      at the end; a selected model, when ids are distinct, is taken out of
      its position with the others keeping their order. */
  lemma ToggleKeepsOrder(selection: seq<AIModel>, model: AIModel)
    ensures !IsSelected(selection, model.id) && |selection| < Config.MaxModelsPerRound ==>
              ToggleModel(selection, model).selection == selection + [model]
    ensures forall k :: DistinctIds(selection) && 0 <= k < |selection| && selection[k].id == model.id ==>
              ToggleModel(selection, model).selection == selection[..k] + selection[k + 1..]
  {
    forall k | DistinctIds(selection) && 0 <= k < |selection| && selection[k].id == model.id
      ensures ToggleModel(selection, model).selection == selection[..k] + selection[k + 1..]
    {
      RemoveAtPosition(selection, k);
    }
  }

  /** A click flips the clicked model's membership, except at the limit,
      and leaves every other id's membership as it was. */
  lemma ToggleMembership(selection: seq<AIModel>, model: AIModel, id: string)
    ensures var after := ToggleModel(selection, model).selection;
            if id == model.id then
              IsSelected(after, id) <==> !IsSelected(selection, id) && |selection| < Config.MaxModelsPerRound
            else
              IsSelected(after, id) <==> IsSelected(selection, id)
  {
    var after := ToggleModel(selection, model).selection;
    if IsSelected(selection, model.id) {
      if IsSelected(after, id) {
        var i :| 0 <= i < |after| && after[i].id == id;
        assert after[i] in after;
        var j :| 0 <= j < |selection| && selection[j] == after[i];
      }
      if id != model.id && IsSelected(selection, id) {
        var i :| 0 <= i < |selection| && selection[i].id == id;
        assert selection[i] in selection;
        var j :| 0 <= j < |after| && after[j] == selection[i];
      }
    } else if |selection| < Config.MaxModelsPerRound {
      assert after[|selection|] == model;
      if IsSelected(after, id) && id != model.id {
        var i :| 0 <= i < |after| && after[i].id == id;
        assert i < |selection| && selection[i] == after[i];
      }
      if IsSelected(selection, id) {
        var i :| 0 <= i < |selection| && selection[i].id == id;
        assert after[i] == selection[i];
      }
    }
  }

  /** Removing an id nobody has changes nothing. */
  lemma {:induction false} RemoveAbsent(selection: seq<AIModel>, id: string)
    requires !IsSelected(selection, id)
    ensures Without(selection, id) == selection
  {
    if |selection| > 0 {
      TailNotSelected(selection, id);
      RemoveAbsent(selection[1..], id);
      assert selection == [selection[0]] + selection[1..];
    }
  }

  lemma TailNotSelected(selection: seq<AIModel>, id: string)
    requires !IsSelected(selection, id) && |selection| > 0
    ensures !IsSelected(selection[1..], id)
    ensures selection[0].id != id
  {
    var tail := selection[1..];
    forall i | 0 <= i < |tail| ensures tail[i].id != id {
      assert tail[i] == selection[i + 1];
    }
  }

  lemma TailKeepsDistinct(selection: seq<AIModel>)
    requires DistinctIds(selection) && |selection| > 0
    ensures DistinctIds(selection[1..])
  {
    var tail := selection[1..];
    forall i, j | 0 <= i < j < |tail| ensures tail[i].id != tail[j].id {
      assert tail[i] == selection[i + 1] && tail[j] == selection[j + 1];
    }
  }

  /** Removing an id drops exactly the model at its position when ids are
      distinct: the others keep their order. */
  lemma {:induction false} RemoveAtPosition(selection: seq<AIModel>, k: nat)
    requires DistinctIds(selection) && k < |selection|
    ensures Without(selection, selection[k].id) == selection[..k] + selection[k + 1..]
  {
    var id := selection[k].id;
    var tail := selection[1..];
    if k == 0 {
      RemoveAbsent(tail, id);
    } else {
      TailKeepsDistinct(selection);
      assert tail[k - 1] == selection[k];
      RemoveAtPosition(tail, k - 1);
      Seqs.SlicesOfTail(selection, k);
    }
  }

  /** Selecting a model and clicking it again restores the selection. */
  lemma AddThenRemoveRestores(selection: seq<AIModel>, model: AIModel)
    requires !IsSelected(selection, model.id) && |selection| < Config.MaxModelsPerRound
    ensures ToggleModel(ToggleModel(selection, model).selection, model).selection == selection
  {
    var added := selection + [model];
    assert added[|selection|] == model;
    RemoveAbsent(selection, model.id);
    assert Without([model], model.id) == [];
    WithoutConcat(selection, [model], model.id);
  }

  lemma {:induction false} WithoutConcat(xs: seq<AIModel>, ys: seq<AIModel>, id: string)
    ensures Without(xs + ys, id) == Without(xs, id) + Without(ys, id)
  {
    if |xs| > 0 {
      var head := if xs[0].id != id then [xs[0]] else [];
      assert (xs + ys)[1..] == xs[1..] + ys;
      assert Without(xs + ys, id) == head + Without(xs[1..] + ys, id);
      assert Without(xs, id) == head + Without(xs[1..], id);
      WithoutConcat(xs[1..], ys, id);
    } else {
      assert xs + ys == ys;
    }
  }

  /** The selection after a series of clicks, starting from none. */
  function AfterClicks(clicks: seq<AIModel>): seq<AIModel>
  {
    if |clicks| == 0 then [] else ToggleModel(AfterClicks(clicks[..|clicks| - 1]), clicks[|clicks| - 1]).selection
  }

  /** Whatever the clicks, the selection is valid. */
  lemma {:induction false} ClicksKeepValid(clicks: seq<AIModel>)
    ensures ValidSelection(AfterClicks(clicks))
  {
    if |clicks| > 0 {
      ClicksKeepValid(clicks[..|clicks| - 1]);
      ToggleKeepsValid(AfterClicks(clicks[..|clicks| - 1]), clicks[|clicks| - 1]);
    }
  }

  // ---------------------------------------------------------------------
  // Starting

  /** What the start button does: refuse with an error, or start a session
      with the selection. */
  datatype StartDecision = Refuse(message: string) | StartWith(models: seq<AIModel>)

  /** `handleStart`. */
  function HandleStart(selection: seq<AIModel>): (d: StartDecision)
    ensures d.Refuse? <==> |selection| < Config.MinModelsPerRound
    ensures d.Refuse? ==> d.message == TooFewMessage
    ensures d.StartWith? ==> d.models == selection
  {
    if |selection| < Config.MinModelsPerRound then Refuse(TooFewMessage) else StartWith(selection)
  }

  /** A session started from the page has one to three models with distinct
      ids. */
  lemma StartedSelectionInBounds(clicks: seq<AIModel>)
    ensures var d := HandleStart(AfterClicks(clicks));
            d.StartWith? ==>
              Config.MinModelsPerRound <= |d.models| <= Config.MaxModelsPerRound && DistinctIds(d.models)
  {
    ClicksKeepValid(clicks);
  }

  // ---------------------------------------------------------------------
  // Grouping by provider

  /** The models of one provider, in order. */
  function OfProvider(models: seq<AIModel>, provider: string): (g: seq<AIModel>)
    ensures forall m :: m in g <==> m in models && m.provider == provider
  {
    if |models| == 0 then []
    else
      var last := models[|models| - 1];
      assert models == models[..|models| - 1] + [last];
      OfProvider(models[..|models| - 1], provider) + (if last.provider == provider then [last] else [])
  }

  /** The providers, each once, in order of first appearance. */
  function ProvidersOf(models: seq<AIModel>): (ps: seq<string>)
    ensures forall i, j :: 0 <= i < j < |ps| ==> ps[i] != ps[j]
    ensures forall i :: 0 <= i < |models| ==> models[i].provider in ps
  {
    if |models| == 0 then []
    else
      var init := models[..|models| - 1];
      var last := models[|models| - 1];
      var ps := ProvidersOf(init);
      assert forall i :: 0 <= i < |init| ==> models[i] == init[i];
      if last.provider in ps then ps
      else ps + [last.provider]
  }

  /** Every listed provider has a model. */
  lemma {:induction false} ProvidersAreUsed(models: seq<AIModel>, k: nat)
    requires k < |ProvidersOf(models)|
    ensures exists i :: 0 <= i < |models| && models[i].provider == ProvidersOf(models)[k]
  {
    var init := models[..|models| - 1];
    if k < |ProvidersOf(init)| {
      ProvidersAreUsed(init, k);
      var i :| 0 <= i < |init| && init[i].provider == ProvidersOf(init)[k];
      assert models[i] == init[i];
    } else {
      assert ProvidersOf(models)[k] == models[|models| - 1].provider;
    }
  }

  /** Appending one model extends its provider's group and, for a new
      provider, the provider list. */
  lemma AppendStep(seen: seq<AIModel>, m: AIModel)
    ensures forall p :: OfProvider(seen + [m], p) ==
              OfProvider(seen, p) + (if m.provider == p then [m] else [])
    ensures ProvidersOf(seen + [m]) ==
              if m.provider in ProvidersOf(seen) then ProvidersOf(seen) else ProvidersOf(seen) + [m.provider]
  {
    assert (seen + [m])[..|seen|] == seen;
  }

  /** A provider not yet met has no models so far. */
  lemma NewProviderHasNoGroup(models: seq<AIModel>, p: string)
    requires p !in ProvidersOf(models)
    ensures OfProvider(models, p) == []
  {
  }

  /** The `reduce` callback: create the provider's list the first time
      the provider is met, then push the model onto it.  Given the record
      built from the models `seen` so far, it returns the record of
      `seen + [model]`. */
  method Push(ghost seen: seq<AIModel>, providers: seq<string>, groups: map<string, seq<AIModel>>, model: AIModel)
    returns (providers': seq<string>, groups': map<string, seq<AIModel>>)
    requires providers == ProvidersOf(seen)
    requires forall p :: p in groups <==> p in providers
    requires forall p :: p in groups ==> groups[p] == OfProvider(seen, p)
    ensures providers' == ProvidersOf(seen + [model])
    ensures forall p :: p in groups' <==> p in providers'
    ensures forall p :: p in groups' ==> groups'[p] == OfProvider(seen + [model], p)
  {
    AppendStep(seen, model);
    var q := model.provider;
    providers', groups' := providers, groups;
    if q !in groups' {
      NewProviderHasNoGroup(seen, q);
      groups' := groups'[q := []];
      providers' := providers' + [q];
    }
    groups' := groups'[q := groups'[q] + [model]];
    forall p | p in groups' ensures groups'[p] == OfProvider(seen + [model], p) {
      if p != q {
        assert groups'[p] == groups[p];
      }
    }
  }

  /** `modelsByProvider`: the `reduce` that creates a provider's list the
      first time the provider is met and pushes each model onto its
      provider's list.  `providers` is the record's key order. */
  method ModelsByProvider(models: seq<AIModel>) returns (providers: seq<string>, groups: map<string, seq<AIModel>>)
    ensures providers == ProvidersOf(models)
    ensures forall p :: p in groups <==> p in providers
    ensures forall p :: p in groups ==> groups[p] == OfProvider(models, p)
  {
    providers := [];
    groups := map[];
    var i := 0;
    while i < |models|
      invariant 0 <= i <= |models|
      invariant providers == ProvidersOf(models[..i])
      invariant forall p :: p in groups <==> p in providers
      invariant forall p :: p in groups ==> groups[p] == OfProvider(models[..i], p)
    {
      Seqs.PrefixSnoc(models, i);
      providers, groups := Push(models[..i], providers, groups, models[i]);
      i := i + 1;
    }
    assert models[..i] == models;
  }

  /** Every model is in its provider's group, and in no other. */
  lemma EachModelInOneGroup(models: seq<AIModel>, m: AIModel, p: string)
    requires m in models && p in ProvidersOf(models)
    ensures m in OfProvider(models, p) <==> p == m.provider
    ensures m.provider in ProvidersOf(models)
  {
    var i :| 0 <= i < |models| && models[i] == m;
  }

  /** Within a group the models keep their relative order from the offer:
      the group is the offer with the other providers' models left out. */
  lemma {:induction false} GroupKeepsOrder(models: seq<AIModel>, p: string, i: nat, j: nat)
    requires i < j < |models| && models[i].provider == p && models[j].provider == p
    ensures exists a, b :: 0 <= a < b < |OfProvider(models, p)| &&
              OfProvider(models, p)[a] == models[i] && OfProvider(models, p)[b] == models[j]
    decreases |models|
  {
    var init := models[..|models| - 1];
    assert models[i] in init;
    if j < |models| - 1 {
      assert init[i] == models[i] && init[j] == models[j];
      GroupKeepsOrder(init, p, i, j);
      var a, b :| 0 <= a < b < |OfProvider(init, p)| &&
                  OfProvider(init, p)[a] == models[i] && OfProvider(init, p)[b] == models[j];
      assert OfProvider(models, p)[a] == models[i] && OfProvider(models, p)[b] == models[j];
    } else {
      var g := OfProvider(init, p);
      assert models[i] in g;
      var a :| 0 <= a < |g| && g[a] == models[i];
      assert models[..|models| - 1] == init;
      var whole := OfProvider(models, p);
      assert whole == g + [models[j]];
      assert whole[a] == models[i] && whole[|g|] == models[j];
    }
  }
}
