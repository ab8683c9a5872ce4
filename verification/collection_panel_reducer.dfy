/**
 * The collection panel's state: the collection shown and its tag links,
 * changed by three actions and left alone by every other.
 */
module CollectionPanelReducer {
  import opened Common

  /** The panel state over a collection type `C` and a tag-link type `L`. */
  datatype State<C, L> = State(item: Option<C>, tags: seq<L>)

  datatype Action<C, L> =
    | LoadCollectionSuccess(item: C)
    | LoadCollectionTagsSuccess(tags: seq<L>)
    | CreateCollectionTagSuccess(tag: L)
    | OtherAction

  /** No collection and no tags. */
  function InitialState<C, L>(): (s: State<C, L>)
    ensures s.item.None? && s.tags == []
  {
    State(None, [])
  }

  /** `collectionPanelReducer`; an absent state is the initial state. */
  function Reduce<C, L>(state: Option<State<C, L>>, action: Action<C, L>): (next: State<C, L>)
    ensures var s := if state.Some? then state.value else InitialState();
      match action
      case LoadCollectionSuccess(item) => next.item == Some(item) && next.tags == s.tags
      case LoadCollectionTagsSuccess(tags) => next.item == s.item && next.tags == tags
      case CreateCollectionTagSuccess(tag) =>
        next.item == s.item && |next.tags| == |s.tags| + 1 && next.tags[..|s.tags|] == s.tags && next.tags[|s.tags|] == tag
      case OtherAction => next == s
  {
    var s := if state.Some? then state.value else InitialState();
    match action
    case LoadCollectionSuccess(item) => s.(item := Some(item))
    case LoadCollectionTagsSuccess(tags) => s.(tags := tags)
    case CreateCollectionTagSuccess(tag) => s.(tags := s.tags + [tag])
    case OtherAction => s
  }

  /** The state after dispatching `actions` in order, starting from `state`. */
  function Replay<C, L>(state: State<C, L>, actions: seq<Action<C, L>>): State<C, L>
  {
    if actions == [] then state
    else Reduce(Some(Replay(state, actions[..|actions| - 1])), actions[|actions| - 1])
  }

  /** The tags created by `actions`, in order. */
  function CreatedTags<C, L>(actions: seq<Action<C, L>>): (tags: seq<L>)
    ensures |tags| <= |actions|
  {
    if actions == [] then []
    else if actions[0].CreateCollectionTagSuccess? then [actions[0].tag] + CreatedTags(actions[1..])
    else CreatedTags(actions[1..])
  }

  /** The index of the last action satisfying `p`, if any. */
  function LastIndex<C, L>(actions: seq<Action<C, L>>, p: Action<C, L> -> bool): (r: Option<nat>)
    ensures r.Some? ==> r.value < |actions| && p(actions[r.value]) && forall j :: r.value < j < |actions| ==> !p(actions[j])
    ensures r.None? ==> forall j :: 0 <= j < |actions| ==> !p(actions[j])
  {
    if actions == [] then None
    else if p(actions[|actions| - 1]) then Some(|actions| - 1)
    else LastIndex(actions[..|actions| - 1], p)
  }

  predicate IsItemLoad<C, L>(a: Action<C, L>) { a.LoadCollectionSuccess? }
  predicate IsTagsLoad<C, L>(a: Action<C, L>) { a.LoadCollectionTagsSuccess? }

  lemma {:induction false} CreatedTagsSnoc<C, L>(actions: seq<Action<C, L>>, a: Action<C, L>)
    ensures CreatedTags(actions + [a]) == CreatedTags(actions) + (if a.CreateCollectionTagSuccess? then [a.tag] else [])
    decreases |actions|
  {
    if actions == [] {
      assert [a][1..] == [];
    } else {
      assert (actions + [a])[1..] == actions[1..] + [a];
      CreatedTagsSnoc(actions[1..], a);
    }
  }

  /** The collection after a run of actions is the one last loaded, or the earlier one. */
  lemma {:induction false} ReplayItem<C, L>(state: State<C, L>, actions: seq<Action<C, L>>)
    ensures var i := LastIndex(actions, IsItemLoad);
      Replay(state, actions).item == (if i.Some? then Some(actions[i.value].item) else state.item)
    decreases |actions|
  {
    if actions != [] {
      var init := actions[..|actions| - 1];
      var a := actions[|actions| - 1];
      ReplayItem(state, init);
      if !IsItemLoad(a) {
        assert LastIndex(actions, IsItemLoad) == LastIndex(init, IsItemLoad);
        var i := LastIndex(init, IsItemLoad);
        if i.Some? {
          assert actions[i.value] == init[i.value];
        }
      }
    }
  }

  /** The index of the last action satisfying `p` after one more action. */
  lemma LastIndexSnoc<C, L>(init: seq<Action<C, L>>, a: Action<C, L>, p: Action<C, L> -> bool)
    ensures LastIndex(init + [a], p) == if p(a) then Some(|init|) else LastIndex(init, p)
  {
    assert (init + [a])[..|init|] == init;
  }

  /** One action that does not load tags leaves the loaded tags alone and appends the tag it creates. */
  lemma ReplayTagsStep<C, L>(state: State<C, L>, init: seq<Action<C, L>>, a: Action<C, L>)
    requires !IsTagsLoad(a)
    ensures Replay(state, init + [a]).tags
         == Replay(state, init).tags + (if a.CreateCollectionTagSuccess? then [a.tag] else [])
  {
    assert (init + [a])[..|init|] == init;
  }

  /** The tags created since the action at `t`, after one more action. */
  lemma CreatedSinceSnoc<C, L>(init: seq<Action<C, L>>, a: Action<C, L>, t: nat)
    requires t < |init|
    ensures (init + [a])[t] == init[t]
    ensures CreatedTags((init + [a])[t + 1..])
         == CreatedTags(init[t + 1..]) + (if a.CreateCollectionTagSuccess? then [a.tag] else [])
  {
    assert (init + [a])[t + 1..] == init[t + 1..] + [a];
    CreatedTagsSnoc(init[t + 1..], a);
  }

  /** The tags last loaded (or those of `state`), followed by every tag created since. */
  function ExpectedTags<C, L>(state: State<C, L>, actions: seq<Action<C, L>>): seq<L>
  {
    var t := LastIndex(actions, IsTagsLoad);
    if t.Some? then actions[t.value].tags + CreatedTags(actions[t.value + 1..])
    else state.tags + CreatedTags(actions)
  }

  /** One more action: a tags load starts afresh, any other action appends the tag it creates. */
  lemma ExpectedTagsSnoc<C, L>(state: State<C, L>, init: seq<Action<C, L>>, a: Action<C, L>)
    ensures ExpectedTags(state, init + [a])
         == if IsTagsLoad(a) then a.tags
            else ExpectedTags(state, init) + (if a.CreateCollectionTagSuccess? then [a.tag] else [])
  {
    LastIndexSnoc(init, a, IsTagsLoad);
    var actions := init + [a];
    if IsTagsLoad(a) {
      assert actions[|init| + 1..] == [];
    } else {
      var t := LastIndex(init, IsTagsLoad);
      if t.Some? {
        CreatedSinceSnoc(init, a, t.value);
      } else {
        CreatedTagsSnoc(init, a);
      }
    }
  }

  /** The tags after a run of actions: those last loaded, or the earlier ones, then every tag created since. */
  lemma {:induction false} ReplayTags<C, L>(state: State<C, L>, actions: seq<Action<C, L>>)
    ensures Replay(state, actions).tags == ExpectedTags(state, actions)
    decreases |actions|
  {
    if actions != [] {
      var init := actions[..|actions| - 1];
      var a := actions[|actions| - 1];
      assert actions == init + [a];
      ReplayTags(state, init);
      ExpectedTagsSnoc(state, init, a);
      if !IsTagsLoad(a) {
        ReplayTagsStep(state, init, a);
      }
    }
  }

  /**
   * After a run of actions the collection is the one last loaded (or the
   * earlier one when none was loaded), and the tags are those last loaded
   * (or the earlier ones) followed by every tag created after that load.
   */
  lemma ReplayState<C, L>(state: State<C, L>, actions: seq<Action<C, L>>)
    ensures var r := Replay(state, actions);
      var i := LastIndex(actions, IsItemLoad);
      var t := LastIndex(actions, IsTagsLoad);
      && r.item == (if i.Some? then Some(actions[i.value].item) else state.item)
      && r.tags == (if t.Some? then actions[t.value].tags + CreatedTags(actions[t.value + 1..])
                    else state.tags + CreatedTags(actions))
  {
    ReplayItem(state, actions);
    ReplayTags(state, actions);
    assert Replay(state, actions).tags == ExpectedTags(state, actions);
  }
}
