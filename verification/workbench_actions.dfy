/**
 * Loading a project into the workbench: how the result of the contents
 * lookup is classified as owned, shared or trashed, the steps `loadProject`
 * takes for each case, when a project is reloaded, and when the first-load
 * indicator is stopped.
 */
module WorkbenchActions {
  import opened Common
  import opened Resources

  /** A group-contents resource as the lookup returns it; an absent `isTrashed` is false. */
  datatype Resource = Resource(uuid: string, kind: ResourceKind, isTrashed: bool)

  /** The service a resource not found among the user's contents is fetched from. */
  datatype Service = CollectionService | ProjectService | ContainerRequestService

  /** The three handlers of a looked-up resource. */
  datatype Classification =
    | Trashed(resource: Resource)
    | Owned(resource: Resource)
    | Shared(source: Service, resource: Resource)

  /**
   * The decision of `loadGroupContentsResource` on the first item of the
   * contents lookup: a trashed collection or project is trashed, any other
   * item is owned; with no item the resource is shared and is fetched (as
   * `fetched`) from the service of the uuid's kind.
   */
  function Classify(first: Option<Resource>, uuidKind: Option<ResourceKind>, fetched: Resource): (c: Classification)
    ensures first.Some? && first.value.kind in {Collection, Project} && first.value.isTrashed ==> c == Trashed(first.value)
    ensures first.Some? && !(first.value.kind in {Collection, Project} && first.value.isTrashed) ==> c == Owned(first.value)
    ensures first.None? ==> c.Shared? && c.resource == fetched
    ensures first.None? ==> c.source == match uuidKind
      case Some(Collection) => CollectionService
      case Some(Project) => ProjectService
      case _ => ContainerRequestService
  {
    if first.Some? then
      if (first.value.kind == Collection || first.value.kind == Project) && first.value.isTrashed
      then Trashed(first.value) else Owned(first.value)
    else
      var source :=
        if uuidKind == Some(Collection) then CollectionService
        else if uuidKind == Some(Project) then ProjectService
        else ContainerRequestService;
      Shared(source, fetched)
  }

  /** A trashed item of any kind other than collection or project counts as owned. */
  lemma TrashedOtherKindIsOwned(r: Resource, uuidKind: Option<ResourceKind>, fetched: Resource)
    requires r.isTrashed && r.kind !in {Collection, Project}
    ensures Classify(Some(r), uuidKind, fetched) == Owned(r)
  {
  }

  /** The items of one page of the contents lookup, consumed from the front. */
  class ContentsPage {
    var items: seq<Resource>

    constructor(items: seq<Resource>)
      ensures this.items == items
    {
      this.items := items;
    }

    /** `items.shift()`: removes and returns the first item, if any. */
    method Shift() returns (first: Option<Resource>)
      modifies this
      ensures old(items) == [] ==> first.None? && items == []
      ensures old(items) != [] ==> first == Some(old(items)[0]) && items == old(items)[1..]
    {
      if items == [] {
        first := None;
      } else {
        first := Some(items[0]);
        items := items[1..];
      }
    }
  }

  /** `loadGroupContentsResource`: only the first item of the lookup is considered. */
  method LoadGroupContentsResource(page: ContentsPage, uuidKind: Option<ResourceKind>, fetched: Resource)
    returns (c: Classification)
    modifies page
    ensures c == Classify(if old(page.items) == [] then None else Some(old(page.items)[0]), uuidKind, fetched)
    ensures page.items == if old(page.items) == [] then [] else old(page.items)[1..]
  {
    var first := page.Shift();
    c := Classify(first, uuidKind, fetched);
  }

  /** The side-panel category of the trash. */
  const TrashCategory := "Trash"

  /** The steps taken while loading a project, in order. */
  datatype Step =
    | SetProjectPanelTrashed(trashed: bool)
    | LookUpContents(uuid: string)
    | ActivateSidePanelItem(id: string)
    | SidePanelBreadcrumbs(uuid: string)
    | SharedWithMeBreadcrumbs(uuid: string)
    | TrashBreadcrumbs(uuid: string)
    | OpenProjectPanel(uuid: string)
    | LoadDetailsPanel(uuid: string)
    | UpdateResource(resource: Resource)

  /** `finishLoadingProject` for a resource (`Some`) or a bare uuid (`None`). */
  function FinishLoadingProject(uuid: string, resource: Option<Resource>): (steps: seq<Step>)
    ensures |steps| >= 2 && steps[0] == OpenProjectPanel(uuid) && steps[1] == LoadDetailsPanel(uuid)
    ensures |steps| == 3 <==> resource.Some?
    ensures resource.Some? ==> steps[2] == UpdateResource(resource.value)
    ensures |steps| <= 3
  {
    [OpenProjectPanel(uuid), LoadDetailsPanel(uuid)] + (if resource.Some? then [UpdateResource(resource.value)] else [])
  }

  /**
   * `loadProject(uuid)` for the signed-in user's uuid (absent or empty when
   * nobody is signed in) and the classification the lookup would give.
   */
  function LoadProjectSteps(userUuid: Option<string>, uuid: string, lookup: Classification): (steps: seq<Step>)
    ensures |steps| >= 1 && steps[0] == SetProjectPanelTrashed(false)
    ensures |steps| == 1 <==> userUuid.None? || userUuid.value == ""
  {
    [SetProjectPanelTrashed(false)] +
    if userUuid.None? || userUuid.value == "" then []
    else if userUuid.value != uuid then
      [LookUpContents(uuid)] +
      match lookup
      case Owned(p) => [ActivateSidePanelItem(uuid), SidePanelBreadcrumbs(uuid)] + FinishLoadingProject(p.uuid, Some(p))
      case Shared(_, p) => [SharedWithMeBreadcrumbs(uuid), ActivateSidePanelItem(uuid)] + FinishLoadingProject(p.uuid, Some(p))
      case Trashed(p) =>
        [TrashBreadcrumbs(uuid), SetProjectPanelTrashed(true), ActivateSidePanelItem(TrashCategory)]
          + FinishLoadingProject(p.uuid, Some(p))
    else
      [ActivateSidePanelItem(userUuid.value), SidePanelBreadcrumbs(userUuid.value)] + FinishLoadingProject(userUuid.value, None)
  }

  /**
   * With nobody signed in nothing is loaded. Loading the user's own uuid
   * skips the lookup and opens the user's home project. Any other uuid is
   * looked up and opened; the panel is marked trashed exactly when the
   * lookup says trashed, and the looked-up resource is stored.
   */
  lemma LoadProjectOutcome(userUuid: Option<string>, uuid: string, lookup: Classification)
    requires lookup.resource.uuid == uuid
    ensures var steps := LoadProjectSteps(userUuid, uuid, lookup);
      && (userUuid.None? || userUuid.value == "" ==> steps == [SetProjectPanelTrashed(false)])
      && (userUuid == Some(uuid) && uuid != "" ==>
            LookUpContents(uuid) !in steps && OpenProjectPanel(uuid) in steps
            && SetProjectPanelTrashed(true) !in steps && ActivateSidePanelItem(uuid) in steps)
      && (userUuid.Some? && userUuid.value != "" && userUuid.value != uuid ==>
            && LookUpContents(uuid) in steps
            && steps[|steps| - 3] == OpenProjectPanel(uuid)
            && steps[|steps| - 1] == UpdateResource(lookup.resource)
            && (SetProjectPanelTrashed(true) in steps <==> lookup.Trashed?))
  {
    var steps := LoadProjectSteps(userUuid, uuid, lookup);
    if userUuid == Some(uuid) && uuid != "" {
      assert steps == [SetProjectPanelTrashed(false), ActivateSidePanelItem(uuid), SidePanelBreadcrumbs(uuid),
        OpenProjectPanel(uuid), LoadDetailsPanel(uuid)];
    } else if userUuid.Some? && userUuid.value != "" && userUuid.value != uuid {
      var finish := FinishLoadingProject(uuid, Some(lookup.resource));
      match lookup
      case Owned(p) =>
        assert steps == [SetProjectPanelTrashed(false), LookUpContents(uuid), ActivateSidePanelItem(uuid), SidePanelBreadcrumbs(uuid)] + finish;
      case Shared(_, p) =>
        assert steps == [SetProjectPanelTrashed(false), LookUpContents(uuid), SharedWithMeBreadcrumbs(uuid), ActivateSidePanelItem(uuid)] + finish;
      case Trashed(p) =>
        assert steps == [SetProjectPanelTrashed(false), LookUpContents(uuid), TrashBreadcrumbs(uuid),
          SetProjectPanelTrashed(true), ActivateSidePanelItem(TrashCategory)] + finish;
    }
  }

  /**
   * `reloadProjectMatchingUuid`: the project to reload, which is the
   * project panel's current uuid when it is set and listed.
   */
  function ReloadProjectMatchingUuid(current: Option<string>, matchingUuids: seq<string>): (reload: Option<string>)
    ensures reload.Some? <==> current.Some? && current.value != "" && current.value in matchingUuids
    ensures reload.Some? ==> reload == current
  {
    if current.Some? && current.value != "" && exists i :: 0 <= i < |matchingUuids| && matchingUuids[i] == current.value
    then current else None
  }

  /** `isWorkbenchLoading`: the loading screen's indicator is working; no indicator means not loading. */
  function IsWorkbenchLoading(indicator: Option<bool>): (loading: bool)
    ensures loading <==> indicator == Some(true)
  {
    if indicator.Some? then indicator.value else false
  }

  /** How a piece of JavaScript finished: normally, or by throwing `error`. */
  datatype Completion = Normal | Threw(error: string)

  /**
   * The completion of `try { … } finally { … }`: a `finally` block that
   * finishes normally leaves the `try` block's completion in force, and one
   * that throws replaces it.
   */
  function TryFinally(tryBlock: Completion, finallyBlock: Completion): Completion
  {
    if finallyBlock.Normal? then tryBlock else finallyBlock
  }

  /** What dispatching the wrapped action does: how it finishes and the loading indicator it leaves. */
  datatype ActionRun = ActionRun(completion: Completion, indicatorAfter: Option<bool>)

  /** The steps of `handleFirstTimeLoad`, in order. */
  datatype LoadStep = AwaitAction | StopLoadingScreen

  /** A finished `handleFirstTimeLoad`: its steps, the indicator it leaves and how it finishes. */
  datatype FirstLoad = FirstLoad(steps: seq<LoadStep>, indicator: Option<bool>, completion: Completion)

  /** `STOP_WORKING` for the loading screen: its indicator, if there is one, stops working. */
  function StopWorking(indicator: Option<bool>): Option<bool>
  {
    if indicator.Some? then Some(false) else None
  }

  /**
   * `handleFirstTimeLoad(action)`: the action is awaited inside `try`; the
   * `finally` block then stops the loading screen if it is still working,
   * whether the action finished or threw. The `finally` block itself never
   * throws, so a throw of the action is passed on and a normal finish stays
   * normal. Afterwards the workbench is never loading; an indicator that was
   * not working is left as the action left it.
   */
  function HandleFirstTimeLoad(action: ActionRun): (run: FirstLoad)
    ensures !IsWorkbenchLoading(run.indicator)
    ensures run.completion == action.completion
    ensures 1 <= |run.steps| <= 2 && run.steps[0] == AwaitAction
    ensures StopLoadingScreen in run.steps <==> IsWorkbenchLoading(action.indicatorAfter)
    ensures !IsWorkbenchLoading(action.indicatorAfter) ==> run.indicator == action.indicatorAfter
  {
    var stop := IsWorkbenchLoading(action.indicatorAfter);
    var finallySteps := if stop then [StopLoadingScreen] else [];
    var indicator := if stop then StopWorking(action.indicatorAfter) else action.indicatorAfter;
    FirstLoad([AwaitAction] + finallySteps, indicator, TryFinally(action.completion, Normal))
  }

  /**
   * The `finally` block does the same whether the action finished or threw:
   * two runs that leave the same indicator take the same steps and leave the
   * same indicator, and differ only in how they finish.
   */
  lemma FirstLoadIgnoresOutcome(a: Completion, b: Completion, indicatorAfter: Option<bool>)
    ensures var ra := HandleFirstTimeLoad(ActionRun(a, indicatorAfter));
      var rb := HandleFirstTimeLoad(ActionRun(b, indicatorAfter));
      ra.steps == rb.steps && ra.indicator == rb.indicator && ra.completion == a && rb.completion == b
  {
  }
}
