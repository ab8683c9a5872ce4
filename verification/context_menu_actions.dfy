/**
 * Choosing a context menu: the menu kind for a resource uuid, the position
 * the menu opens at, the menu of the collection files panel and the menu of
 * a side-panel entry.
 */
module ContextMenuActions {
  import opened Common
  import opened Resources
  import opened Strings

  datatype ContextMenuKind =
    | ProjectMenu | ProjectAdminMenu
    | CollectionResourceMenu | CollectionAdminMenu
    | ProcessResourceMenu | ProcessAdminMenu
    | RootProjectMenu | LinkMenu
    | CollectionFilesMenu | CollectionFilesNotSelectedMenu

  /** The menus reserved for administrators. */
  predicate IsAdminMenu(menu: ContextMenuKind)
  {
    menu == ProjectAdminMenu || menu == CollectionAdminMenu || menu == ProcessAdminMenu
  }

  /**
   * `resourceKindToContextMenuKind(uuid, isAdmin)` for the kind extracted
   * from the uuid (`None` when none is recognised); an absent `isAdmin` is
   * false.
   */
  function ResourceKindToContextMenuKind(kind: Option<ResourceKind>, isAdmin: bool): (menu: Option<ContextMenuKind>)
    ensures menu.None? <==> kind.None? || kind.value.OtherKind?
    ensures menu.Some? ==> (IsAdminMenu(menu.value) <==> isAdmin && kind.value in {Project, Collection, Process})
    ensures kind == Some(Project) ==> menu == Some(if isAdmin then ProjectAdminMenu else ProjectMenu)
    ensures kind == Some(Collection) ==> menu == Some(if isAdmin then CollectionAdminMenu else CollectionResourceMenu)
    ensures kind == Some(Process) ==> menu == Some(if isAdmin then ProcessAdminMenu else ProcessResourceMenu)
    ensures kind == Some(User) ==> menu == Some(RootProjectMenu)
    ensures kind == Some(Link) ==> menu == Some(LinkMenu)
  {
    if kind.None? then None
    else match kind.value
      case Project => Some(if !isAdmin then ProjectMenu else ProjectAdminMenu)
      case Collection => Some(if !isAdmin then CollectionResourceMenu else CollectionAdminMenu)
      case Process => Some(if !isAdmin then ProcessResourceMenu else ProcessAdminMenu)
      case User => Some(RootProjectMenu)
      case Link => Some(LinkMenu)
      case OtherKind(_) => None
  }

  /**
   * The menu determines the kind it was chosen for, and for projects,
   * collections and processes also whether the user is an administrator.
   */
  lemma MenuDeterminesKind(k1: Option<ResourceKind>, a1: bool, k2: Option<ResourceKind>, a2: bool)
    requires ResourceKindToContextMenuKind(k1, a1).Some?
    requires ResourceKindToContextMenuKind(k1, a1) == ResourceKindToContextMenuKind(k2, a2)
    ensures k1 == k2
    ensures k1.value in {Project, Collection, Process} ==> a1 == a2
  {
  }

  /** A point on the screen. */
  datatype Position = Position(x: int, y: int)

  /**
   * `openContextMenu`: the pointer coordinates, each replaced by the target
   * element's left or top edge when it is 0 (as it is for a keyboard click).
   */
  function MenuPosition(clientX: int, clientY: int, left: int, top: int): (p: Position)
    ensures p.x == if clientX != 0 then clientX else left
    ensures p.y == if clientY != 0 then clientY else top
  {
    Position(if clientX != 0 then clientX else left, if clientY != 0 then clientY else top)
  }

  /** The marker a selected file leaves in the serialised files state. */
  const SelectedMarker := "\"selected\":true"

  /**
   * `openCollectionFilesContextMenu`: the files menu when the serialised
   * state of the collection's files mentions a selected file.
   */
  function CollectionFilesMenuKind(serializedFiles: string): (menu: ContextMenuKind)
    ensures menu == CollectionFilesMenu || menu == CollectionFilesNotSelectedMenu
    ensures menu == CollectionFilesMenu <==> Contains(serializedFiles, SelectedMarker)
  {
    if Contains(serializedFiles, SelectedMarker) then CollectionFilesMenu else CollectionFilesNotSelectedMenu
  }

  /** Any serialisation holding a selected entry anywhere gives the files menu. */
  lemma SelectedEntryGivesFilesMenu(before: string, after: string)
    ensures CollectionFilesMenuKind(before + SelectedMarker + after) == CollectionFilesMenu
  {
    ContainsInfix(before, SelectedMarker, after);
  }

  /** The side-panel menus: the root project of a user or a project. */
  datatype SidePanelMenu = RootProjectOf(id: string) | ProjectOf(id: string)

  /**
   * `openSidePanelContextMenu`: nothing for a category entry; otherwise the
   * root-project menu for a user, the project menu for a project, and
   * nothing for any other kind.
   */
  function SidePanelContextMenu(id: string, isCategory: bool, kind: Option<ResourceKind>): (menu: Option<SidePanelMenu>)
    ensures isCategory ==> menu.None?
    ensures !isCategory && kind == Some(User) ==> menu == Some(RootProjectOf(id))
    ensures !isCategory && kind == Some(Project) ==> menu == Some(ProjectOf(id))
    ensures kind != Some(User) && kind != Some(Project) ==> menu.None?
  {
    if isCategory then None
    else if kind == Some(User) then Some(RootProjectOf(id))
    else if kind == Some(Project) then Some(ProjectOf(id))
    else None
  }
}
