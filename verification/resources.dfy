/** The kinds of resource the workbench distinguishes. */
module Resources {

  /**
   * The kinds of resource a uuid can name, as the uuid's infix tells them;
   * a process is a container request. Extracting the kind from a uuid is not
   * part of this model.
   */
  datatype ResourceKind = Project | Collection | Process | User | Link | OtherKind(name: string)
}
