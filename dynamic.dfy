// The result records of Pulumi's dynamic-provider protocol, shared by the
// providers for group memberships, group settings, Hail Batch and metamist.
module Dynamic {
  import opened Wrappers

  /**
   * `pulumi.dynamic.DiffResult`: whether anything changed, which properties
   * force a replacement, and whether the old resource goes first.
   */
  datatype DiffResult = DiffResult(changes: bool, replaceKeys: seq<string>, deleteBeforeReplace: bool)

  /** `DiffResult(changes=False)` with every other field left at its default. */
  const NoChanges := DiffResult(false, [], false)

  /** `pulumi.dynamic.ReadResult`: `ReadResult(None, {})` reads as `Gone`. */
  datatype ReadResult<O> = Gone | Present(id: string, outs: O)
}
