/** How the stack's data resources are treated when the stack is destroyed. */
module Removal {
  import opened Wrappers

  /** Whether a resource's data outlives the destruction of the stack. */
  datatype RemovalPolicy = Retain | Destroy

  /** The removal policy of a bucket together with its auto-delete-objects
      argument, which is unset (None) or set. */
  datatype Lifecycle = Lifecycle(policy: RemovalPolicy, autoDeleteObjects: Option<bool>)

  /** The constructor's flag defaults to keeping data resources. */
  const DefaultKeepDataResourcesOnDestroy: bool := true

  /** The invariant the stack keeps: the auto-delete argument may be given only
      when the bucket is destroyed with the stack. */
  predicate ValidLifecycle(l: Lifecycle)
  {
    l.autoDeleteObjects.Some? ==> l.policy == Destroy
  }

  /** Maps keep_data_resources_on_destroy to the bucket's removal policy and
      auto-delete argument: a kept bucket leaves the argument unset, a destroyed
      one asks for its objects to be deleted first. Total over bool, never
      (Retain, Some(true)). */
  function ResolveRemoval(keep: bool): (l: Lifecycle)
    ensures ValidLifecycle(l)
    ensures l.policy == Retain <==> keep
    ensures l.autoDeleteObjects.Some? <==> !keep
    ensures l.autoDeleteObjects != Some(false)
    ensures l != Lifecycle(Retain, Some(true))
  {
    var policy := if keep then Retain else Destroy;
    var autoDelete := if keep then None else Some(true);
    Lifecycle(policy, autoDelete)
  }
}
