/**
 * The class-loader scope tree, reduced to what the precompiled-script code
 * observes of it: the parent link and name given at creation, the lock flag,
 * and the reuse notifications a scope receives.
 */
module Scopes {

  class ClassLoaderScope {
    const parent: ClassLoaderScope?
    const name: string
    var locked: bool
    var reuseNotifications: nat

    constructor Child(parent: ClassLoaderScope, name: string)
      ensures this.parent == parent && this.name == name
      ensures !locked && reuseNotifications == 0
    {
      this.parent := parent;
      this.name := name;
      locked := false;
      reuseNotifications := 0;
    }

    /** A new, unlocked scope directly below this one. */
    method CreateChild(name: string) returns (child: ClassLoaderScope)
      ensures fresh(child) && child.parent == this && child.name == name
      ensures !child.locked && child.reuseNotifications == 0
    {
      child := new ClassLoaderScope.Child(this, name);
    }

    /** Locking is idempotent, and no operation unlocks a scope. */
    method Lock()
      modifies this
      ensures locked && reuseNotifications == old(reuseNotifications)
    {
      locked := true;
    }

    method OnReuse()
      modifies this
      ensures locked == old(locked)
      ensures reuseNotifications == old(reuseNotifications) + 1
    {
      reuseNotifications := reuseNotifications + 1;
    }
  }

  /** The export class loader of a scope, identified by its scope. */
  datatype ExportClassLoader = ExportClassLoader(scope: ClassLoaderScope)
}
