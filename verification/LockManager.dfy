/** Named locks with an owner. */
module LockManagers {
  import opened Wrappers

  /** The owner argument as a caller passes it: left out, null or a string. */
  datatype Claim = Undefined | Null | Named(name: string)

  /** What `owner || 'unknown'` stores. */
  function Holder(owner: Claim): string {
    if owner.Named? && owner.name != "" then owner.name else "unknown"
  }

  /** Only an owner that is left out matches every holder; null matches none. */
  predicate Releases<K(==)>(locks: map<K, string>, key: K, owner: Claim) {
    key in locks && (owner.Undefined? || (owner.Named? && locks[key] == owner.name))
  }

  function AfterRelease<K(==)>(locks: map<K, string>, key: K, owner: Claim): map<K, string> {
    if Releases(locks, key, owner) then locks - {key} else locks
  }

  /** A handle undoes its own acquisition, except for the owners "" and null: those are stored as "unknown" and
      then fail to match themselves, so their handle leaves the lock held. */
  lemma HandleReleasesIff<K>(locks: map<K, string>, key: K, owner: Claim)
    requires key !in locks
    ensures AfterRelease(locks[key := Holder(owner)], key, owner) == locks <==> owner != Null && owner != Named("")
  {
    var held := locks[key := Holder(owner)];
    assert held - {key} == locks;
    assert key in held;
  }

  class LockManager<K(==)> {
    var locks: map<K, string>

    constructor ()
      ensures locks == map[]
    {
      locks := map[];
    }

    /** The error of a failed acquisition names the holder. */
    method Acquire(key: K, owner: Claim) returns (heldBy: Option<string>)
      modifies this
      ensures heldBy == if key in old(locks) then Some(old(locks)[key]) else None
      ensures locks == if key in old(locks) then old(locks) else old(locks)[key := Holder(owner)]
    {
      if key in locks {
        return Some(locks[key]);
      }
      locks := locks[key := Holder(owner)];
      return None;
    }

    method Release(key: K, owner: Claim) returns (released: bool)
      modifies this
      ensures released == Releases(old(locks), key, owner)
      ensures locks == AfterRelease(old(locks), key, owner)
    {
      if key !in locks {
        return false;
      }
      if !owner.Undefined? && !(owner.Named? && locks[key] == owner.name) {
        return false;
      }
      locks := locks - {key};
      return true;
    }

    method Clear()
      modifies this
      ensures locks == map[]
    {
      locks := map[];
    }
  }
}
