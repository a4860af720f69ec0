/** The locked set of internal/util/sync_set.go; each method runs with the mutex held from start to end. */
module SyncSet {
  class SyncSet<K(==)> {
    var buffer: set<K>

    constructor ()
      ensures buffer == {}
    {
      buffer := {};
    }

    /** Of any number of inserts of a value, only one succeeds until the value is removed. */
    method Insert(value: K) returns (ok: bool)
      modifies this
      ensures ok <==> value !in old(buffer)
      ensures buffer == old(buffer) + {value}
    {
      if value in buffer {
        assert buffer == buffer + {value};
        return false;
      }
      buffer := buffer + {value};
      return true;
    }

    method Remove(value: K)
      modifies this
      ensures buffer == old(buffer) - {value}
    {
      buffer := buffer - {value};
    }
  }
}
