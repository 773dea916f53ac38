/** The per-task debug switches of system/debug.c: a table of `MAX_TASKS` flags,
    written only for identifiers inside the table. */
module Debug {

  const MAX_TASKS: int := 10

  predicate InTable(id: int) { 0 <= id < MAX_TASKS }

  class DebugFlags {
    var enabled: array<bool>

    ghost predicate Valid()
      reads this
    {
      enabled.Length == MAX_TASKS
    }

    /** The static table starts out all false. */
    constructor ()
      ensures Valid() && fresh(enabled)
      ensures forall id :: InTable(id) ==> !IsEnabled(id)
    {
      enabled := new bool[MAX_TASKS](_ => false);
    }

    /** `debug_is_task_enabled`: the stored flag, and false for an identifier outside the table. */
    function IsEnabled(id: int): (r: bool)
      requires Valid()
      reads this, enabled
      ensures r ==> InTable(id)
      ensures InTable(id) ==> r == enabled[id]
    {
      InTable(id) && enabled[id]
    }

    /** `debug_enable_task`. */
    method Enable(id: int)
      requires Valid()
      modifies enabled
      ensures Valid()
      ensures IsEnabled(id) <==> InTable(id)
      ensures forall k :: k != id ==> IsEnabled(k) == old(IsEnabled(k))
      ensures !InTable(id) ==> enabled[..] == old(enabled[..])
    {
      if 0 <= id < MAX_TASKS {
        enabled[id] := true;
      }
    }

    /** `debug_disable_task`. */
    method Disable(id: int)
      requires Valid()
      modifies enabled
      ensures Valid()
      ensures !IsEnabled(id)
      ensures forall k :: k != id ==> IsEnabled(k) == old(IsEnabled(k))
      ensures !InTable(id) ==> enabled[..] == old(enabled[..])
    {
      if 0 <= id < MAX_TASKS {
        enabled[id] := false;
      }
    }
  }
}
