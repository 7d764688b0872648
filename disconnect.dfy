/** The `disconnect` entry point (src/engine/disconnect.rs). */
module Disconnect {
  import opened Wrappers
  import opened Errors
  import opened EngineCore
  import opened Instance
  import opened EntryPoints

  /**
   * `disconnect`: finds the engine under `id.unsigned_abs()` and drives its
   * `disconnect`; `done()` on success, `error(e)` otherwise, and
   * `Connector("Engine not found")` for an unknown handle.  The handle stays
   * registered.
   */
  method ExternDisconnect(registry: Registry, id: i64, reparse: string -> Result<Datamodel, ApiError>)
    returns (o: Outcome<()>)
    modifies if registry.Get(id).Some? then {registry.Get(id).value} else {}
    ensures OneContinuation(o)
    ensures registry.Get(id).None? ==> o == Error(EngineNotFound)
    ensures registry.Get(id).Some? ==>
              var t := DisconnectStep(old(registry.Get(id).value.inner), reparse);
              registry.Get(id).value.inner == t.inner && o == DeliverUnit(t.result)
  {
    var engine := registry.Get(id);
    if engine.Some? {
      var result := engine.value.Disconnect(reparse);
      o := DeliverUnit(result);
    } else {
      o := Error(EngineNotFound);
    }
  }
}
