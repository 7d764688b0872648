/** The `engine_connect` entry point (src/engine/connect.rs). */
module Connect {
  import opened Wrappers
  import opened Errors
  import opened EngineCore
  import opened Instance
  import opened EntryPoints

  /**
   * `engine_connect`: finds the engine under `id.unsigned_abs()` and drives
   * its `connect`; `done()` on success, `error(e)` with exactly the failure
   * otherwise, and `Connector("Engine not found")` for an unknown handle.
   * Only the engine found can change.
   */
  method EngineConnect(registry: Registry, id: i64, load: EngineBuilder -> Result<Connection, ApiError>)
    returns (o: Outcome<()>)
    modifies if registry.Get(id).Some? then {registry.Get(id).value} else {}
    ensures OneContinuation(o)
    ensures registry.Get(id).None? ==> o == Error(EngineNotFound)
    ensures registry.Get(id).Some? ==>
              var t := ConnectStep(old(registry.Get(id).value.inner), load);
              registry.Get(id).value.inner == t.inner && o == DeliverUnit(t.result)
  {
    var engine := registry.Get(id);
    if engine.Some? {
      var result := engine.value.Connect(load);
      o := DeliverUnit(result);
    } else {
      o := Error(EngineNotFound);
    }
  }
}
