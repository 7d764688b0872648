/**
 * The process-wide instance registry (src/engine/instance.rs): a counter that
 * issues handles and a map from key to engine.  Engines are only ever added.
 * Lookups use `id.unsigned_abs()` as the key.
 */
module Instance {
  import opened Wrappers
  import opened EngineCore

  newtype i64 = x: int | -0x8000_0000_0000_0000 <= x < 0x8000_0000_0000_0000

  const I64Max: int := 0x7FFF_FFFF_FFFF_FFFF

  /** `i64::unsigned_abs`: the magnitude of a handle, the key it is stored and found under. */
  function UnsignedAbs(id: i64): (k: nat)
    ensures k == id as int || k == -(id as int)
    ensures k < 0x1_0000_0000_0000_0000
  {
    if id < 0 then -(id as int) else id as int
  }

  /** A handle and its negation name the same key. */
  lemma UnsignedAbsNegation(id: i64)
    requires id as int > -0x8000_0000_0000_0000
    ensures UnsignedAbs(-id) == UnsignedAbs(id)
  {
  }

  /** The registry as a value: the next handle to issue and the stored engines. */
  datatype RegistryState = RegistryState(nextId: int, instances: map<nat, Engine>)

  /** The invariant: the counter is non-negative and every key was issued before it. */
  ghost predicate Issued(s: RegistryState) {
    0 <= s.nextId && forall k :: k in s.instances ==> k < s.nextId
  }

  /** `insert` as a state change: the engine goes under the current counter, which then moves on. */
  function Inserted(s: RegistryState, engine: Engine): (t: RegistryState)
    requires Issued(s)
    ensures Issued(t)
    ensures t.nextId == s.nextId + 1
    ensures s.nextId !in s.instances && s.nextId in t.instances && t.instances[s.nextId] == engine
    ensures forall k :: k in s.instances ==> k in t.instances && t.instances[k] == s.instances[k]
    ensures t.instances.Keys == s.instances.Keys + {s.nextId}
  {
    RegistryState(s.nextId + 1, s.instances[s.nextId := engine])
  }

  /** The registry after inserting each engine of `engines` in turn. */
  function InsertedAll(s: RegistryState, engines: seq<Engine>): (t: RegistryState)
    requires Issued(s)
    ensures Issued(t)
    decreases |engines|
  {
    if engines == [] then s else InsertedAll(Inserted(s, engines[0]), engines[1..])
  }

  /**
   * From an empty registry, the i-th insert is issued handle i: handles are
   * 0, 1, 2, ... in order, never reused, and each finds the engine inserted with it.
   */
  lemma {:induction false} InsertedAllFromEmpty(engines: seq<Engine>)
    ensures var t := InsertedAll(RegistryState(0, map[]), engines);
            && t.nextId == |engines|
            && (forall k: nat :: k in t.instances <==> k < |engines|)
            && forall i :: 0 <= i < |engines| ==> i in t.instances && t.instances[i] == engines[i]
  {
    InsertedAllFrom(RegistryState(0, map[]), engines);
  }

  lemma {:induction false} InsertedAllFrom(s: RegistryState, engines: seq<Engine>)
    requires Issued(s)
    ensures var t := InsertedAll(s, engines);
            && t.nextId == s.nextId + |engines|
            && (forall k: nat :: k in t.instances <==> k in s.instances || s.nextId <= k < s.nextId + |engines|)
            && (forall k :: k in s.instances ==> k in t.instances && t.instances[k] == s.instances[k])
            && forall i :: 0 <= i < |engines| ==> s.nextId + i in t.instances && t.instances[s.nextId + i] == engines[i]
    decreases |engines|
  {
    if engines != [] {
      var s1 := Inserted(s, engines[0]);
      InsertedAllFrom(s1, engines[1..]);
      var t := InsertedAll(s, engines);
      assert t == InsertedAll(s1, engines[1..]);
      forall i | 0 <= i < |engines|
        ensures s.nextId + i in t.instances && t.instances[s.nextId + i] == engines[i]
      {
        if i > 0 {
          assert engines[1..][i - 1] == engines[i];
        }
      }
    }
  }

  /** `INSTANCES` and `NEXT_ID`, passed to every entry point instead of living in statics. */
  class Registry {
    var nextId: int
    var instances: map<nat, Engine>

    function State(): RegistryState
      reads this
    {
      RegistryState(nextId, instances)
    }

    ghost predicate Valid()
      reads this
    {
      Issued(State())
    }

    /** The registry starts empty with the counter at zero. */
    constructor ()
      ensures Valid() && nextId == 0 && instances == map[]
    {
      nextId := 0;
      instances := map[];
    }

    /**
     * `insert`: returns the current counter as the handle, increments the
     * counter and stores the engine under `handle.unsigned_abs()`, which is
     * the handle itself since handles are never negative.
     */
    method Insert(engine: Engine) returns (id: i64)
      requires Valid()
      requires nextId < I64Max
      modifies this
      ensures Valid()
      ensures id as int == old(nextId) && id >= 0 && UnsignedAbs(id) == id as int
      ensures State() == Inserted(old(State()), engine)
      ensures UnsignedAbs(id) !in old(instances)
      ensures nextId > old(nextId)
    {
      id := nextId as i64;
      nextId := nextId + 1;
      instances := instances[UnsignedAbs(id) := engine];
    }

    /** `lock().get(id.unsigned_abs())`: the engine under a handle, if any. */
    function Get(id: i64): (r: Option<Engine>)
      reads this
      ensures r.Some? <==> UnsignedAbs(id) in instances
      ensures r.Some? ==> r.value == instances[UnsignedAbs(id)]
      ensures Valid() && id as int >= nextId ==> r.None?
    {
      var key := UnsignedAbs(id);
      if key in instances then Some(instances[key]) else None
    }
  }
}
