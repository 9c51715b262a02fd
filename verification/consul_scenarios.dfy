/**
 * The three integration scenarios for the Consul states (`test_kv_set`,
 * `test_kv_set_complex_value`, `test_kv_absent`), plus a dry-run scenario for
 * `key_set` on a missing key, stated as verified methods on the `Consul` class.
 * Each integration scenario starts from a store in which the key under test is
 * in the state the test leaves it before it calls the state; the client's
 * replies are parameters, constrained to success as a live Consul agent gives
 * them.
 */
module ConsulScenarios {
  import opened PyJson
  import opened ConsulState

  /** Create "test/foo" as "bar", then change it to "some other bar". */
  method KvSet(initial: Store, put1: Reply, put2: Reply)
    returns (first: Outcome, between: Read, second: Outcome, afterwards: Read)
    requires "test/foo" !in initial
    requires put1.res && put2.res
    ensures first.Returned? && first.ret.result == Some(true)
    ensures first.ret.changes == map["new" := JString("bar"), "old" := JNull]
    ensures between == Decoded(JString("bar"))
    ensures second.Returned? && second.ret.result == Some(true)
    ensures second.ret.changes == map["new" := JString("some other bar"), "old" := JString("bar")]
    ensures afterwards == Decoded(JString("some other bar"))
  {
    var consul := new Consul(initial);
    first := consul.KeySet("test/foo", JString("bar"), false, put1);
    between := ReadOld(consul.store, "test/foo");
    second := consul.KeySet("test/foo", JString("some other bar"), false, put2);
    afterwards := ReadOld(consul.store, "test/foo");
  }

  /** Set "test/bar" to a nested value; the same call again reports no changes. */
  method KvSetComplexValue(initial: Store, put1: Reply, put2: Reply)
    returns (first: Outcome, between: Read, second: Outcome)
    requires "test/bar" !in initial
    requires put1.res
    ensures var value := JObject(map["something" := JInt(0),
                                     "really" := JArray([JString("interesting"), JBool(false)])]);
            && first.Returned? && first.ret.result == Some(true)
            && first.ret.changes == map["new" := value, "old" := JNull]
            && between == Decoded(value)
    ensures second == Returned(Ret("test/bar", AlreadySet, Some(true), map[]))
  {
    var value := JObject(map["something" := JInt(0),
                             "really" := JArray([JString("interesting"), JBool(false)])]);
    var consul := new Consul(initial);
    first := consul.KeySet("test/bar", value, false, put1);
    between := ReadOld(consul.store, "test/bar");
    PyEqReflexive(value);
    second := consul.KeySet("test/bar", value, false, put2);
  }

  /** Delete "test/some/other.key" whatever text it holds; afterwards it is gone. */
  method KvAbsent(initial: Store, delete: Reply) returns (ret: Ret, found: bool)
    requires "test/some/other.key" in initial
    requires delete.res
    ensures ret.result == Some(true)
    ensures ret.changes == map["test/some/other.key" := JString("Key deleted")]
    ensures !found
  {
    var consul := new Consul(initial);
    ret := consul.KeyAbsent("test/some/other.key", false, delete);
    found := "test/some/other.key" in consul.store;
  }

  /** A dry run for a missing key projects a creation and leaves the store alone. */
  method DryRunCreate(initial: Store, value: Json, put: Reply) returns (outcome: Outcome, untouched: bool)
    requires "test/bar" !in initial
    ensures outcome == Returned(Ret("test/bar", "Key test/bar doesn't exist", None, map[]))
    ensures untouched
  {
    var consul := new Consul(initial);
    outcome := consul.KeySet("test/bar", value, true, put);
    untouched := consul.store == initial;
  }
}
