/**
 * What `key_set` and `key_absent` promise: dry runs never write, a second
 * identical `key_set` is a no-op, a live call that reports success has made the
 * store match the request, and `changes` is non-empty exactly when a write took
 * effect.
 */
module ConsulProperties {
  import opened PyJson
  import opened ConsulState

  /** In dry-run mode neither state writes, and `result` is `None` or `True`. */
  lemma DryRunNeverWrites(store: Store, name: string, value: Json, put: Reply, delete: Reply)
    ensures KeySetSpec(store, name, value, true, put).store == store
    ensures KeyAbsentSpec(store, name, true, delete).store == store
    ensures var o := KeySetSpec(store, name, value, true, put).report;
            o.Returned? ==> o.ret.result != Some(false) && o.ret.changes == map[]
    ensures var r := KeyAbsentSpec(store, name, true, delete).report;
            r.result != Some(false) && r.changes == map[]
  {
  }

  /** The three dry-run reports of `key_set`, in terms of what the store holds. */
  lemma DryRunKeySet(store: Store, name: string, value: Json, put: Reply)
    ensures name !in store ==>
              KeySetSpec(store, name, value, true, put).report == Returned(Ret(name, DoesNotExist(name), None, map[]))
    ensures forall v :: name in store && store[name] == Decodes(v) && v != JNull && !PyEq(v, value) ==>
              KeySetSpec(store, name, value, true, put).report == Returned(Ret(name, WillBeUpdated(name), None, map[]))
    ensures forall v :: name in store && store[name] == Decodes(v) && v != JNull && PyEq(v, value) ==>
              KeySetSpec(store, name, value, true, put).report == Returned(Ret(name, AlreadySet, Some(true), map[]))
  {
  }

  /**
   * The no-op of `key_set`: when the stored value is `==` to the desired one, a
   * live call issues no put and reports 'Key already set to defined value',
   * `True` and no changes; a dry run reports the same unless the key reads as `None`.
   */
  lemma KeySetNoOp(store: Store, name: string, value: Json, test: bool, put: Reply)
    requires ReadOld(store, name).Decoded?
    requires PyEq(ReadOld(store, name).current, value)
    ensures !test || ReadOld(store, name).current != JNull ==>
              KeySetSpec(store, name, value, test, put) == Step(Returned(Ret(name, AlreadySet, Some(true), map[])), store)
  {
  }

  /** A store that already holds "bar" under "test/foo", set to "bar" again, and `{"a": 1}` against `{"a": 1.0}`. */
  lemma KeySetNoOpExamples(store: Store, put: Reply)
    requires "test/foo" in store && store["test/foo"] == Decodes(JString("bar"))
    requires "test/bar" in store && store["test/bar"] == Decodes(JObject(map["a" := JInt(1)]))
    ensures KeySetSpec(store, "test/foo", JString("bar"), false, put)
         == Step(Returned(Ret("test/foo", AlreadySet, Some(true), map[])), store)
    ensures KeySetSpec(store, "test/bar", JObject(map["a" := JFloat(1.0)]), false, put)
         == Step(Returned(Ret("test/bar", AlreadySet, Some(true), map[])), store)
  {
    assert PyEq(JObject(map["a" := JInt(1)]), JObject(map["a" := JFloat(1.0)]));
  }

  /**
   * Idempotence: once a live `key_set` has reported success, the same call again
   * issues no put and reports 'Key already set to defined value' with no changes.
   */
  lemma {:induction false} KeySetIdempotent(store: Store, name: string, value: Json, first: Reply, second: Reply)
    requires KeySetSpec(store, name, value, false, first).report.Returned?
    requires KeySetSpec(store, name, value, false, first).report.ret.result == Some(true)
    ensures var after := KeySetSpec(store, name, value, false, first).store;
            KeySetSpec(after, name, value, false, second) == Step(Returned(Ret(name, AlreadySet, Some(true), map[])), after)
  {
    PyEqReflexive(value);
  }

  /**
   * A live `key_set` that reports success leaves `old_value` `==` to the
   * requested one, where a missing key reads as `None`. For any value other than
   * `None` the key is then present and decodes to a value `==` to it; when the
   * call wrote, reading back gives exactly that value.
   */
  lemma {:induction false} KeySetConverges(store: Store, name: string, value: Json, put: Reply)
    requires KeySetSpec(store, name, value, false, put).report.Returned?
    requires KeySetSpec(store, name, value, false, put).report.ret.result == Some(true)
    ensures var after := KeySetSpec(store, name, value, false, put).store;
            ReadOld(after, name).Decoded? && PyEq(ReadOld(after, name).current, value)
    ensures var after := KeySetSpec(store, name, value, false, put).store;
            value != JNull ==> name in after && after[name].Decodes? && PyEq(after[name].value, value)
    ensures var s := KeySetSpec(store, name, value, false, put);
            s.report.ret.changes != map[] ==> ReadOld(s.store, name) == Decoded(value)
  {
    PyEqReflexive(value);
  }

  /**
   * A live `key_set` whose value differs and whose put succeeds stores the value
   * and reports `{new: value, old: old_value}` (`old` is `None` for a missing key)
   * with the client's message as comment.
   */
  lemma KeySetWrites(store: Store, name: string, value: Json, put: Reply)
    requires ReadOld(store, name).Decoded?
    requires !PyEq(ReadOld(store, name).current, value)
    requires put.res
    ensures var s := KeySetSpec(store, name, value, false, put);
            && s.store == store[name := Decodes(value)]
            && s.report == Returned(Ret(name, put.data, Some(true), SetChanges(value, ReadOld(store, name).current)))
    ensures name !in store ==>
              KeySetSpec(store, name, value, false, put).report.ret.changes == map["new" := value, "old" := JNull]
  {
  }

  /** A live `key_set` whose put fails reports `False`, no changes and the client's message. */
  lemma KeySetPutFails(store: Store, name: string, value: Json, put: Reply)
    requires ReadOld(store, name).Decoded?
    requires !PyEq(ReadOld(store, name).current, value)
    requires !put.res
    ensures KeySetSpec(store, name, value, false, put) == Step(Returned(Ret(name, put.data, Some(false), map[])), store)
  {
  }

  /** A key holding JSON `null` is reported exactly like a missing key, in either mode. */
  lemma NullStoredIsAbsent(store: Store, name: string, value: Json, test: bool, put: Reply)
    ensures KeySetSpec(store[name := Decodes(JNull)], name, value, test, put).report
         == KeySetSpec(store - {name}, name, value, test, put).report
    ensures name !in store ==>
              KeySetSpec(store, name, JNull, false, put) == Step(Returned(Ret(name, AlreadySet, Some(true), map[])), store)
  {
  }

  /**
   * `changes` is non-empty exactly when the call changed the store, and then the
   * store changed only under `name`.
   */
  lemma {:induction false} KeySetChangesIffWrite(store: Store, name: string, value: Json, test: bool, put: Reply)
    requires KeySetSpec(store, name, value, test, put).report.Returned?
    ensures var s := KeySetSpec(store, name, value, test, put);
            s.report.ret.changes != map[] <==> s.store != store
  {
    var s := KeySetSpec(store, name, value, test, put);
    var current := ReadOld(store, name).current;
    if !test && !PyEq(current, value) && put.res {
      assert "new" in s.report.ret.changes;
      if s.store == store {
        assert store[name] == Decodes(value);
        PyEqReflexive(value);
        assert false;
      }
    }
  }

  /** The same for `key_absent`: a change is reported exactly when the key was deleted. */
  lemma KeyAbsentChangesIffDelete(store: Store, name: string, test: bool, delete: Reply)
    ensures var s := KeyAbsentSpec(store, name, test, delete);
            s.report.changes != map[] <==> s.store != store
    ensures var s := KeyAbsentSpec(store, name, test, delete);
            s.store != store <==> !test && delete.res && name in store
  {
    if name in store && !test && delete.res {
      assert name !in store - {name};
      assert name in KeyAbsentSpec(store, name, test, delete).report.changes;
    }
  }

  /** The live reports of `key_absent` for a present key. */
  lemma KeyAbsentLive(store: Store, name: string, delete: Reply)
    requires name in store
    ensures delete.res ==>
              KeyAbsentSpec(store, name, false, delete)
              == Step(Ret(name, Deleted(name), Some(true), map[name := JString(KeyDeleted)]), store - {name})
    ensures !delete.res ==>
              KeyAbsentSpec(store, name, false, delete) == Step(Ret(name, delete.data, Some(false), map[]), store)
  {
  }

  /**
   * Text that does not decode makes `key_set` raise even in dry-run mode, while
   * `key_absent` never decodes and deletes such a key like any other.
   */
  lemma UndecodableKey(store: Store, name: string, raw: string, value: Json, test: bool, put: Reply, delete: Reply)
    requires name in store && store[name] == Undecodable(raw)
    ensures KeySetSpec(store, name, value, test, put) == Step(DecodeError, store)
    ensures delete.res ==> KeyAbsentSpec(store, name, false, delete).store == store - {name}
    ensures KeyAbsentSpec(store, name, test, delete).report
         == KeyAbsentSpec(store[name := Decodes(value)], name, test, delete).report
  {
  }

  /**
   * A dry run of `key_set` predicts the live run: it reports `None` exactly when
   * the live run, given a successful put, reports changes. The one exception is
   * a missing (or null) key with the value `None`: see DryRunNullMismatch.
   */
  lemma DryRunPredictsLive(store: Store, name: string, value: Json, put: Reply)
    requires ReadOld(store, name).Decoded?
    requires !(ReadOld(store, name).current == JNull && value == JNull)
    requires put.res
    ensures KeySetSpec(store, name, value, true, put).report.ret.result == None
            <==> KeySetSpec(store, name, value, false, put).report.ret.changes != map[]
  {
    var current := ReadOld(store, name).current;
    if !PyEq(current, value) {
      assert "new" in KeySetSpec(store, name, value, false, put).report.ret.changes;
    }
  }

  /** For a missing key and the value `None`, the dry run announces a creation the live run never makes. */
  lemma DryRunNullMismatch(store: Store, name: string, put: Reply)
    requires name !in store
    ensures KeySetSpec(store, name, JNull, true, put).report == Returned(Ret(name, DoesNotExist(name), None, map[]))
    ensures KeySetSpec(store, name, JNull, false, put) == Step(Returned(Ret(name, AlreadySet, Some(true), map[])), store)
  {
  }

  /**
   * Worked example, not a property: the comparison is Python's `!=`, so a stored
   * `1` already satisfies the value `True`; nothing is written and reading back
   * still gives `1`.
   */
  lemma StoredOneSatisfiesTrue(store: Store, name: string, put: Reply)
    requires name in store && store[name] == Decodes(JInt(1))
    ensures KeySetSpec(store, name, JBool(true), false, put) == Step(Returned(Ret(name, AlreadySet, Some(true), map[])), store)
    ensures ReadOld(KeySetSpec(store, name, JBool(true), false, put).store, name) != Decoded(JBool(true))
  {
  }
}
