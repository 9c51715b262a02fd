# Consul key/value states, modelled in Dafny

This project models SaltStack's Consul state module (`salt/states/consul.py`).
The module has two state functions that reconcile one key in Consul's key/value
store with what the operator declared:

- `key_set(name, value)` reads the key and JSON-decodes its value. It then
  reports that the key already holds the value, or projects the change in
  dry-run mode (`__opts__['test']`), or writes the value with `consul.put`. It
  returns a state dictionary `{name, comment, result, changes}`.
- `key_absent(name)` checks whether the key exists. It then reports that the
  key is not present, or projects the deletion, or deletes the key with
  `consul.delete`.

The model is split into three modules, plus one module of scenarios:

- `PyJson` (`json.dfy`): decoded JSON values, as `json.loads` returns them.
  Also `PyEq`, the Python `==` that `key_set` uses to compare the stored value
  with the desired one.
- `ConsulState` (`consul_state.dfy`): the store, the state dictionary and the
  client replies. The declarative outcome of each state is the function
  `KeySetSpec` or `KeyAbsentSpec`. The class `Consul` holds the store in a
  field `store: map<string, Entry>`. Its methods `KeySet` and `KeyAbsent`
  follow the source step by step: they build the return dictionary, overwrite
  its fields branch by branch, and issue at most one write. Each method is
  proved to agree with its outcome function.
- `ConsulProperties` (`consul_properties.dfy`): what the states promise,
  proved about the outcome functions.
- `ConsulScenarios` (`consul_scenarios.dfy`): the three integration scenarios
  of `tests/integration/states/consul.py`, plus a dry-run scenario for
  salt/states/consul.py:69-72, stated as verified methods on the `Consul`
  class.

Inputs that the original reads implicitly are explicit parameters here:

- `test` is the dry-run switch `__opts__['test']`.
- `put` and `delete` are the `{res, data}` replies of `consul.put` and
  `consul.delete`. They are used only when the state actually issues that call.
- The store itself is the `Consul` object. `consul_url` has no counterpart.

A store entry is either text that `json.loads` accepts (`Decodes(v)`, kept
decoded) or text it rejects (`Undecodable(raw)`). The `json.loads` call in
`key_set` is not guarded, so an undecodable value makes `key_set` raise. It
raises even in dry-run mode. The model shows this as the outcome
`DecodeError`, not as an absent key. `key_absent` never decodes, so it
deletes such a key like any other.

Three consequences of the code are worth stating outright:

- **Python `==`, not exact type match.** The "already set" test is
  `old_value != value` (salt/states/consul.py:73 and :79). Python's `==` makes
  `True == 1 == 1.0`, and it compares dicts without regard to key order. So a
  stored `1` already satisfies the desired value `true`: nothing is written,
  and reading back still gives `1` (`StoredOneSatisfiesTrue`). Reading back is
  guaranteed to give exactly the desired value only when the state wrote
  (`KeySetConverges`). After a no-op, the stored value is guaranteed only to
  be `==` to the desired one; it is often identical, as when "bar" is set to
  "bar" again. For the desired value `None` on a missing key, the no-op leaves
  the key missing. It only reads as `None` because a missing key reads as
  `None` (salt/states/consul.py:67).
- **Dry runs report no changes.** salt/states/consul.py:69-77 never sets
  `changes`. A dry run signals a projected change only through
  `result = None`.
- **Null and dry runs.** A key holding JSON `null` counts as missing, because
  `old_value is None`. In dry-run mode, a missing key always produces the
  comment "doesn't exist" with `result = None`, even when the desired value is
  itself `None`. The live run then reports that the key is already set and
  writes nothing (`DryRunNullMismatch`).

## Model

| member | source | states |
|---|---|---|
| `PyJson.PyEq` | salt/states/consul.py:73-79 | Python `==` on decoded JSON, which decides `old_value != value`. Values of different kinds are never equal. bool, int and float are one kind and compare by numeric value. Strings compare by content. Lists compare element-wise in order, so equal lists have equal lengths. Dicts compare by key set and value. |
| `PyJson.PyEqReflexive` | salt/states/consul.py:79 | Python `==` holds between a decoded value and itself: the comparison that guards the put never fires for an identical value. |
| `PyJson.PyEqSymmetric` | salt/states/consul.py:73 | `old_value != value` means the same with its operands swapped, through nested lists and dicts. |
| `PyJson.TrueEqualsOne` | salt/states/consul.py:79 | Worked example with fixed values, not a property. The comparison is coarser than equality of values: `True == 1`, `1 == 1.0`, while `None != False` and `"1" != 1`. |
| `ConsulState.ReadOld` | salt/states/consul.py:66-67 | `old_value` is `None` exactly when the key is missing or holds JSON `null`. Undecodable text raises. Otherwise it is the stored decoded value. |
| `ConsulState.KeySetSpec` | salt/states/consul.py:32-98 | Raises exactly for undecodable stored text. The returned record names `name`. A dry run never writes. The store changes only by mapping `name` to `value`. Non-empty `changes` means a successful live put, `result = True`, the client's message as comment, and `{new: value, old: old_value}`. `result = False` means a failed live put with no changes and an unchanged store. `result = None` only in dry-run mode. A live call whose stored value is `==` to the desired one returns `True`, 'Key already set to defined value' and `{}`, and writes nothing. |
| `ConsulState.KeyAbsentSpec` | salt/states/consul.py:101-141 | The record names `name`. A missing key gives 'Key not present', `True`, `{}`, with no delete. A dry run never deletes. A dry run on a present key gives `None`, "Key {name} would have been deleted", `{}`, and leaves the store unchanged. Non-empty `changes` is exactly `{name: 'Key deleted'}` after a successful live delete, with comment "Key {name} deleted". `result = False` means a failed delete with the client's message. A live `True` leaves `name` out of the store. |
| `ConsulState.Consul.Put` | salt/states/consul.py:85-86 | The put returns the client's reply. It changes the store to map `name` to `value` exactly when the reply reports success. |
| `ConsulState.Consul.Delete` | salt/states/consul.py:131 | The delete returns the client's reply. It removes `name` exactly when the reply reports success. |
| `ConsulState.Consul.KeySet` | salt/states/consul.py:59-98 | The step-by-step `key_set` returns the outcome `KeySetSpec` gives for the old store. It leaves exactly the store `KeySetSpec` gives. |
| `ConsulState.Consul.KeyAbsent` | salt/states/consul.py:115-141 | The step-by-step `key_absent` returns the record `KeyAbsentSpec` gives for the old store. It leaves exactly the store `KeyAbsentSpec` gives. |
| `ConsulProperties.DryRunNeverWrites` | salt/states/consul.py:69-77 | In dry-run mode neither state changes the store. Neither reports `False` or any changes. |
| `ConsulProperties.DryRunKeySet` | salt/states/consul.py:69-77 | The dry-run `key_set` has three outcomes. A missing key gives `None` and "Key {name} doesn't exist". A different stored value gives `None` and "Value of key {name} will be updated". An equal value gives `True` and 'Key already set to defined value'. |
| `ConsulProperties.KeySetNoOp` | salt/states/consul.py:59-79 | For any store whose decoded value is `==` to the desired one, a live `key_set` issues no put. It returns `True`, 'Key already set to defined value' and `{}`, and leaves the store unchanged. A dry run reports the same unless the key reads as `None`. |
| `ConsulProperties.KeySetNoOpExamples` | tests/integration/states/consul.py:89-92 | Worked example with fixed values, not a property. A key holding "bar" set to "bar" again is a no-op, and so is a stored `{"a": 1}` against a desired `{"a": 1.0}`. |
| `ConsulProperties.KeySetIdempotent` | salt/states/consul.py:79 | After a live `key_set` that reported `True`, the same call again issues no put. It returns `True`, 'Key already set to defined value' and `{}`, and leaves the store as it was. |
| `ConsulProperties.KeySetConverges` | salt/states/consul.py:67-93 | After a live `key_set` that reported `True`, `old_value` is `==` to the desired value, counting a missing key as `None`. For a desired value other than `None`, the key is present and decodes to a value `==` to it. When the call wrote, reading back gives exactly the desired value. |
| `ConsulProperties.KeySetWrites` | salt/states/consul.py:79-93 | A live call whose value differs, with a successful put, stores the value. It reports `True`, the client's message, and `{new: value, old: old_value}`, with `old` equal to `None` for a missing key. |
| `ConsulProperties.KeySetPutFails` | salt/states/consul.py:94-96 | A live call whose value differs, with a failed put, reports `False`, the client's message and `{}`. It leaves the store unchanged. |
| `ConsulProperties.NullStoredIsAbsent` | salt/states/consul.py:67-80 | A key that holds JSON `null` is reported exactly like a missing key, in both modes. A live `key_set(name, None)` on a missing key is a no-op. |
| `ConsulProperties.KeySetChangesIffWrite` | salt/states/consul.py:85-93 | `key_set` reports non-empty `changes` if and only if it changed the store. |
| `ConsulProperties.KeyAbsentChangesIffDelete` | salt/states/consul.py:130-139 | `key_absent` reports non-empty `changes` if and only if it changed the store. That happens exactly for a present key, in live mode, with a successful delete. |
| `ConsulProperties.KeyAbsentLive` | salt/states/consul.py:130-139 | For a present key in live mode, a successful delete gives `{name: 'Key deleted'}` and "Key {name} deleted", and removes the key. A failed delete gives `False`, the client's message and `{}`. |
| `ConsulProperties.UndecodableKey` | salt/states/consul.py:66-67 | Undecodable stored text makes `key_set` raise in both modes, with no write. `key_absent` treats such a key like any present key and deletes it. |
| `ConsulProperties.DryRunPredictsLive` | salt/states/consul.py:69-93 | Unless both the read and the desired value are `None`, the dry run reports `None` if and only if the live run with a successful put reports changes. |
| `ConsulProperties.DryRunNullMismatch` | salt/states/consul.py:70-80 | For a missing key and the value `None`, the dry run projects a creation, "doesn't exist" with `None`. The live run reports that the key is already set and writes nothing. |
| `ConsulProperties.StoredOneSatisfiesTrue` | salt/states/consul.py:79 | Worked example with fixed values, not a property. A stored `1` counts as already set for the desired value `True`. No put is issued, and reading back still gives `1`. |
| `ConsulScenarios.KvSet` | tests/integration/states/consul.py:41-69 | Creating "test/foo" as "bar" reports `{new: "bar", old: None}` and stores "bar". Changing it to "some other bar" reports `{new: "some other bar", old: "bar"}` and stores the new value. |
| `ConsulScenarios.KvSetComplexValue` | tests/integration/states/consul.py:73-92 | Setting a nested dict reports `{new: value, old: None}` and stores it. The identical call again reports no changes. |
| `ConsulScenarios.KvAbsent` | tests/integration/states/consul.py:96-113 | Removing a present key reports `{key: 'Key deleted'}` with `True`. Afterwards the key is not found. |
| `ConsulScenarios.DryRunCreate` | salt/states/consul.py:69-72 | A dry-run `key_set` on a missing key reports `None` with "Key test/bar doesn't exist". It leaves the store untouched. |

## Left out

- The Consul execution module behind `consul.get`, `consul.put` and `consul.delete` is not part of this model. That covers the HTTP query, resolving the URL from configuration or pillar, base64 decoding, and session listing. The store is an abstract map. A write's outcome is an input reply. A failed put or delete is assumed to leave the store unchanged, and a successful put stores the value so that it decodes back to itself. One version of the execution module breaks that assumption even for strings: tests/unit/modules/consul.py:140-149 sends the string "bar" unencoded, so `json.loads` would reject the stored text and a second `key_set` would raise instead of doing nothing. `KeySetIdempotent`, `KeySetConverges` and the scenarios rely on the JSON-encoding put that tests/unit/modules/consul_test.py:125 and tests/integration/states/consul.py:55 assume.
- `consul_url`: there is one store, the `Consul` object.
- A failing `consul.get` (a transport error) is indistinguishable from a missing key in the source. The model reads the map and so covers only the missing-key case.
- Whether `consul.put` accepts non-string values, and whether it JSON-encodes strings, is behaviour of the execution module. Its test suites disagree on both. The desired value is always a decoded JSON value here.
- JSON text encoding and decoding: entries hold the decoded value, or the rejected raw text.
- Floats are exact reals, not IEEE doubles. `NaN` and `Infinity`, which `json.loads` accepts, are not representable. With `NaN`, Python's `==` is not reflexive, so `PyEqReflexive` and the idempotence built on it do not cover such values.
- Desired values that are not JSON (tuples, sets, non-string dict keys coming from YAML) are not modelled.
- Concurrency between the read and the write: the source takes no lock and does no check-and-set.
- The interim comments 'New key created' and 'Key updated' are set by `Consul.KeySet` as in the source, but they are always overwritten by the client's message before the call returns, so no outcome carries them.
- Test fixtures (mocks, the store wipe in the integration set-up, the empty ACL test class) are not modelled.
