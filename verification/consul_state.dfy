/**
 * The Consul key/value state functions `key_set` and `key_absent`.
 *
 * The K/V store is a map from key to what `consul.get` hands back for it; the
 * dry-run switch (`__opts__['test']`) is a parameter, and the reply of the one
 * write a call may issue (`consul.put` or `consul.delete`) is an input, because
 * the execution module behind them is not part of this model.
 */
module ConsulState {
  import opened PyJson

  datatype Option<T> = None | Some(value: T)

  /** A stored value as text: either text `json.loads` accepts (kept decoded) or text it rejects. */
  datatype Entry = Decodes(value: Json) | Undecodable(raw: string)

  type Store = map<string, Entry>

  /** The `{res, data}` dictionary returned by `consul.put` and `consul.delete`. */
  datatype Reply = Reply(res: bool, data: string)

  /**
   * The state return dictionary. `result` is Python's tri-state `True`/`False`/`None`;
   * `changes` is the `changes` dictionary, `{}` when nothing changed.
   */
  datatype Ret = Ret(name: string, comment: string, result: Option<bool>, changes: map<string, Json>)

  /** A state call either returns its dictionary or lets the `json.loads` exception escape. */
  datatype Outcome = Returned(ret: Ret) | DecodeError

  /** What a call reports, together with the store it leaves behind. */
  datatype Step<R> = Step(report: R, store: Store)

  /** The value `key_set` reads as `old_value`, or the failure of decoding it. */
  datatype Read = Decoded(current: Json) | Raises

  const AlreadySet := "Key already set to defined value"
  const NotPresent := "Key not present"
  const KeyDeleted := "Key deleted"

  function DoesNotExist(name: string): (comment: string) { "Key " + name + " doesn't exist" }
  function WillBeUpdated(name: string): (comment: string) { "Value of key " + name + " will be updated" }
  function WouldBeDeleted(name: string): (comment: string) { "Key " + name + " would have been deleted" }
  function Deleted(name: string): (comment: string) { "Key " + name + " deleted" }

  /** The change record of a successful write: `{'new': value, 'old': old_value}`. */
  function SetChanges(value: Json, previous: Json): (changes: map<string, Json>)
  {
    map["new" := value, "old" := previous]
  }

  /**
   * `old_value`: a missing key reads as `None`, a stored JSON `null` decodes to
   * `None` as well, and undecodable text makes `json.loads` raise.
   */
  function ReadOld(store: Store, name: string): (r: Read)
    ensures r == Raises <==> name in store && store[name].Undecodable?
    ensures r.Decoded? && r.current != JNull ==> name in store && store[name] == Decodes(r.current)
    ensures r == Decoded(JNull) <==> name !in store || store[name] == Decodes(JNull)
  {
    if name !in store then Decoded(JNull)
    else match store[name]
      case Decodes(v) => Decoded(v)
      case Undecodable(_) => Raises
  }

  /**
   * The outcome of `key_set(name, value)`, as a decision table over what is
   * read, the dry-run switch and the reply of the put.
   */
  function KeySetSpec(store: Store, name: string, value: Json, test: bool, put: Reply): (s: Step<Outcome>)
    ensures s.report == DecodeError <==> name in store && store[name].Undecodable?
    ensures s.report.Returned? ==> s.report.ret.name == name
    ensures test ==> s.store == store
    ensures s.store != store ==> s.store == store[name := Decodes(value)]
    ensures s.report.Returned? && s.report.ret.changes != map[] ==>
              && !test && put.res
              && s.report.ret.result == Some(true)
              && s.report.ret.comment == put.data
              && s.store == store[name := Decodes(value)]
              && s.report.ret.changes == SetChanges(value, ReadOld(store, name).current)
    ensures s.report.Returned? && s.report.ret.result == Some(false) ==>
              && !test && !put.res
              && s.report.ret.comment == put.data
              && s.report.ret.changes == map[]
              && s.store == store
    ensures s.report.Returned? && s.report.ret.result == None ==>
              test && s.report.ret.changes == map[]
    ensures !test && ReadOld(store, name).Decoded? && PyEq(ReadOld(store, name).current, value) ==>
              s == Step(Returned(Ret(name, AlreadySet, Some(true), map[])), store)
  {
    match ReadOld(store, name)
    case Raises => Step(DecodeError, store)
    case Decoded(current) =>
      if test then
        if current == JNull then
          Step(Returned(Ret(name, DoesNotExist(name), None, map[])), store)
        else if !PyEq(current, value) then
          Step(Returned(Ret(name, WillBeUpdated(name), None, map[])), store)
        else
          Step(Returned(Ret(name, AlreadySet, Some(true), map[])), store)
      else if PyEq(current, value) then
        Step(Returned(Ret(name, AlreadySet, Some(true), map[])), store)
      else if put.res then
        Step(Returned(Ret(name, put.data, Some(true), SetChanges(value, current))), store[name := Decodes(value)])
      else
        Step(Returned(Ret(name, put.data, Some(false), map[])), store)
  }

  /** The outcome of `key_absent(name)`. */
  function KeyAbsentSpec(store: Store, name: string, test: bool, delete: Reply): (s: Step<Ret>)
    ensures s.report.name == name
    ensures test || name !in store ==> s.store == store
    ensures name !in store ==> s.report == Ret(name, NotPresent, Some(true), map[])
    ensures test && name in store ==> s == Step(Ret(name, WouldBeDeleted(name), None, map[]), store)
    ensures s.store != store ==> s.store == store - {name}
    ensures s.report.changes != map[] ==>
              && !test && delete.res
              && s.report.changes == map[name := JString(KeyDeleted)]
              && s.report.comment == Deleted(name)
              && s.report.result == Some(true)
              && s.store == store - {name}
    ensures s.report.result == Some(false) ==>
              !test && !delete.res && s.report.comment == delete.data && s.report.changes == map[] && s.store == store
    ensures s.report.result == None ==> test && name in store && s.report.changes == map[]
    ensures !test && s.report.result == Some(true) ==> name !in s.store
  {
    if name !in store then
      Step(Ret(name, NotPresent, Some(true), map[]), store)
    else if test then
      Step(Ret(name, WouldBeDeleted(name), None, map[]), store)
    else if delete.res then
      Step(Ret(name, Deleted(name), Some(true), map[name := JString(KeyDeleted)]), store - {name})
    else
      Step(Ret(name, delete.data, Some(false), map[]), store)
  }

  /** The Consul K/V store as the state functions see and change it. */
  class Consul {
    var store: Store

    constructor (contents: Store)
      ensures store == contents
    {
      store := contents;
    }

    /** `consul.put`: the write takes effect exactly when the client reports success. */
    method Put(name: string, value: Json, reply: Reply) returns (res: Reply)
      modifies this
      ensures res == reply
      ensures store == if reply.res then old(store)[name := Decodes(value)] else old(store)
    {
      if reply.res {
        store := store[name := Decodes(value)];
      }
      res := reply;
    }

    /** `consul.delete`: the key goes away exactly when the client reports success. */
    method Delete(name: string, reply: Reply) returns (res: Reply)
      modifies this
      ensures res == reply
      ensures store == if reply.res then old(store) - {name} else old(store)
    {
      if reply.res {
        store := store - {name};
      }
      res := reply;
    }

    /**
     * `key_set`: read and decode the current value, then report, project or
     * write, overwriting the fields of the return dictionary branch by branch.
     */
    method KeySet(name: string, value: Json, test: bool, put: Reply) returns (outcome: Outcome)
      modifies this
      ensures outcome == KeySetSpec(old(store), name, value, test, put).report
      ensures store == KeySetSpec(old(store), name, value, test, put).store
    {
      var ret := Ret(name, AlreadySet, Some(true), map[]);

      var oldValue := JNull;
      if name in store {
        match store[name]
        case Undecodable(_) =>
          return DecodeError;
        case Decodes(v) =>
          oldValue := v;
      }

      if test {
        if oldValue == JNull {
          ret := ret.(comment := DoesNotExist(name), result := None);
        } else if !PyEq(oldValue, value) {
          ret := ret.(comment := WillBeUpdated(name), result := None);
        }
        return Returned(ret);
      }

      if !PyEq(oldValue, value) {
        if oldValue == JNull {
          ret := ret.(comment := "New key created");
        } else {
          ret := ret.(comment := "Key updated");
        }
        var res := Put(name, value, put);
        if res.res {
          ret := ret.(changes := SetChanges(value, oldValue), comment := res.data);
        } else {
          ret := ret.(result := Some(false), comment := res.data);
        }
      }
      return Returned(ret);
    }

    /** `key_absent`: check for the key, then report, project or delete it. */
    method KeyAbsent(name: string, test: bool, delete: Reply) returns (ret: Ret)
      modifies this
      ensures ret == KeyAbsentSpec(old(store), name, test, delete).report
      ensures store == KeyAbsentSpec(old(store), name, test, delete).store
    {
      ret := Ret(name, NotPresent, Some(true), map[]);

      var found := name in store;

      if test {
        if found {
          ret := ret.(comment := WouldBeDeleted(name), result := None);
        }
        return;
      }

      if found {
        var res := Delete(name, delete);
        if res.res {
          ret := ret.(changes := map[name := JString(KeyDeleted)], comment := Deleted(name));
        } else {
          ret := ret.(result := Some(false), comment := res.data);
        }
      }
    }
  }
}
