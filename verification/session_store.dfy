/**
  The per-browser session that the request handlers read and write: a record of
  string keys to serialised values, reached through `get`, `insert`, `remove` and
  `save`. The backing store is external; every call can fail, and whether it does
  is an input of the model (a `Fault`). A failing call changes nothing.
 */
module SessionStore {
  import opened Wrappers

  /** What the session layer does with one call: `None` when the call goes through,
      `Some(e)` when it fails with an error whose text is `e`. */
  type Fault = Option<string>

  /** The session record: each key maps to its value in serialised form. */
  type Entries = map<string, string>

  function Lookup(m: Entries, key: string): Option<string>
  {
    if key in m then Some(m[key]) else None
  }

  /** Result of `get` (and of `remove`, which hands back the value it removed). */
  function StoreGet(m: Entries, key: string, fault: Fault): (r: Result<Option<string>, string>)
    ensures fault.Some? ==> r == Err(fault.value)
    ensures fault.None? ==> r.Ok? && (r.value.Some? <==> key in m)
    ensures fault.None? && key in m ==> r.value.value == m[key]
  {
    match fault
    case Some(e) => Err(e)
    case None => Ok(Lookup(m, key))
  }

  /** Result of `insert` and of `save`. */
  function Outcome(fault: Fault): (r: Result<(), string>)
    ensures r.Ok? <==> fault.None?
    ensures fault.Some? ==> r.error == fault.value
  {
    match fault
    case Some(e) => Err(e)
    case None => Ok(())
  }

  /** The record after `insert(key, value)`. */
  function Inserted(m: Entries, key: string, value: string, fault: Fault): (r: Entries)
    ensures fault.Some? ==> r == m
    ensures fault.None? ==> r.Keys == m.Keys + {key} && r[key] == value
    ensures forall k | k in m && k != key :: k in r && r[k] == m[k]
  {
    if fault.None? then m[key := value] else m
  }

  /** The record after `remove(key)`. */
  function Removed(m: Entries, key: string, fault: Fault): (r: Entries)
    ensures fault.Some? ==> r == m
    ensures fault.None? ==> r.Keys == m.Keys - {key}
    ensures forall k | k in r :: k in m && r[k] == m[k]
  {
    if fault.None? then m - {key} else m
  }

  /** One fault per flow secret (CSRF token, nonce, PKCE verifier), for the three
      session calls that the handlers issue together on those keys. */
  datatype FlowFaults = FlowFaults(csrf: Fault, nonce: Fault, verifier: Fault)
  {
    predicate AllWentThrough()
    {
      csrf.None? && nonce.None? && verifier.None?
    }
  }

  const NoFlowFaults := FlowFaults(None, None, None)

  class Session {
    var entries: Entries

    constructor (initial: Entries)
      ensures entries == initial
    {
      entries := initial;
    }

    /** `session.get::<T>(key)`: an absent key is `Ok(None)`, not an error. */
    method Get(key: string, fault: Fault) returns (r: Result<Option<string>, string>)
      ensures r == StoreGet(entries, key, fault)
    {
      if fault.Some? {
        r := Err(fault.value);
      } else if key in entries {
        r := Ok(Some(entries[key]));
      } else {
        r := Ok(None);
      }
    }

    /** `session.insert(key, value)`. */
    method Insert(key: string, value: string, fault: Fault) returns (r: Result<(), string>)
      modifies this
      ensures entries == Inserted(old(entries), key, value, fault)
      ensures r == Outcome(fault)
    {
      if fault.Some? {
        r := Err(fault.value);
      } else {
        entries := entries[key := value];
        r := Ok(());
      }
    }

    /** `session.remove::<T>(key)`: hands back the removed value, if any. */
    method Remove(key: string, fault: Fault) returns (r: Result<Option<string>, string>)
      modifies this
      ensures r == StoreGet(old(entries), key, fault)
      ensures entries == Removed(old(entries), key, fault)
    {
      r := Get(key, fault);
      if fault.None? {
        entries := entries - {key};
      }
    }

    /** `session.save()`: writes the record to the backing store; the record itself
        is unchanged. */
    method Save(fault: Fault) returns (r: Result<(), string>)
      ensures r == Outcome(fault)
    {
      r := if fault.Some? then Err(fault.value) else Ok(());
    }
  }
}
