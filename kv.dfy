/** The key-value namespace bound as `shorten_me_kv`: an external table from
    short keys to target URLs. Every call made against it is recorded, so
    that contracts can say how many lookups and writes an operation made. */
module Kv {

  datatype Option<T> = None | Some(value: T)

  /** A call made against the namespace: `kv.get(key)` or `kv.put(key, value)`. */
  datatype Call = GetCall(key: string) | PutCall(key: string, value: string)

  /** What `kv.get(key)` yields for a table: the stored string, or `null`
      (here `None`) when the key is absent. */
  function Find(entries: map<string, string>, key: string): Option<string> {
    if key in entries then Some(entries[key]) else None
  }

  class Namespace {
    /** The stored key -> URL pairs. */
    var entries: map<string, string>
    /** Every call made against the namespace, oldest first. */
    ghost var calls: seq<Call>

    constructor (initial: map<string, string>)
      ensures entries == initial && calls == []
    {
      entries := initial;
      calls := [];
    }

    /** `kv.get(key)`: reads the table and changes nothing in it. */
    method Get(key: string) returns (r: Option<string>)
      modifies this`calls
      ensures r == Find(entries, key)
      ensures calls == old(calls) + [GetCall(key)]
    {
      r := Find(entries, key);
      calls := calls + [GetCall(key)];
    }

    /** `kv.put(key, value)`: stores `value` under `key`, replacing whatever
        was there, and touches no other key. */
    method Put(key: string, value: string)
      modifies this
      ensures entries == old(entries)[key := value]
      ensures calls == old(calls) + [PutCall(key, value)]
    {
      entries := entries[key := value];
      calls := calls + [PutCall(key, value)];
    }
  }
}
