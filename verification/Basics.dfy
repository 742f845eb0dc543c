/** Shared value types: optional and failing results, bytes, and the object store seen as a map. */
module Basics {
  type byte = b: int | 0 <= b < 256
  type Bytes = seq<byte>

  datatype Option<+T> = None | Some(value: T)

  datatype Result<+T, +E> = Ok(value: T) | Err(error: E)

  type Bytes32 = b: Bytes | |b| == 32 witness seq(32, _ => 0)
  type Bytes12 = b: Bytes | |b| == 12 witness seq(12, _ => 0)

  /** Serialisation of one document or message type. */
  datatype Codec<!T> = Codec(render: T -> Bytes, parse: Bytes -> Option<T>)

  /** The parser reads back whatever was rendered; it may accept other texts too. */
  ghost predicate Inverts<T(!new)>(codec: Codec<T>) {
    forall value :: codec.parse(codec.render(value)) == Some(value)
  }

  /** The contents of one bucket: object key to object body. */
  type Store = map<string, Bytes>

  function Lookup(store: Store, key: string): Option<Bytes> {
    if key in store then Some(store[key]) else None
  }

  /** The effect of a PutObject carrying `If-None-Match: *`: an existing object always wins. */
  function InsertIfAbsent(store: Store, key: string, body: Bytes): Store {
    if key in store then store else store[key := body]
  }

  /** A store evolves only by gaining objects; no object changes or disappears. */
  ghost predicate Extends(earlier: Store, later: Store) {
    forall key :: key in earlier ==> key in later && later[key] == earlier[key]
  }
}
