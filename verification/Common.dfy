/** Small vocabulary shared by every module of the project. */
module Common {

  datatype Option<+T> = None | Some(value: T)

  function GetOr<T>(o: Option<T>, otherwise: T): T {
    if o.Some? then o.value else otherwise
  }

  datatype Result<+T, +E> = Ok(value: T) | Err(error: E)

  /** One octet of a Node.js `Buffer`. */
  newtype byte = x: int | 0 <= x < 256

  type Bytes = seq<byte>

  /** Concatenation of a list of sequences, in order (`Buffer.concat`). */
  function Flatten<T>(parts: seq<seq<T>>): seq<T> {
    if parts == [] then [] else parts[0] + Flatten(parts[1..])
  }

  lemma FlattenAppend<T>(parts: seq<seq<T>>, last: seq<T>)
    ensures Flatten(parts + [last]) == Flatten(parts) + last
  {
    if parts == [] {
      assert parts + [last] == [last];
    } else {
      assert (parts + [last])[1..] == parts[1..] + [last];
      FlattenAppend(parts[1..], last);
    }
  }

  lemma FlattenConcat<T>(a: seq<seq<T>>, b: seq<seq<T>>)
    ensures Flatten(a + b) == Flatten(a) + Flatten(b)
  {
    if a == [] {
      assert a + b == b;
    } else {
      assert (a + b)[1..] == a[1..] + b;
      FlattenConcat(a[1..], b);
    }
  }
}
