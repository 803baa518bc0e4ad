/**
 * The values that cross the encoding boundary. encoding/json and
 * go-querystring are library code: the model keeps the shape of what they
 * read and write (JSON values, url-form fields) and treats their byte-level
 * work as oracles that may fail.
 */
module Codec {
  import opened Options

  /**
   * A JSON value; floating-point numbers are not modelled. An object whose
   * values are all strings has two spellings: JStringMap is the form the
   * library writes for a map[string]string field, while the parseJson oracle
   * is taken to yield JObject for every object it reads. Readers of decoded
   * values treat the two alike.
   */
  datatype Json =
    | JNull
    | JBool(b: bool)
    | JInt(i: int)
    | JString(s: string)
    | JStringMap(entries: map<string, string>)  // a Go map[string]string
    | JObject(members: seq<(string, Json)>)

  /** One url-form field: a text value, or a map value left to the encoder. */
  datatype FormValue = FText(s: string) | FMap(entries: map<string, string>)

  type FormField = (string, FormValue)

  /** What an encoder produced: the payload bytes, or its error message. */
  datatype Encoded = Bytes(data: string) | EncodeError(message: string)

  /** What a decoder produced from a body: the value, or its error message. */
  datatype Decoded<T> = Decoded(value: T) | Malformed(message: string)

  /**
   * The value bound to `key` in a list of members, the last occurrence
   * winning. It reads back the bodies the library itself writes, which name
   * each key at most once; decoding a response into a struct merges instead
   * (see Errors.ReadEnvelope).
   */
  function Lookup<V>(members: seq<(string, V)>, key: string): Option<V>
  {
    if members == [] then None
    else if members[|members| - 1].0 == key then Some(members[|members| - 1].1)
    else Lookup(members[..|members| - 1], key)
  }

  /** Looking a key up in a concatenation asks the later part first. */
  lemma {:induction false} LookupConcat<V>(a: seq<(string, V)>, b: seq<(string, V)>, key: string)
    ensures Lookup(a + b, key) == if Lookup(b, key).Some? then Lookup(b, key) else Lookup(a, key)
  {
    if b != [] {
      assert (a + b)[..|a + b| - 1] == a + b[..|b| - 1];
      LookupConcat(a, b[..|b| - 1], key);
    } else {
      assert a + b == a;
    }
  }

  /** A member written only when there is a value to write (an `omitempty` field). */
  function Member<V>(key: string, v: Option<V>): seq<(string, V)>
  {
    if v.Some? then [(key, v.value)] else []
  }

  /** Appending an optional member changes the lookup of its own key only, and only when it is written. */
  lemma LookupAfterMember<V>(a: seq<(string, V)>, key: string, v: Option<V>, k: string)
    ensures Lookup(a + Member(key, v), k) == if k == key && v.Some? then v else Lookup(a, k)
  {
    LookupConcat(a, Member(key, v), k);
    if v.Some? {
      assert Member(key, v)[..0] == [];
    }
  }
}
