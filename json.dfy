/**
 * An abstract view of JSON as the services use it.
 *
 * `Text<V>` is what a JSON-serialized value of type `V` looks like once it is
 * stored as a string: either the encoding of some value, the empty string, or
 * text that `JSON.parse` rejects.  Serialization details are not modelled;
 * the one fact the services rely on is that parsing undoes serializing.
 *
 * `Record` is a flat JSON object, used for the user-info and token-check
 * records that the dependencies and their fallbacks return.
 */
module Json {
  import opened Wrappers

  datatype Text<V> = Empty | Encoded(value: V) | Malformed(raw: string)

  /** `JSON.stringify` */
  function Serialize<V>(v: V): (t: Text<V>)
    ensures t != Empty && !t.Malformed?
  {
    Encoded(v)
  }

  /** `JSON.parse`, with `None` for the exception it throws. */
  function Parse<V>(t: Text<V>): (r: Option<V>)
    ensures r.Some? <==> t.Encoded?
    ensures r.Some? ==> Serialize(r.value) == t
  {
    match t
    case Encoded(v) => Some(v)
    case _ => None
  }

  /** Parsing undoes serializing. */
  lemma ParseSerialize<V>(v: V)
    ensures Parse(Serialize(v)) == Some(v)
  {
  }

  datatype Field = Str(s: string) | Bool(b: bool)

  type Record = map<string, Field>
}
