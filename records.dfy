/**
 * The JSON objects the front end passes around (the signed-in user, request
 * bodies) as maps from field name to field text. A field that is absent from
 * the map is `undefined` in the source.
 */
module Records {
  import opened Wrappers

  type Record = map<string, string>

  /** `r.k`, absent when the object has no such field. */
  function Get(r: Record, k: string): (v: Option<string>)
    ensures v.Some? <==> k in r
    ensures v.Some? ==> v.value == r[k]
  {
    if k in r then Some(r[k]) else None
  }

  /**
   * `r.k || ""`: the field's text, or "" when it is absent. Present-but-empty
   * text is falsy in JavaScript and also gives "", which is the same string.
   */
  function TextOr(r: Record, k: string): (v: string)
    ensures k in r ==> v == r[k]
    ensures k !in r ==> v == ""
  {
    Get(r, k).GetOr("")
  }

  /**
   * `{ ...base, ...update }`, where a `null` base spreads nothing: every field
   * of `update` wins, every other field of `base` is kept, nothing else appears.
   */
  function Spread(base: Option<Record>, update: Record): (r: Record)
    ensures base.None? ==> r == update
    ensures base.Some? ==> r.Keys == base.value.Keys + update.Keys
    ensures forall k :: k in update ==> k in r && r[k] == update[k]
    ensures forall k :: base.Some? && k in base.value && k !in update ==> k in r && r[k] == base.value[k]
  {
    match base
    case None => update
    case Some(b) => b + update
  }

  /**
   * `{ ...r, [field]: value }`: the named field takes the value, every other
   * field keeps its presence and its text.
   */
  function WithField(r: Record, field: string, value: string): (t: Record)
    ensures field in t && t[field] == value
    ensures forall k :: k != field ==> (k in t <==> k in r)
    ensures forall k :: k != field && k in r ==> t[k] == r[k]
  {
    r[field := value]
  }
}
