/** An observation-diagnostic record: named fields, each a sequence with one
    entry per observation (or per channel, for `use_flag`). */
module Record {
  import opened Outcomes

  type Record<V> = map<string, seq<V>>

  /** `data[name]`: the field, or the KeyError Python raises when it is absent. */
  function Field<V>(data: Record<V>, name: string): (r: Result<seq<V>>)
    ensures name in data <==> r.Ok?
    ensures r.Ok? ==> r.value == data[name]
    ensures r.Err? ==> r.error == KeyError(name)
  {
    if name in data then Ok(data[name]) else Err(KeyError(name))
  }
}
