/** The data the renderers receive: ordered records (Python dicts, in
    insertion order) whose values are already-stringified scalars or
    records nested inside them. */
module Records {
  import opened Text

  datatype Option<+T> = None | Some(value: T)

  /** A field value: a scalar as Python's str() shows it, or a nested
      record. */
  datatype Value = Scalar(text: string) | Nested(entries: seq<(string, Value)>)

  /** An ordered mapping from field name to value. */
  type Record = seq<(string, Value)>

  /** The marker printed for a field the record lacks. */
  const NotAvailable := "N/A"

  /** A Python dict never holds one key twice. */
  predicate DistinctKeys(r: Record)
  {
    forall i, j :: 0 <= i < j < |r| ==> r[i].0 != r[j].0
  }

  /** `key in r` and `r[key]` */
  function Lookup(r: Record, key: string): (v: Option<Value>)
    ensures v.None? <==> forall i :: 0 <= i < |r| ==> r[i].0 != key
    ensures v.Some? ==> exists i :: 0 <= i < |r| && r[i] == (key, v.value)
  {
    if |r| == 0 then None
    else if r[0].0 == key then Some(r[0].1)
    else Lookup(r[1..], key)
  }

  /** Python's str() of a value. A nested record is shown in the shape of
      a dict literal. */
  function Str(v: Value): (s: string)
    ensures v.Scalar? ==> s == v.text
    ensures v.Nested? ==> |s| >= 2 && s[0] == '{' && s[|s| - 1] == '}'
  {
    match v
    case Scalar(t) => t
    case Nested(es) =>
      "{" + Join(seq(|es|, i requires 0 <= i < |es| => "'" + es[i].0 + "': " + Str(es[i].1)), ", ") + "}"
  }

  /** `str(r.get(key, 'N/A'))`: lookup with the not-available default. */
  function GetOr(r: Record, key: string): string
  {
    match Lookup(r, key)
    case Some(v) => Str(v)
    case None => NotAvailable
  }

  /** A field the record lacks is shown as the not-available marker. */
  lemma GetOrAbsent(r: Record, key: string)
    requires forall i :: 0 <= i < |r| ==> r[i].0 != key
    ensures GetOr(r, key) == NotAvailable
  {
  }

  /** A field the record has is shown as str() of the value stored under
      that name. */
  lemma GetOrFound(r: Record, key: string)
    requires exists i :: 0 <= i < |r| && r[i].0 == key
    ensures exists i :: 0 <= i < |r| && r[i].0 == key && GetOr(r, key) == Str(r[i].1)
  {
  }

  /** In a dict, looking a key up finds exactly the value stored under it. */
  lemma LookupFinds(r: Record, key: string, v: Value)
    requires DistinctKeys(r)
    ensures Lookup(r, key) == Some(v) <==> (key, v) in r
  {
    var found := Lookup(r, key);
    if (key, v) in r {
      var i :| 0 <= i < |r| && r[i] == (key, v);
      assert found.Some?;
      var j :| 0 <= j < |r| && r[j] == (key, found.value);
      assert i == j;
    }
  }

  /** A field present in the record is shown as str() of its value. */
  lemma GetOrPresent(r: Record, key: string, v: Value)
    requires DistinctKeys(r) && (key, v) in r
    ensures GetOr(r, key) == Str(v)
  {
    LookupFinds(r, key, v);
  }

  /** Lookups do not depend on the order in which a dict holds its
      entries. */
  lemma LookupIgnoresOrder(a: Record, b: Record, key: string)
    requires DistinctKeys(a) && DistinctKeys(b)
    requires forall e :: e in a <==> e in b
    ensures Lookup(a, key) == Lookup(b, key)
  {
    match Lookup(a, key)
    case Some(v) =>
      LookupFinds(a, key, v);
      LookupFinds(b, key, v);
    case None =>
      if Lookup(b, key).Some? {
        var v := Lookup(b, key).value;
        LookupFinds(b, key, v);
        LookupFinds(a, key, v);
      }
  }
}
