/** The browser objects the forms hand to the server: chosen files and `FormData` bodies. */
module Forms {
  import opened Wrappers

  /** A chosen file, as far as the forms look at it: its name, MIME type and size in bytes. */
  datatype File = File(name: string, mimeType: string, size: int)

  /** A `FormData` value: a string or a file. */
  datatype Part = Value(text: string) | Upload(file: File)

  /** A `FormData` body: its entries in the order they were appended. */
  type FormData = seq<(string, Part)>

  /** `form.has(key)`. */
  predicate Has(form: FormData, key: string) { exists i | 0 <= i < |form| :: form[i].0 == key }

  /** The entries of a body, keys only, in order. */
  function Keys(form: FormData): (ks: seq<string>)
    ensures |ks| == |form|
    ensures forall i | 0 <= i < |form| :: ks[i] == form[i].0
  {
    seq(|form|, i requires 0 <= i < |form| => form[i].0)
  }

  /** `form.get(key)`: the first entry under `key`, `None` for `null`. */
  function Lookup(form: FormData, key: string): (r: Option<Part>)
    ensures r.Some? <==> Has(form, key)
    ensures r.Some? ==> exists i | 0 <= i < |form| :: form[i] == (key, r.value)
    decreases |form|
  {
    if form == [] then None
    else if form[0].0 == key then Some(form[0].1)
    else Lookup(form[1..], key)
  }

  /** Looking up in two bodies appended one after the other: the first one that has the key answers. */
  lemma {:induction false} LookupAppend(x: FormData, y: FormData, key: string)
    ensures Lookup(x + y, key) == if Lookup(x, key).Some? then Lookup(x, key) else Lookup(y, key)
    decreases |x|
  {
    if x == [] {
      assert x + y == y;
    } else {
      assert (x + y)[0] == x[0];
      assert (x + y)[1..] == x[1..] + y;
      LookupAppend(x[1..], y, key);
    }
  }
}
