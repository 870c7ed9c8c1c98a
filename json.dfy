/** Values the program keeps in its state file and exchanges as JSON: a
    Python dict is an ordered list of (key, value) fields, so that insertion
    order, which Python dicts keep, is part of the value. */
module Json {
  import opened Wrappers

  datatype Json =
    | JNull
    | JBool(b: bool)
    | JInt(i: int)
    | JReal(r: real)
    | JStr(s: string)
    | JList(items: seq<Json>)
    | JObj(fields: Fields)

  /** The fields of a dict, first inserted first. */
  datatype Fields = NoFields | Field(key: string, val: Json, rest: Fields)

  /** `json.loads`, `json.dumps(..., indent=2, ensure_ascii=False)` and
      `str()` of a float, list or dict: the serialiser is not part of the
      model, so these are supplied as functions. `loads` is None when the
      text is not valid JSON. */
  datatype Codec = Codec(loads: string -> Option<Json>, dumps: Json -> string, repr: Json -> string)

  /** A codec whose parser reads back what its printer wrote. */
  ghost predicate RoundTrips(c: Codec) {
    forall j :: c.loads(c.dumps(j)) == Some(j)
  }

  /** `len(d)`. */
  function Count(fs: Fields): nat {
    if fs.NoFields? then 0 else 1 + Count(fs.rest)
  }

  /** `list(d)`: the keys in insertion order. */
  function Keys(fs: Fields): (ks: seq<string>)
    ensures |ks| == Count(fs)
  {
    if fs.NoFields? then [] else [fs.key] + Keys(fs.rest)
  }

  /** `k in d` for a dict. */
  predicate HasKey(fs: Fields, k: string) {
    fs.Field? && (fs.key == k || HasKey(fs.rest, k))
  }

  lemma {:induction false} HasKeyIsInKeys(fs: Fields, k: string)
    ensures HasKey(fs, k) <==> k in Keys(fs)
  {
    if fs.Field? {
      HasKeyIsInKeys(fs.rest, k);
    }
  }

  /** `d[k]` for a dict: the value stored under `k`. */
  function Lookup(fs: Fields, k: string): (r: Option<Json>)
    ensures r.Some? <==> HasKey(fs, k)
  {
    if fs.NoFields? then None
    else if fs.key == k then Some(fs.val)
    else Lookup(fs.rest, k)
  }

  /** Looking up in a dict written out field by field, however long: the
      first field, or the rest. */
  lemma LookupFields()
    ensures forall k, v, rest, q :: Lookup(Field(k, v, rest), q) == if k == q then Some(v) else Lookup(rest, q)
  {}

  /** Keys occur at most once, as in every Python dict. */
  predicate UniqueKeys(fs: Fields) {
    fs.NoFields? || (!HasKey(fs.rest, fs.key) && UniqueKeys(fs.rest))
  }

  /** `d[k] = v`: an existing key keeps its place, a new one goes last. */
  function Put(fs: Fields, k: string, v: Json): (r: Fields)
    ensures Lookup(r, k) == Some(v)
    ensures forall k' :: k' != k ==> Lookup(r, k') == Lookup(fs, k')
  {
    if fs.NoFields? then Field(k, v, NoFields)
    else if fs.key == k then Field(k, v, fs.rest)
    else Field(fs.key, fs.val, Put(fs.rest, k, v))
  }

  /** Assignment keeps an existing key's place and puts a new key last. */
  lemma {:induction false} PutKeys(fs: Fields, k: string, v: Json)
    ensures Keys(Put(fs, k, v)) == if HasKey(fs, k) then Keys(fs) else Keys(fs) + [k]
  {
    if fs.Field? && fs.key != k {
      PutKeys(fs.rest, k, v);
    }
  }

  /** Assignment keeps a dict's keys unique. */
  lemma {:induction false} PutKeepsUnique(fs: Fields, k: string, v: Json)
    requires UniqueKeys(fs)
    ensures UniqueKeys(Put(fs, k, v))
  {
    if fs.Field? && fs.key != k {
      PutKeepsUnique(fs.rest, k, v);
      assert HasKey(Put(fs.rest, k, v), fs.key) == Lookup(Put(fs.rest, k, v), fs.key).Some?;
    }
  }

  /** The dict with one more field at the end. */
  function AddLast(fs: Fields, k: string, v: Json): (r: Fields)
    ensures Keys(r) == Keys(fs) + [k]
  {
    if fs.NoFields? then Field(k, v, NoFields) else Field(fs.key, fs.val, AddLast(fs.rest, k, v))
  }

  /** Assigning a key the dict does not have yet adds it at the end. */
  lemma {:induction false} PutNewKey(fs: Fields, k: string, v: Json)
    requires !HasKey(fs, k)
    ensures Put(fs, k, v) == AddLast(fs, k, v)
  {
    if fs.Field? {
      PutNewKey(fs.rest, k, v);
    }
  }

  /** Looking up in a dict with a field added at the end: the old fields
      first, then the new one. */
  lemma {:induction false} LookupAddLast(fs: Fields, k: string, v: Json, q: string)
    ensures Lookup(AddLast(fs, k, v), q) == if HasKey(fs, q) then Lookup(fs, q) else if q == k then Some(v) else None
  {
    if fs.Field? {
      LookupAddLast(fs.rest, k, v, q);
    }
  }

  /** The fields of `a`, then those of `b`. */
  function Concat(a: Fields, b: Fields): (r: Fields)
    ensures Keys(r) == Keys(a) + Keys(b)
  {
    if a.NoFields? then b else Field(a.key, a.val, Concat(a.rest, b))
  }

  lemma {:induction false} ConcatAddLast(a: Fields, k: string, v: Json, b: Fields)
    ensures Concat(AddLast(a, k, v), b) == Concat(a, Field(k, v, b))
  {
    if a.Field? {
      ConcatAddLast(a.rest, k, v, b);
    }
  }

  lemma {:induction false} ConcatNoFields(a: Fields)
    ensures Concat(a, NoFields) == a
  {
    if a.Field? {
      ConcatNoFields(a.rest);
    }
  }

  /** Assigning several fields in order, as a `for key, value in ...:
      d[key] = value` loop does. */
  function PutAll(fs: Fields, updates: Fields): (r: Fields)
    ensures forall k :: !HasKey(updates, k) ==> Lookup(r, k) == Lookup(fs, k)
    decreases updates
  {
    if updates.NoFields? then fs
    else PutAll(Put(fs, updates.key, updates.val), updates.rest)
  }

  /** With updates whose keys are unique, as keyword arguments are, every
      key given ends with the value given for it. */
  lemma {:induction false} PutAllWins(fs: Fields, updates: Fields, k: string)
    requires UniqueKeys(updates) && HasKey(updates, k)
    ensures Lookup(PutAll(fs, updates), k) == Lookup(updates, k)
    decreases updates
  {
    if updates.key != k {
      PutAllWins(Put(fs, updates.key, updates.val), updates.rest, k);
    }
  }

  /** The dict `{k: v}`. */
  function Single(k: string, v: Json): Fields {
    Field(k, v, NoFields)
  }
}
