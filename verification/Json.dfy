/** JSON values, the two-layer merge, and the tombstone helpers shared by the
    configuration modules. */
module Json {

  // The section names the configuration manager knows are spelt as
  // constructors; every other object key is a Name.
  datatype Key =
    | Providers
    | Models
    | Routes
    | UnionSnapshot
    | FormatPreference
    | MapField(field: Field)
    | DiscoveryField(keyLevel: bool)
    | Name(s: string)

  // The per-provider map sections whose entries the admin API edits one by one.
  datatype Field = ModelMap | Disabled | Variants

  datatype Json =
    | Null
    | Bool(b: bool)
    | Num(digits: int, exponent: int) // a decimal literal, digits * 10^exponent
    | Str(s: string)
    | List(items: seq<Json>)
    | Obj(fields: map<Key, Json>)

  type Section = map<Key, Json>

  // Python truth value of a JSON value.
  predicate Falsy(v: Json) {
    match v
    case Null => true
    case Bool(b) => !b
    case Num(digits, _) => digits == 0
    case Str(s) => s == ""
    case List(items) => items == []
    case Obj(fields) => fields == map[]
  }

  /** The values Python counts as false: null, false, zero and the empty ones. */
  lemma FalsyExactly(v: Json)
    ensures Falsy(v) <==> v in [Null, Bool(false), Str(""), List([]), Obj(map[])] || (v.Num? && v.digits == 0)
  {
  }

  // The object under a key; an absent or non-object value reads as empty.
  function Sub(s: Section, k: Key): Section {
    if k in s && s[k].Obj? then s[k].fields else map[]
  }

  // An object section may be missing or falsy, never a scalar with content.
  predicate SectionOk(s: Section, k: Key) {
    k in s ==> s[k].Obj? || Falsy(s[k])
  }

  function DeepMerge(base: Section, over: Section): (out: Section)
    ensures out.Keys == base.Keys + over.Keys
    decreases Obj(over)
  {
    map k | k in base.Keys + over.Keys :: MergeAt(base, over, k)
  }

  // What a merged layer holds under one key of either layer.
  function MergeAt(base: Section, over: Section, k: Key): Json
    requires k in base || k in over
    decreases Obj(over), 0
  {
    if k !in over then base[k]
    else if over[k].Obj? && k in base && base[k].Obj? then
      Obj(DeepMerge(base[k].fields, over[k].fields))
    else over[k]
  }

  /** The merge as the loader runs it: a copy of the base layer, overwritten key
      by key. */
  method MergeInto(base: Section, over: Section) returns (out: Section)
    ensures out == DeepMerge(base, over)
    decreases Obj(over)
  {
    out := base;
    var todo := over.Keys;
    while todo != {}
      invariant todo <= over.Keys
      invariant MergedUpTo(base, over, todo, out)
      decreases |todo|
    {
      var k :| k in todo;
      var v := over[k];
      if v.Obj? && k in out && out[k].Obj? {
        v := MergeValue(out[k].fields, over, k);
      }
      MergedStep(base, over, todo, out, k, v);
      out := out[k := v];
      todo := todo - {k};
    }
    MergedAll(base, over, out);
  }

  method MergeValue(inner: Section, over: Section, k: Key) returns (v: Json)
    requires k in over && over[k].Obj?
    ensures v == Obj(DeepMerge(inner, over[k].fields))
    decreases Obj(over), 0
  {
    var merged := MergeInto(inner, over[k].fields);
    v := Obj(merged);
  }

  // The loop has treated every override key but those in todo.
  ghost predicate MergedUpTo(base: Section, over: Section, todo: set<Key>, out: Section) {
    && out.Keys == base.Keys + (over.Keys - todo)
    && forall k :: k in out ==>
         out[k] == if k in over && k !in todo then MergeAt(base, over, k) else base[k]
  }

  lemma MergedStep(base: Section, over: Section, todo: set<Key>, out: Section, k: Key, v: Json)
    requires MergedUpTo(base, over, todo, out) && k in todo && todo <= over.Keys
    requires v == MergeAt(base, over, k)
    ensures MergedUpTo(base, over, todo - {k}, out[k := v])
  {
  }

  lemma MergedAll(base: Section, over: Section, out: Section)
    requires MergedUpTo(base, over, {}, out)
    ensures out == DeepMerge(base, over)
  {
  }

  function StripNulls(s: Section): (r: Section)
    ensures r.Keys <= s.Keys
  {
    map k | k in s && s[k] != Null :: s[k]
  }

  lemma {:induction false} MergeEmpty(base: Section)
    ensures DeepMerge(base, map[]) == base
  {
    assert forall k :: k in base ==> DeepMerge(base, map[])[k] == base[k];
  }
}
