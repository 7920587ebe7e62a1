/** utils.py: the configuration check of `load_config` and the itertools
    `partition` recipe. */
module Utils {
  import opened Py

  // ---- partition ----

  /** The elements of `xs` that satisfy `p`, in their order in `xs`. */
  function Filter<T>(p: T -> bool, xs: seq<T>): seq<T> {
    if xs == [] then [] else (if p(xs[0]) then [xs[0]] else []) + Filter(p, xs[1..])
  }

  /** Filtering is stable: it commutes with concatenation, so the kept
      elements keep their relative order. */
  lemma {:induction false} FilterAppend<T>(p: T -> bool, a: seq<T>, b: seq<T>)
    ensures Filter(p, a + b) == Filter(p, a) + Filter(p, b)
  {
    if a == [] {
      assert a + b == b;
    } else {
      assert (a + b)[0] == a[0];
      assert (a + b)[1..] == a[1..] + b;
      FilterAppend(p, a[1..], b);
      var h := if p(a[0]) then [a[0]] else [];
      assert Filter(p, a + b) == h + (Filter(p, a[1..]) + Filter(p, b));
      assert h + (Filter(p, a[1..]) + Filter(p, b)) == (h + Filter(p, a[1..])) + Filter(p, b);
    }
  }

  /** Filtering keeps every occurrence of a satisfying element and no other. */
  lemma {:induction false} FilterCount<T>(p: T -> bool, xs: seq<T>, x: T)
    ensures multiset(Filter(p, xs))[x] == if p(x) then multiset(xs)[x] else 0
  {
    if xs != [] {
      FilterCount(p, xs[1..], x);
      assert xs == [xs[0]] + xs[1..];
    }
  }

  lemma FilterMember<T>(p: T -> bool, xs: seq<T>, x: T)
    ensures x in Filter(p, xs) <==> x in xs && p(x)
  {
    FilterCount(p, xs, x);
    assert x in Filter(p, xs) <==> multiset(Filter(p, xs))[x] > 0;
    assert x in xs <==> multiset(xs)[x] > 0;
  }

  /** The negation of a predicate. */
  function Not<T>(p: T -> bool): T -> bool {
    x => !p(x)
  }

  /** The two filters of `partition` split the multiset of `xs` between them. */
  lemma PartitionCounts<T>(pred: T -> bool, xs: seq<T>)
    ensures forall x :: multiset(Filter(Not(pred), xs))[x] == if pred(x) then 0 else multiset(xs)[x]
    ensures forall x :: multiset(Filter(pred, xs))[x] == if pred(x) then multiset(xs)[x] else 0
  {
    forall x
      ensures multiset(Filter(Not(pred), xs))[x] == if pred(x) then 0 else multiset(xs)[x]
      ensures multiset(Filter(pred, xs))[x] == if pred(x) then multiset(xs)[x] else 0
    {
      FilterCount(Not(pred), xs, x);
      FilterCount(pred, xs, x);
    }
  }

  /** `partition(pred, xs)`: the elements for which `pred` is false, then
      those for which it is true, each in input order. */
  function Partition<T(!new)>(pred: T -> bool, xs: seq<T>): (r: (seq<T>, seq<T>))
    ensures forall x :: multiset(r.0)[x] == if pred(x) then 0 else multiset(xs)[x]
    ensures forall x :: multiset(r.1)[x] == if pred(x) then multiset(xs)[x] else 0
    ensures multiset(r.0) + multiset(r.1) == multiset(xs)
    ensures |r.0| + |r.1| == |xs|
    ensures forall x :: x in r.0 <==> x in xs && !pred(x)
    ensures forall x :: x in r.1 <==> x in xs && pred(x)
  {
    var r := (Filter(Not(pred), xs), Filter(pred, xs));
    PartitionCounts(pred, xs);
    assert forall x :: (multiset(r.0) + multiset(r.1))[x] == multiset(xs)[x];
    assert multiset(r.0) + multiset(r.1) == multiset(xs);
    assert |multiset(r.0) + multiset(r.1)| == |multiset(xs)|;
    assert forall x :: x in r.0 <==> multiset(r.0)[x] > 0;
    assert forall x :: x in r.1 <==> multiset(r.1)[x] > 0;
    assert forall x :: x in xs <==> multiset(xs)[x] > 0;
    r
  }

  /** Both components of `partition` are stable: partitioning a
      concatenation concatenates the partitions. */
  lemma PartitionAppend<T(!new)>(pred: T -> bool, a: seq<T>, b: seq<T>)
    ensures Partition(pred, a + b).0 == Partition(pred, a).0 + Partition(pred, b).0
    ensures Partition(pred, a + b).1 == Partition(pred, a).1 + Partition(pred, b).1
  {
    FilterAppend(Not(pred), a, b);
    FilterAppend(pred, a, b);
  }

  // ---- load_config ----

  /** A Python object to which `load_config` adds attributes. */
  class Attributes {
    var attrs: map<string, Json>

    constructor ()
      ensures attrs == map[]
    {
      attrs := map[];
    }
  }

  datatype Loaded = Section(section: Json) | Object(obj: Attributes)

  /** The checks `load_config` makes on the parsed document before it uses
      the section: the top-level key must be present and the section must
      hold every required key. The result is the section's fields. */
  function RequiredSection(config: Json, topKey: string, keys: seq<string>): (r: Result<map<string, Json>>)
    ensures r.Ok? <==>
      && config.JObj? && topKey in config.fields
      && config.fields[topKey].JObj?
      && forall k :: k in keys ==> k in config.fields[topKey].fields
    ensures r.Ok? ==> r.value == config.fields[topKey].fields
    ensures config.JObj? && topKey !in config.fields ==> r.Err? && r.error.Raised?
    ensures config.JObj? && topKey in config.fields && config.fields[topKey].JObj?
            && (exists k :: k in keys && k !in config.fields[topKey].fields)
            ==> r.Err? && r.error.Raised?
  {
    var present :- Contains(config, topKey);
    if !present then Err(Raised(JStr("top-level key missing from the configuration")))
    else
      var section :- Get(config, topKey);
      if !section.JObj? then Err(AttributeError)
      else if !((set k | k in keys) <= section.fields.Keys) then
        Err(Raised(JStr("one or more settings missing from the configuration")))
      else Ok(section.fields)
  }

  /** `load_config` with the YAML file already parsed into `config`. With an
      object, every required key becomes an attribute holding the section's
      value and the object is returned; without one the section is returned.
      Nothing is set when a check fails. */
  method LoadConfig(config: Json, topKey: string, keys: seq<string>, obj: Attributes?)
    returns (r: Result<Loaded>)
    modifies obj
    ensures r.Ok? <==> RequiredSection(config, topKey, keys).Ok?
    ensures r.Err? ==> r.error == RequiredSection(config, topKey, keys).error
    ensures r.Err? && obj != null ==> obj.attrs == old(obj.attrs)
    ensures r.Ok? && obj == null ==> r.value == Section(config.fields[topKey])
    ensures r.Ok? && obj != null ==>
      && r.value == Object(obj)
      && obj.attrs == old(obj.attrs) + map k | k in keys :: config.fields[topKey].fields[k]
  {
    var checked := RequiredSection(config, topKey, keys);
    if checked.Err? {
      return Err(checked.error);
    }
    var section := checked.value;
    if obj == null {
      return Ok(Section(config.fields[topKey]));
    }
    var required := set k | k in keys;
    var remaining := required;
    while remaining != {}
      invariant remaining <= required
      invariant obj.attrs == old(obj.attrs) + map k | k in required - remaining :: section[k]
      decreases remaining
    {
      var c :| c in remaining;
      obj.attrs := obj.attrs[c := section[c]];
      remaining := remaining - {c};
    }
    assert required - remaining == required;
    r := Ok(Object(obj));
  }
}
