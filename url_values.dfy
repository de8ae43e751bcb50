/** The query multimap the client fills before sending a request: each key maps
    to the list of its values, and adding a value appends it to its key's list
    (the behaviour of Go's url.Values.Add). Rendering the multimap as query
    text is not modelled. */
module UrlValues {

  type Values = map<string, seq<string>>

  /** The values of `key`, none if the key is absent. */
  function Get(m: Values, key: string): seq<string>
  {
    if key in m then m[key] else []
  }

  /** Appends one value to a key's list. */
  function Added(m: Values, key: string, value: string): Values
  {
    m[key := Get(m, key) + [value]]
  }

  /** Appends the entries one after another, in order. */
  function AddAll(m: Values, entries: seq<(string, string)>): Values
    decreases |entries|
  {
    if entries == [] then m else AddAll(Added(m, entries[0].0, entries[0].1), entries[1..])
  }

  /** The values carried by the entries with key `key`, in order. */
  function ValuesFor(entries: seq<(string, string)>, key: string): seq<string>
  {
    if entries == [] then []
    else (if entries[0].0 == key then [entries[0].1] else []) + ValuesFor(entries[1..], key)
  }

  /** One entry `(key, v)` per element `v` of `values`. */
  function Pairs(key: string, values: seq<string>): (r: seq<(string, string)>)
    ensures |r| == |values|
  {
    if values == [] then [] else [(key, values[0])] + Pairs(key, values[1..])
  }

  /** Adding entries leaves every earlier value in place and appends, per key,
      exactly the entries' values for that key, in their order. */
  lemma {:induction false} AddAllGet(m: Values, entries: seq<(string, string)>, key: string)
    ensures Get(AddAll(m, entries), key) == Get(m, key) + ValuesFor(entries, key)
    decreases |entries|
  {
    if entries != [] {
      var m' := Added(m, entries[0].0, entries[0].1);
      AddAllGet(m', entries[1..], key);
    }
  }

  /** Adding entries only ever adds keys. */
  lemma {:induction false} AddAllKeys(m: Values, entries: seq<(string, string)>, key: string)
    ensures key in AddAll(m, entries) <==> key in m || ValuesFor(entries, key) != []
    decreases |entries|
  {
    if entries != [] {
      var m' := Added(m, entries[0].0, entries[0].1);
      AddAllKeys(m', entries[1..], key);
    }
  }

  /** Adding two lists of entries is adding their concatenation. */
  lemma {:induction false} AddAllConcat(m: Values, a: seq<(string, string)>, b: seq<(string, string)>)
    ensures AddAll(m, a + b) == AddAll(AddAll(m, a), b)
    decreases |a|
  {
    if a != [] {
      assert (a + b)[1..] == a[1..] + b;
      AddAllConcat(Added(m, a[0].0, a[0].1), a[1..], b);
    } else {
      assert a + b == b;
    }
  }

  lemma {:induction false} ValuesForConcat(a: seq<(string, string)>, b: seq<(string, string)>, key: string)
    ensures ValuesFor(a + b, key) == ValuesFor(a, key) + ValuesFor(b, key)
    decreases |a|
  {
    if a != [] {
      assert (a + b)[1..] == a[1..] + b;
      ValuesForConcat(a[1..], b, key);
      assert (a + b)[0] == a[0];
    } else {
      assert a + b == b;
    }
  }

  /** The entries for one key carry exactly the given values, and nothing for any other key. */
  lemma {:induction false} ValuesForPairs(field: string, values: seq<string>, key: string)
    ensures ValuesFor(Pairs(field, values), key) == if key == field then values else []
    decreases |values|
  {
    if values != [] {
      ValuesForPairs(field, values[1..], key);
    }
  }

  /** The query object a request is built in; methods append to it in place. */
  class Query {
    var entries: Values

    constructor (initial: Values)
      ensures entries == initial
    {
      entries := initial;
    }

    method Add(key: string, value: string)
      modifies this
      ensures entries == Added(old(entries), key, value)
    {
      entries := Added(entries, key, value);
    }
  }
}
