/** Request validation and query encoding shared by both lookups, and the
    list-membership test used when checking the configured language. */
module Utils {
  import opened Models
  import opened UrlValues

  /** The check both lookups run first: a request must exist, and must name
      at least one address, either in `ip` or in `ips`. */
  function ValidateParams(params: Request?): (r: Option<Error>)
    reads params
    ensures params == null ==> r == Some(MissingInput)
    ensures params != null ==> (r.Some? <==> params.ip == "" && |params.ips| == 0)
    ensures params != null && r.Some? ==> r.value == MissingIP
  {
    if params == null then Some(MissingInput)
    else if params.ip == "" && |params.ips| == 0 then Some(MissingIP)
    else None
  }

  /** The include names, in the order the flags are tested. */
  const IncludeOrder: seq<string> :=
    ["security", "hostname", "liveHostname", "hostnameFallbackLive", "useragent"]

  /** `acc` with `name` appended when `flag` is set. */
  function AppendIf(acc: seq<string>, flag: bool, name: string): seq<string>
  {
    if flag then acc + [name] else acc
  }

  /** The include names a request asks for: the five flags tested one after
      another, each set flag appending its name. */
  function IncludeNames(security: bool, hostname: bool, liveHostname: bool,
                        hostnameFallbackLive: bool, useragent: bool): seq<string>
  {
    AppendIf(AppendIf(AppendIf(AppendIf(AppendIf([], security, "security"),
      hostname, "hostname"), liveHostname, "liveHostname"),
      hostnameFallbackLive, "hostnameFallbackLive"), useragent, "useragent")
  }

  /** The include names of a request's five flags. */
  function RequestIncludes(params: Request): seq<string>
    reads params
  {
    IncludeNames(params.includeSecurity, params.includeHostname, params.includeLiveHostname,
                 params.includeHostnameFallbackLive, params.includeUseragent)
  }

  /** The names whose flag is set, in the order of `names`. */
  function Selected(names: seq<string>, flags: seq<bool>): seq<string>
    requires |names| == |flags|
  {
    if names == [] then []
    else (if flags[0] then [names[0]] else []) + Selected(names[1..], flags[1..])
  }

  function CountTrue(flags: seq<bool>): nat
  {
    if flags == [] then 0 else (if flags[0] then 1 else 0) + CountTrue(flags[1..])
  }

  /** `a` can be obtained from `b` by deleting elements. */
  predicate Subsequence(a: seq<string>, b: seq<string>)
    decreases |b|
  {
    a == [] || (b != [] && ((a[0] == b[0] && Subsequence(a[1..], b[1..])) || Subsequence(a, b[1..])))
  }

  /** No name occurs twice. */
  predicate Distinct(names: seq<string>)
  {
    forall j, k :: 0 <= j < k < |names| ==> names[j] != names[k]
  }

  /** The entries the query gains from one request, in the order they are added:
      the key, the selected fields, the effective language, the includes. */
  function Prepared(apiKey: string, fields: seq<string>, lang: string, includes: seq<string>): seq<(string, string)>
  {
    [("apiKey", apiKey)] + Pairs("fields", fields) + [("lang", lang)] + Pairs("include", includes)
  }

  /** Appends one `field` entry per element of `values`, in order, duplicates kept. */
  method AddUrlParams(p: Query, field: string, values: seq<string>)
    modifies p
    ensures p.entries == AddAll(old(p.entries), Pairs(field, values))
  {
    for i := 0 to |values|
      invariant p.entries == AddAll(old(p.entries), Pairs(field, values[..i]))
    {
      assert values[..i + 1] == values[..i] + [values[i]];
      PairsSnoc(field, values[..i], values[i]);
      AddAllSnoc(old(p.entries), Pairs(field, values[..i]), field, values[i]);
      p.Add(field, values[i]);
    }
    assert values[..|values|] == values;
  }

  /** Adds the key, the fields, the language and the includes of `params` to `p`.
      An empty request language is replaced, in the request itself, by the
      client's configured language; no other field of the request changes. */
  method PrepareUrlParams(c: Client, p: Query, params: Request)
    modifies p, params`language
    ensures old(params.language) == "" ==> params.language == c.options.language
    ensures old(params.language) != "" ==> params.language == old(params.language)
    ensures p.entries == AddAll(old(p.entries),
                                Prepared(c.options.apiKey, params.fields, params.language, RequestIncludes(params)))
  {
    ghost var start := p.entries;

    p.Add("apiKey", c.options.apiKey);
    ghost var added: seq<(string, string)> := [("apiKey", c.options.apiKey)];
    assert p.entries == AddAll(start, added);

    AddUrlParams(p, "fields", params.fields);
    AddAllConcat(start, added, Pairs("fields", params.fields));
    added := added + Pairs("fields", params.fields);
    assert p.entries == AddAll(start, added);

    if params.language == "" {
      params.language := c.options.language;
    }
    p.Add("lang", params.language);
    AddAllSnoc(start, added, "lang", params.language);
    added := added + [("lang", params.language)];

    assert forall inc :: added + Pairs("include", inc)
                      == Prepared(c.options.apiKey, params.fields, params.language, inc);
    AddIncludes(p, params);
    AddAllConcat(start, added, Pairs("include", RequestIncludes(params)));
  }

  /** The five include tests of the query builder: each set flag appends one
      `include` entry with its name, in the order the flags are tested. */
  method AddIncludes(p: Query, params: Request)
    modifies p
    ensures p.entries == AddAll(old(p.entries), Pairs("include", RequestIncludes(params)))
  {
    ghost var start := p.entries;
    ghost var includes: seq<string> := [];
    assert p.entries == AddAll(start, Pairs("include", includes));
    if params.includeSecurity {
      IncludeStep(start, includes, "security");
      p.Add("include", "security");
    }
    includes := AppendIf(includes, params.includeSecurity, "security");
    assert p.entries == AddAll(start, Pairs("include", includes));
    if params.includeHostname {
      IncludeStep(start, includes, "hostname");
      p.Add("include", "hostname");
    }
    includes := AppendIf(includes, params.includeHostname, "hostname");
    assert p.entries == AddAll(start, Pairs("include", includes));
    if params.includeLiveHostname {
      IncludeStep(start, includes, "liveHostname");
      p.Add("include", "liveHostname");
    }
    includes := AppendIf(includes, params.includeLiveHostname, "liveHostname");
    assert p.entries == AddAll(start, Pairs("include", includes));
    if params.includeHostnameFallbackLive {
      IncludeStep(start, includes, "hostnameFallbackLive");
      p.Add("include", "hostnameFallbackLive");
    }
    includes := AppendIf(includes, params.includeHostnameFallbackLive, "hostnameFallbackLive");
    assert p.entries == AddAll(start, Pairs("include", includes));
    if params.includeUseragent {
      IncludeStep(start, includes, "useragent");
      p.Add("include", "useragent");
    }
    includes := AppendIf(includes, params.includeUseragent, "useragent");
    assert p.entries == AddAll(start, Pairs("include", includes));
    assert includes == RequestIncludes(params);
  }

  /** Whether `s` occurs in `arr`, scanning from the front. */
  method StringInArray(arr: seq<string>, s: string) returns (found: bool)
    ensures found <==> s in arr
  {
    for i := 0 to |arr|
      invariant s !in arr[..i]
    {
      if arr[i] == s {
        return true;
      }
    }
    assert arr[..|arr|] == arr;
    return false;
  }

  // ---------------------------------------------------------------------------
  // Proof helpers for the query builder

  lemma {:induction false} PairsSnoc(key: string, values: seq<string>, v: string)
    ensures Pairs(key, values + [v]) == Pairs(key, values) + [(key, v)]
    decreases |values|
  {
    if values != [] {
      assert (values + [v])[1..] == values[1..] + [v];
      PairsSnoc(key, values[1..], v);
    } else {
      assert values + [v] == [v];
    }
  }

  lemma AddAllSnoc(m: Values, entries: seq<(string, string)>, key: string, value: string)
    ensures AddAll(m, entries + [(key, value)]) == Added(AddAll(m, entries), key, value)
  {
    AddAllConcat(m, entries, [(key, value)]);
  }

  /** One more include entry keeps the query equal to the entries added so far. */
  lemma IncludeStep(m: Values, includes: seq<string>, name: string)
    ensures AddAll(m, Pairs("include", includes + [name]))
         == Added(AddAll(m, Pairs("include", includes)), "include", name)
  {
    PairsSnoc("include", includes, name);
    AddAllSnoc(m, Pairs("include", includes), "include", name);
  }

  // ---------------------------------------------------------------------------
  // What the query builder adds

  /** Selecting by flags keeps one name per set flag. */
  lemma {:induction false} SelectedCount(names: seq<string>, flags: seq<bool>)
    requires |names| == |flags|
    ensures |Selected(names, flags)| == CountTrue(flags)
  {
    if names != [] {
      SelectedCount(names[1..], flags[1..]);
    }
  }

  /** Selecting by flags keeps the names in their given order. */
  lemma {:induction false} SelectedSubsequence(names: seq<string>, flags: seq<bool>)
    requires |names| == |flags|
    ensures Subsequence(Selected(names, flags), names)
  {
    if names != [] {
      SelectedSubsequence(names[1..], flags[1..]);
      var rest := Selected(names[1..], flags[1..]);
      if flags[0] {
        var r := [names[0]] + rest;
        assert r[0] == names[0] && r[1..] == rest;
        assert Subsequence(r, names);
      } else {
        assert Selected(names, flags) == rest;
        assert Subsequence(rest, names);
      }
    }
  }

  /** Only given names are selected. */
  lemma {:induction false} SelectedWithin(names: seq<string>, flags: seq<bool>, x: string)
    requires |names| == |flags|
    ensures x in Selected(names, flags) ==> x in names
  {
    if names != [] {
      SelectedWithin(names[1..], flags[1..], x);
    }
  }

  /** With distinct names, a name is selected exactly when its own flag is set. */
  lemma {:induction false} SelectedMember(names: seq<string>, flags: seq<bool>, i: nat)
    requires |names| == |flags| && i < |names| && Distinct(names)
    ensures names[i] in Selected(names, flags) <==> flags[i]
  {
    var rest := Selected(names[1..], flags[1..]);
    assert Selected(names, flags) == (if flags[0] then [names[0]] else []) + rest;
    if i == 0 {
      SelectedWithin(names[1..], flags[1..], names[0]);
      assert names[0] !in names[1..];
    } else {
      SelectedMember(names[1..], flags[1..], i - 1);
      assert names[i] != names[0];
    }
  }

  /** Deciding one more flag appends its name or nothing. */
  lemma {:induction false} SelectedSnoc(names: seq<string>, flags: seq<bool>, k: nat)
    requires |names| == |flags| && k < |names|
    ensures Selected(names[..k + 1], flags[..k + 1])
         == AppendIf(Selected(names[..k], flags[..k]), flags[k], names[k])
  {
    if k > 0 {
      SelectedSnoc(names[1..], flags[1..], k - 1);
      assert names[..k + 1][1..] == names[1..][..k];
      assert flags[..k + 1][1..] == flags[1..][..k];
      assert names[..k][1..] == names[1..][..k - 1];
      assert flags[..k][1..] == flags[1..][..k - 1];
    }
  }

  /** Filtering five names is testing the five flags one after another. */
  lemma SelectedFive(names: seq<string>, flags: seq<bool>)
    requires |names| == 5 && |flags| == 5
    ensures Selected(names, flags)
         == AppendIf(AppendIf(AppendIf(AppendIf(AppendIf([], flags[0], names[0]),
              flags[1], names[1]), flags[2], names[2]), flags[3], names[3]), flags[4], names[4])
  {
    assert names[..0] == [] && flags[..0] == [];
    SelectedSnoc(names, flags, 0);
    SelectedSnoc(names, flags, 1);
    SelectedSnoc(names, flags, 2);
    SelectedSnoc(names, flags, 3);
    SelectedSnoc(names, flags, 4);
    assert names[..5] == names && flags[..5] == flags;
  }

  /** The five include tests select from IncludeOrder by the request's flags. */
  lemma IncludeNamesSelected(flags: seq<bool>)
    requires |flags| == 5
    ensures IncludeNames(flags[0], flags[1], flags[2], flags[3], flags[4]) == Selected(IncludeOrder, flags)
  {
    SelectedFive(IncludeOrder, flags);
  }

  /** The include entries of a request are the names of IncludeOrder whose flag
      is set, in that order, one per set flag. */
  lemma IncludeNamesSpec(flags: seq<bool>)
    requires |flags| == 5
    ensures var names := IncludeNames(flags[0], flags[1], flags[2], flags[3], flags[4]);
            && |names| == CountTrue(flags)
            && Subsequence(names, IncludeOrder)
            && forall i :: 0 <= i < 5 ==> (IncludeOrder[i] in names <==> flags[i])
  {
    var o := IncludeOrder;
    IncludeNamesSelected(flags);
    SelectedCount(o, flags);
    SelectedSubsequence(o, flags);
    assert Distinct(o);
    forall i | 0 <= i < 5
      ensures o[i] in Selected(o, flags) <==> flags[i]
    {
      SelectedMember(o, flags, i);
    }
  }

  /** Per key, the entries one request adds: one API key, the fields as given,
      one language, the include names as given, and nothing under any other key. */
  lemma PreparedValues(apiKey: string, fields: seq<string>, lang: string, includes: seq<string>, key: string)
    ensures var added := ValuesFor(Prepared(apiKey, fields, lang, includes), key);
            && (key == "apiKey" ==> added == [apiKey])
            && (key == "fields" ==> added == fields)
            && (key == "lang" ==> added == [lang])
            && (key == "include" ==> added == includes)
            && (key !in {"apiKey", "fields", "lang", "include"} ==> added == [])
  {
    var a := [("apiKey", apiKey)];
    var f := Pairs("fields", fields);
    var l := [("lang", lang)];
    var i := Pairs("include", includes);
    ValuesForConcat(a + f + l, i, key);
    ValuesForConcat(a + f, l, key);
    ValuesForConcat(a, f, key);
    ValuesForPairs("fields", fields, key);
    ValuesForPairs("include", includes, key);
  }
}
