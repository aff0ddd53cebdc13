// main/Company.tsx: the company list de-duplicated by code through a
// JavaScript `Map`, and the name filter over it.

module CompanyList {
  import opened Common
  import Strs
  import Seqs

  datatype Company = Company(code: string, name: string)

  function Codes(cs: seq<Company>): (r: seq<string>)
    ensures |r| == |cs| && forall k :: 0 <= k < |cs| ==> r[k] == cs[k].code
  {
    seq(|cs|, k requires 0 <= k < |cs| => cs[k].code)
  }

  lemma CodesPrefix(cs: seq<Company>)
    requires cs != []
    ensures Codes(cs) == Codes(cs[..|cs| - 1]) + [cs[|cs| - 1].code]
  {
  }

  /** A JavaScript `Map` from code to company: its keys in first-insertion
      order and its current values. */
  datatype JsMap = JsMap(keys: seq<string>, vals: map<string, Company>)

  /** `map.set(c.code, c)`: a new key goes to the end, an existing key
      keeps its place and gets the new value. */
  function Set(m: JsMap, c: Company): JsMap
  {
    if c.code in m.vals then JsMap(m.keys, m.vals[c.code := c])
    else JsMap(m.keys + [c.code], m.vals[c.code := c])
  }

  /** `new Map(cs.map(c => [c.code, c]))`. */
  function Build(cs: seq<Company>): (r: JsMap)
    ensures forall i :: 0 <= i < |r.keys| ==> r.keys[i] in r.vals
    ensures forall c :: c in r.vals ==> c in r.keys
  {
    if cs == [] then JsMap([], map[]) else Set(Build(cs[..|cs| - 1]), cs[|cs| - 1])
  }

  /** `Array.from(map.values())`. */
  function Values(m: JsMap): (r: seq<Company>)
    requires forall i :: 0 <= i < |m.keys| ==> m.keys[i] in m.vals
    ensures |r| == |m.keys| && forall i :: 0 <= i < |r| ==> r[i] == m.vals[m.keys[i]]
  {
    seq(|m.keys|, i requires 0 <= i < |m.keys| => m.vals[m.keys[i]])
  }

  /** The companies `setCompanies` receives. */
  function Dedupe(cs: seq<Company>): seq<Company>
  {
    Values(Build(cs))
  }

  /** The position of the first company with code `c`. */
  function FirstIndex(codes: seq<string>, c: string): (r: nat)
    requires c in codes
    ensures r < |codes| && codes[r] == c && c !in codes[..r]
  {
    if codes[0] == c then 0
    else
      var k := FirstIndex(codes[1..], c);
      assert codes[1..][..k] == codes[1..k + 1];
      k + 1
  }

  /** Appending never moves a first occurrence. */
  lemma FirstIndexAppend(codes: seq<string>, x: string, c: string)
    requires c in codes
    ensures FirstIndex(codes + [x], c) == FirstIndex(codes, c)
  {
    var k := FirstIndex(codes, c);
    assert (codes + [x])[..k] == codes[..k];
    FirstIndexUnique(codes + [x], c, k);
  }

  /** The first occurrence is the position with `c` there and not before. */
  lemma {:induction false} FirstIndexUnique(codes: seq<string>, c: string, k: int)
    requires 0 <= k < |codes| && codes[k] == c && c !in codes[..k]
    ensures FirstIndex(codes, c) == k
  {
    if k > 0 {
      assert codes[..k][0] == codes[0];
      assert codes[1..][..k - 1] == codes[1..k];
      assert forall j :: 1 <= j < k ==> codes[j] == codes[..k][j];
      FirstIndexUnique(codes[1..], c, k - 1);
    }
  }

  /** `k` is the last position of `cs` holding code `c`. */
  predicate LastAt(cs: seq<Company>, k: int, c: string)
  {
    0 <= k < |cs| && cs[k].code == c && forall j :: k < j < |cs| ==> cs[j].code != c
  }

  /** The last company with code `c`: the value the `Map` ends up with. */
  function LastOf(cs: seq<Company>, c: string): (r: Company)
    requires c in Codes(cs)
    ensures r in cs && r.code == c
    ensures exists k :: LastAt(cs, k, c) && cs[k] == r
  {
    CodesPrefix(cs);
    if cs[|cs| - 1].code == c then
      assert LastAt(cs, |cs| - 1, c);
      cs[|cs| - 1]
    else
      var init := cs[..|cs| - 1];
      var r := LastOf(init, c);
      var k :| LastAt(init, k, c) && init[k] == r;
      assert forall j :: k < j < |cs| - 1 ==> init[j] == cs[j];
      assert LastAt(cs, k, c);
      r
  }

  /** `keys` are codes of `codes`, listed by where each first occurs. */
  ghost predicate InFirstOrder(codes: seq<string>, keys: seq<string>)
  {
    forall a, b :: 0 <= a < b < |keys| ==>
      keys[a] in codes && keys[b] in codes && FirstIndex(codes, keys[a]) < FirstIndex(codes, keys[b])
  }

  /** What the `Map` built from `cs` holds: a key for every code and no
      other, no key twice, keys in the order of first appearance, and for
      each code its last company. */
  ghost predicate Holds(cs: seq<Company>, m: JsMap)
  {
    && (forall c :: c in m.vals <==> c in Codes(cs))
    && Seqs.Distinct(m.keys)
    && (forall i :: 0 <= i < |m.keys| ==> m.keys[i] in m.vals)
    && InFirstOrder(Codes(cs), m.keys)
    && (forall c :: c in m.vals ==> m.vals[c] == LastOf(cs, c))
  }

  lemma {:induction false} BuildHolds(cs: seq<Company>)
    ensures Holds(cs, Build(cs))
  {
    if cs != [] {
      var init := cs[..|cs| - 1];
      var last := cs[|cs| - 1];
      BuildHolds(init);
      CodesPrefix(cs);
      SetHolds(init, Build(init), last);
      assert init + [last] == cs;
    }
  }

  /** The last company of a longer list: the new one when its code
      matches. */
  lemma LastOfAppend(init: seq<Company>, last: Company, c: string)
    requires c in Codes(init + [last])
    ensures c == last.code ==> LastOf(init + [last], c) == last
    ensures c != last.code ==> c in Codes(init) && LastOf(init + [last], c) == LastOf(init, c)
  {
    var cs := init + [last];
    assert cs[..|cs| - 1] == init;
    CodesPrefix(cs);
  }

  /** One `set` keeps `Holds` from a prefix to the prefix and one more company. */
  lemma SetHolds(init: seq<Company>, m: JsMap, last: Company)
    requires Holds(init, m)
    ensures Holds(init + [last], Set(m, last))
  {
    var cs := init + [last];
    var m' := Set(m, last);
    assert cs[..|cs| - 1] == init;
    CodesPrefix(cs);
    forall c | c in m'.vals ensures m'.vals[c] == LastOf(cs, c) {
      LastOfAppend(init, last, c);
    }
    if last.code in m.vals {
      SetOrderKept(init, m, last);
    } else {
      assert last.code !in m.keys;
      Seqs.DistinctAppend(m.keys, last.code);
      SetOrderNew(init, m.keys, last);
    }
  }

  /** Setting an existing key keeps the key order and its meaning. */
  lemma SetOrderKept(init: seq<Company>, m: JsMap, last: Company)
    requires Holds(init, m) && last.code in m.vals
    ensures InFirstOrder(Codes(init + [last]), m.keys)
  {
    CodesPrefix(init + [last]);
    assert (init + [last])[..|init|] == init;
    forall c | c in Codes(init)
      ensures FirstIndex(Codes(init + [last]), c) == FirstIndex(Codes(init), c)
    {
      FirstIndexAppend(Codes(init), last.code, c);
    }
  }

  /** Setting a new key appends it after every key already there. */
  lemma SetOrderNew(init: seq<Company>, keys: seq<string>, last: Company)
    requires InFirstOrder(Codes(init), keys) && last.code !in Codes(init)
    requires forall i :: 0 <= i < |keys| ==> keys[i] in Codes(init)
    ensures InFirstOrder(Codes(init + [last]), keys + [last.code])
  {
    var codes := Codes(init + [last]);
    var keys' := keys + [last.code];
    CodesPrefix(init + [last]);
    assert (init + [last])[..|init|] == init;
    assert codes == Codes(init) + [last.code];
    assert FirstIndex(codes, last.code) == |init| by {
      FirstIndexUnique(codes, last.code, |init|);
    }
    forall a, b | 0 <= a < b < |keys'|
      ensures keys'[a] in codes && keys'[b] in codes && FirstIndex(codes, keys'[a]) < FirstIndex(codes, keys'[b])
    {
      assert keys'[a] == keys[a];
      FirstIndexAppend(Codes(init), last.code, keys[a]);
      if b < |keys| {
        assert keys'[b] == keys[b];
        FirstIndexAppend(Codes(init), last.code, keys[b]);
      }
    }
  }

  /** No two companies in the de-duplicated list share a code, every input
      code is in it, each code carries its last company, and the list
      follows the order in which codes first appear. */
  lemma DedupeSpec(cs: seq<Company>)
    ensures Seqs.Distinct(Codes(Dedupe(cs)))
    ensures forall c :: c in Codes(cs) ==> c in Codes(Dedupe(cs))
    ensures forall i :: 0 <= i < |Dedupe(cs)| ==>
      Dedupe(cs)[i].code in Codes(cs) && Dedupe(cs)[i] == LastOf(cs, Dedupe(cs)[i].code)
    ensures forall a, b :: 0 <= a < b < |Dedupe(cs)| ==>
      Dedupe(cs)[a].code in Codes(cs) && Dedupe(cs)[b].code in Codes(cs)
      && FirstIndex(Codes(cs), Dedupe(cs)[a].code) < FirstIndex(Codes(cs), Dedupe(cs)[b].code)
  {
    var m := Build(cs);
    BuildHolds(cs);
    var d := Dedupe(cs);
    assert Codes(d) == m.keys;
    forall c | c in Codes(cs) ensures c in Codes(d) {
      assert c in m.vals;
    }
    forall i | 0 <= i < |d| ensures d[i] == LastOf(cs, d[i].code) {
      assert d[i] == m.vals[m.keys[i]];
      assert d[i].code == m.keys[i];
    }
  }

  /** `if (json.data)`: a response without data keeps the list. */
  function OnCompanies(current: seq<Company>, data: Option<seq<Company>>): (r: seq<Company>)
    ensures data.None? ==> r == current
    ensures data.Some? ==> r == Dedupe(data.value)
  {
    match data
    case None => current
    case Some(d) => Dedupe(d)
  }

  /** The name test: the lower-cased name includes the lower-cased query. */
  predicate NameMatches(c: Company, query: string)
  {
    Strs.Contains(Strs.Lower(c.name), Strs.Lower(query))
  }

  /** `companies.filter(company => …)`. */
  function FilterByName(cs: seq<Company>, query: string): (r: seq<Company>)
    ensures forall i :: 0 <= i < |r| ==> NameMatches(r[i], query)
  {
    Seqs.Filter(cs, (c: Company) => NameMatches(c, query))
  }

  /** The filter keeps, in order, exactly the companies whose name matches;
      the empty query keeps all of them. */
  lemma FilterByNameSpec(cs: seq<Company>, query: string, c: Company)
    ensures c in FilterByName(cs, query) <==> c in cs && NameMatches(c, query)
    ensures Seqs.IsSubsequence(FilterByName(cs, query), cs)
    ensures query == [] ==> FilterByName(cs, query) == cs
  {
    Seqs.FilterMembers(cs, (c: Company) => NameMatches(c, query), c);
    Seqs.FilterIsSubsequence(cs, (c: Company) => NameMatches(c, query));
    if query == [] {
      forall k | 0 <= k < |cs| ensures NameMatches(cs[k], query) {
        Strs.ContainsEmpty(Strs.Lower(cs[k].name));
      }
      Seqs.FilterAll(cs, (c: Company) => NameMatches(c, query));
    }
  }
}
