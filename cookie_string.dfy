/**
 * The cookie string `Pinterest::login` hands to the cookie jar: one
 * `name=value;` entry per entry of the cookie map, in the map's iteration
 * order, which the program does not fix.
 */
module CookieString {

  /** The entry pushed for one cookie: its name, `=`, its value, `;`. */
  function Entry(name: string, value: string): string {
    name + "=" + value + ";"
  }

  /** The names listed in `order`. */
  function Listed(order: seq<string>): set<string> {
    set k | k in order
  }

  /** `order` lists every key of `keys` exactly once: a possible iteration order of a map with those keys. */
  predicate IsEnumeration(order: seq<string>, keys: set<string>) {
    && (forall i, j :: 0 <= i < j < |order| ==> order[i] != order[j])
    && Listed(order) == keys
  }

  /** The string the loop builds when it visits the map's entries in `order`. */
  function Serialize(m: map<string, string>, order: seq<string>): string
    requires Listed(order) <= m.Keys
    decreases |order|
  {
    if order == [] then ""
    else
      var last := order[|order| - 1];
      assert last in Listed(order);
      Serialize(m, order[..|order| - 1]) + Entry(last, m[last])
  }

  /** `s` is what the loop may build from `m`: the entries in some order that visits every key once. */
  ghost predicate IsCookieString(s: string, m: map<string, string>) {
    exists order :: IsEnumeration(order, m.Keys) && s == Serialize(m, order)
  }

  /** An enumeration of the keys and its string are a witness of `IsCookieString`. */
  lemma Enumerated(s: string, m: map<string, string>, order: seq<string>)
    requires IsEnumeration(order, m.Keys) && s == Serialize(m, order)
    ensures IsCookieString(s, m)
  {
  }

  /** The total length of the entries of the keys in `keys`: |name| + |value| + 2 each. */
  ghost function Weight(m: map<string, string>, keys: set<string>): nat
    requires keys <= m.Keys
    decreases keys
  {
    if keys == {} then 0
    else
      var k :| k in keys;
      |k| + |m[k]| + 2 + Weight(m, keys - {k})
  }

  /** `Weight` does not depend on which key it takes out first. */
  lemma {:induction false} WeightRemove(m: map<string, string>, keys: set<string>, k: string)
    requires keys <= m.Keys && k in keys
    ensures Weight(m, keys) == |k| + |m[k]| + 2 + Weight(m, keys - {k})
    decreases keys
  {
    var j :| j in keys && Weight(m, keys) == |j| + |m[j]| + 2 + Weight(m, keys - {j});
    if j != k {
      WeightRemove(m, keys - {j}, k);
      WeightRemove(m, keys - {k}, j);
      assert keys - {j} - {k} == keys - {k} - {j};
    }
  }

  /** The string for a duplicate-free `order` is as long as the entries of the keys it lists. */
  lemma {:induction false} SerializeLength(m: map<string, string>, order: seq<string>)
    requires Listed(order) <= m.Keys
    requires forall i, j :: 0 <= i < j < |order| ==> order[i] != order[j]
    ensures |Serialize(m, order)| == Weight(m, Listed(order))
    decreases |order|
  {
    if order != [] {
      var init, last := order[..|order| - 1], order[|order| - 1];
      assert order == init + [last];
      assert Listed(order) == Listed(init) + {last};
      assert last !in Listed(init) by {
        forall i | 0 <= i < |init|
          ensures init[i] != last
        {
          assert order[i] != order[|order| - 1];
        }
      }
      SerializeLength(m, init);
      WeightRemove(m, Listed(order), last);
      assert Listed(order) - {last} == Listed(init);
    }
  }

  /** Every key listed in `order` has its entry, with its own value, somewhere in the string. */
  lemma {:induction false} SerializeHasEntry(m: map<string, string>, order: seq<string>, k: string)
    requires Listed(order) <= m.Keys
    requires k in order
    ensures exists u, v :: Serialize(m, order) == u + Entry(k, m[k]) + v
    decreases |order|
  {
    var init, last := order[..|order| - 1], order[|order| - 1];
    assert order == init + [last];
    if k == last {
      assert Serialize(m, order) == Serialize(m, init) + Entry(k, m[k]) + "";
    } else {
      assert k in init;
      SerializeHasEntry(m, init, k);
      var u, v :| Serialize(m, init) == u + Entry(k, m[k]) + v;
      assert Serialize(m, order) == u + Entry(k, m[k]) + (v + Entry(last, m[last]));
    }
  }

  /** A cookie string is as long as all the entries of the map together. */
  lemma CookieStringLength(s: string, m: map<string, string>)
    requires IsCookieString(s, m)
    ensures |s| == Weight(m, m.Keys)
  {
    var order :| IsEnumeration(order, m.Keys) && s == Serialize(m, order);
    SerializeLength(m, order);
  }

  /** A cookie string holds `name=value;` for every entry of the map. */
  lemma CookieStringHasEntries(s: string, m: map<string, string>, k: string)
    requires IsCookieString(s, m) && k in m
    ensures exists u, v :: s == u + Entry(k, m[k]) + v
  {
    var order :| IsEnumeration(order, m.Keys) && s == Serialize(m, order);
    assert k in Listed(order);
    SerializeHasEntry(m, order, k);
  }

  /** Visiting one more key appends its entry. */
  lemma SerializeSnoc(m: map<string, string>, order: seq<string>, k: string)
    requires Listed(order) <= m.Keys && k in m
    ensures Listed(order + [k]) == Listed(order) + {k}
    ensures Serialize(m, order + [k]) == Serialize(m, order) + Entry(k, m[k])
  {
    assert (order + [k])[..|order|] == order;
  }

  /** Visiting a key not yet visited extends an enumeration. */
  lemma EnumerationSnoc(order: seq<string>, keys: set<string>, k: string)
    requires IsEnumeration(order, keys) && k !in keys
    ensures IsEnumeration(order + [k], keys + {k})
  {
    var o := order + [k];
    assert Listed(o) == Listed(order) + {k};
    forall i, j | 0 <= i < j < |o|
      ensures o[i] != o[j]
    {
      if j < |order| {
        assert o[i] == order[i] && o[j] == order[j];
      } else {
        assert o[i] == order[i] && order[i] in Listed(order);
      }
    }
  }

  /**
   * The loop over the cookie map: four pushes per entry, the entries
   * taken in an order the model leaves open.
   */
  method BuildCookieString(m: map<string, string>) returns (s: string)
    ensures IsCookieString(s, m)
  {
    s := "";
    var rest := m.Keys;
    ghost var order: seq<string> := [];
    while rest != {}
      invariant rest <= m.Keys
      invariant IsEnumeration(order, m.Keys - rest)
      invariant s == Serialize(m, order)
      decreases |rest|
    {
      var k :| k in rest;
      ghost var before := s;
      s := s + k;
      s := s + "=";
      s := s + m[k];
      s := s + ";";
      assert s == before + Entry(k, m[k]);
      SerializeSnoc(m, order, k);
      EnumerationSnoc(order, m.Keys - rest, k);
      assert m.Keys - rest + {k} == m.Keys - (rest - {k});
      order := order + [k];
      rest := rest - {k};
    }
    assert m.Keys - rest == m.Keys;
    Enumerated(s, m, order);
  }
}
