/** Query strings as ordered name/value lists: the reads a route's query map
    answers (`queryParamMap.get`) and the writes `URLSearchParams.set` makes. */
module UrlSearchParams {
  import opened Common

  type Pairs = seq<(string, string)>

  /** The value of the first pair called `name`, as `ParamMap.get` and
      `URLSearchParams.get` answer. */
  function Get(ps: Pairs, name: string): (r: Option<string>)
    ensures r.Some? ==> exists i :: 0 <= i < |ps| && ps[i] == (name, r.value) && forall j :: 0 <= j < i ==> ps[j].0 != name
    ensures r.None? ==> forall i :: 0 <= i < |ps| ==> ps[i].0 != name
  {
    if ps == [] then None
    else if ps[0].0 == name then Some(ps[0].1)
    else Get(ps[1..], name)
  }

  /** How many pairs are called `name`. */
  function Occurrences(ps: Pairs, name: string): nat {
    if ps == [] then 0 else (if ps[0].0 == name then 1 else 0) + Occurrences(ps[1..], name)
  }

  /** The pairs not called `name`, in their order: exactly the pairs called
      `name` are dropped (how `RemoveAll` treats a concatenation and a list
      without `name` is stated by `RemoveAllConcat` and `RemoveAllWithoutName`). */
  function RemoveAll(ps: Pairs, name: string): (r: Pairs)
    ensures forall i :: 0 <= i < |r| ==> r[i].0 != name
    ensures forall p :: p in r ==> p in ps
    ensures forall i :: 0 <= i < |ps| && ps[i].0 != name ==> ps[i] in r
    ensures |r| == |ps| - Occurrences(ps, name)
  {
    if ps == [] then []
    else if ps[0].0 == name then RemoveAll(ps[1..], name)
    else [ps[0]] + RemoveAll(ps[1..], name)
  }

  /** Removing distributes over concatenation, so the kept pairs keep their
      order and their multiplicity. */
  lemma {:induction false} RemoveAllConcat(ps: Pairs, qs: Pairs, name: string)
    ensures RemoveAll(ps + qs, name) == RemoveAll(ps, name) + RemoveAll(qs, name)
  {
    if ps == [] {
      assert ps + qs == qs;
    } else {
      var t := ps + qs;
      assert t[0] == ps[0] && t[1..] == ps[1..] + qs;
      RemoveAllConcat(ps[1..], qs, name);
      if ps[0].0 != name {
        calc {
          RemoveAll(t, name);
          [ps[0]] + RemoveAll(ps[1..] + qs, name);
          [ps[0]] + (RemoveAll(ps[1..], name) + RemoveAll(qs, name));
          ([ps[0]] + RemoveAll(ps[1..], name)) + RemoveAll(qs, name);
        }
      }
    }
  }

  /** A list without `name` is left exactly as it was. */
  lemma {:induction false} RemoveAllWithoutName(ps: Pairs, name: string)
    requires forall i :: 0 <= i < |ps| ==> ps[i].0 != name
    ensures RemoveAll(ps, name) == ps
  {
    if ps != [] {
      RemoveAllWithoutName(ps[1..], name);
      assert ps == [ps[0]] + ps[1..];
    }
  }

  /** The pairs ahead of the first one called `name` (all of them when none is). */
  function Before(ps: Pairs, name: string): (p: Pairs)
    ensures |p| <= |ps| && p == ps[..|p|]
    ensures forall j :: 0 <= j < |p| ==> p[j].0 != name
    ensures |p| < |ps| ==> ps[|p|].0 == name
  {
    if ps == [] || ps[0].0 == name then [] else [ps[0]] + Before(ps[1..], name)
  }

  /** `Before` passes over a leading pair with another name, and what follows it
      is what follows the tail's. */
  lemma BeforeSkips(ps: Pairs, name: string)
    requires ps != [] && ps[0].0 != name
    ensures Before(ps, name) == [ps[0]] + Before(ps[1..], name)
    ensures ps[|Before(ps, name)|..] == ps[1..][|Before(ps[1..], name)|..]
  {
  }

  /** Prepending one element before three concatenated parts. */
  lemma PrependAssoc<T>(x: T, a: seq<T>, b: seq<T>, c: seq<T>)
    ensures [x] + (a + b + c) == ([x] + a) + b + c
  {
  }

  /** `URLSearchParams.set`: the first pair called `name` takes the new value where
      it stands and the later ones are removed; with no such pair, one is appended.
      The pairs with other names are left as they were (`SetParamKeepsOthers`). */
  function SetParam(ps: Pairs, name: string, value: string): (r: Pairs)
    ensures |r| == |ps| - Occurrences(ps, name) + 1
    ensures r == Before(ps, name) + [(name, value)] + RemoveAll(ps[|Before(ps, name)|..], name)
  {
    if ps == [] then
      assert ps[0..] == [];
      [(name, value)]
    else if ps[0].0 == name then
      assert ps[0..] == ps;
      [(name, value)] + RemoveAll(ps[1..], name)
    else
      BeforeSkips(ps, name);
      var before := Before(ps[1..], name);
      PrependAssoc(ps[0], before, [(name, value)], RemoveAll(ps[1..][|before|..], name));
      [ps[0]] + SetParam(ps[1..], name, value)
  }

  /** `set` leaves the pairs with other names as they were, in order and
      multiplicity. */
  lemma SetParamKeepsOthers(ps: Pairs, name: string, value: string)
    ensures RemoveAll(SetParam(ps, name, value), name) == RemoveAll(ps, name)
  {
    var before, pair := Before(ps, name), [(name, value)];
    var tail := ps[|before|..];
    var rest := RemoveAll(tail, name);
    assert RemoveAll(pair, name) == [] by {
      assert pair[1..] == [];
    }
    assert RemoveAll(before + pair, name) == before by {
      RemoveAllConcat(before, pair, name);
      RemoveAllWithoutName(before, name);
      assert before + [] == before;
    }
    assert RemoveAll(before + pair + rest, name) == before + rest by {
      RemoveAllConcat(before + pair, rest, name);
      RemoveAllWithoutName(rest, name);
    }
    assert RemoveAll(ps, name) == before + rest by {
      assert before + tail == ps;
      RemoveAllConcat(before, tail, name);
      RemoveAllWithoutName(before, name);
    }
  }

  lemma {:induction false} GetRemoveAll(ps: Pairs, name: string, other: string)
    requires other != name
    ensures Get(RemoveAll(ps, name), other) == Get(ps, other)
  {
    if ps != [] {
      GetRemoveAll(ps[1..], name, other);
    }
  }

  /** After a set, reading the name gives the new value, reading any other name
      gives what it gave before, and the name occurs exactly once. */
  lemma {:induction false} SetParamGet(ps: Pairs, name: string, value: string, other: string)
    ensures Get(SetParam(ps, name, value), name) == Some(value)
    ensures other != name ==> Get(SetParam(ps, name, value), other) == Get(ps, other)
    ensures Occurrences(SetParam(ps, name, value), name) == 1
  {
    if ps != [] {
      if ps[0].0 == name {
        if other != name {
          GetRemoveAll(ps[1..], name, other);
        }
        NoOccurrences(RemoveAll(ps[1..], name), name);
      } else {
        SetParamGet(ps[1..], name, value, other);
      }
    }
  }

  lemma {:induction false} NoOccurrences(ps: Pairs, name: string)
    requires forall i :: 0 <= i < |ps| ==> ps[i].0 != name
    ensures Occurrences(ps, name) == 0
  {
    if ps != [] {
      NoOccurrences(ps[1..], name);
    }
  }

  /** A URL's mutable query (`url.searchParams`). */
  class SearchParams {
    var pairs: Pairs

    constructor (initial: Pairs)
      ensures pairs == initial
    {
      pairs := initial;
    }

    method Set(name: string, value: string)
      modifies this
      ensures pairs == SetParam(old(pairs), name, value)
    {
      pairs := SetParam(pairs, name, value);
    }
  }
}
