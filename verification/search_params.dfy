/** The query string as `URLSearchParams` holds it: an ordered list of name-value
    pairs in which a name may repeat. */
module SearchParams {
  import opened Wrappers

  type Params = seq<(string, string)>

  /** `params.get(name)`: the value of the first pair with that name, or null. */
  function Get(ps: Params, name: string): (r: Option<string>)
    ensures r.Some? <==> exists i :: 0 <= i < |ps| && ps[i].0 == name
    ensures r.Some? ==>
      exists i :: (0 <= i < |ps| && ps[i] == (name, r.value)
                   && forall j :: 0 <= j < i ==> ps[j].0 != name)
  {
    if |ps| == 0 then None
    else if ps[0].0 == name then Some(ps[0].1)
    else
      var r := Get(ps[1..], name);
      assert forall i :: 1 <= i < |ps| ==> ps[i] == ps[1..][i - 1];
      r
  }

  /** `params.set(name, value)`: the first pair with that name gets the value and
      the later ones are removed; with no such pair, one is appended. */
  function Set(ps: Params, name: string, value: string): Params {
    SetFrom(ps, name, value, false)
  }

  /** `Set` over a suffix; `placed` says whether the pair was already written. */
  function SetFrom(ps: Params, name: string, value: string, placed: bool): Params
    decreases |ps|
  {
    if |ps| == 0 then (if placed then [] else [(name, value)])
    else if ps[0].0 == name then
      (if placed then [] else [(name, value)]) + SetFrom(ps[1..], name, value, true)
    else [ps[0]] + SetFrom(ps[1..], name, value, placed)
  }

  /** The number of pairs with a given name. */
  function Count(ps: Params, name: string): nat {
    if |ps| == 0 then 0 else (if ps[0].0 == name then 1 else 0) + Count(ps[1..], name)
  }

  lemma {:induction false} SetFromShape(ps: Params, name: string, value: string, placed: bool)
    ensures Count(SetFrom(ps, name, value, placed), name) == (if placed then 0 else 1)
    ensures placed ==> Get(SetFrom(ps, name, value, placed), name).None?
    ensures !placed ==> Get(SetFrom(ps, name, value, placed), name) == Some(value)
    ensures forall other :: other != name ==>
      Get(SetFrom(ps, name, value, placed), other) == Get(ps, other)
    decreases |ps|
  {
    var r := SetFrom(ps, name, value, placed);
    if |ps| == 0 {
    } else {
      var rest := SetFrom(ps[1..], name, value, ps[0].0 == name || placed);
      SetFromShape(ps[1..], name, value, ps[0].0 == name || placed);
      if ps[0].0 == name {
        if placed {
          assert r == rest;
        } else {
          assert r == [(name, value)] + rest;
          assert r[1..] == rest;
        }
      } else {
        assert r == [ps[0]] + rest;
        assert r[1..] == rest;
      }
    }
  }

  /** After `set`, `get` of that name returns the value and exactly one pair carries
      the name; every other name reads as before. */
  lemma SetThenGet(ps: Params, name: string, value: string)
    ensures Get(Set(ps, name, value), name) == Some(value)
    ensures Count(Set(ps, name, value), name) == 1
    ensures forall other :: other != name ==> Get(Set(ps, name, value), other) == Get(ps, other)
  {
    SetFromShape(ps, name, value, false);
  }
}
