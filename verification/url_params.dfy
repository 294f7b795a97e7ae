/** The part of the WHATWG `URLSearchParams` interface the shop's pages use: an ordered
    list of name/value pairs. Percent-encoding is not modelled. */
module UrlParams {
  import opened Common

  type Params = seq<(string, string)>

  predicate HasKey(p: Params, k: string)
  {
    exists e :: e in p && e.0 == k
  }

  /** `get(k)`: the value of the first pair named `k`. */
  function Get(p: Params, k: string): (r: Option<string>)
    ensures r.Some? <==> HasKey(p, k)
  {
    if p == [] then None
    else if p[0].0 == k then Some(p[0].1)
    else
      var r := Get(p[1..], k);
      assert HasKey(p, k) <==> HasKey(p[1..], k) by {
        if HasKey(p, k) { var e :| e in p && e.0 == k; assert e in p[1..]; }
      }
      r
  }

  /** `delete(k)`: every pair named `k` removed, the rest kept in order. */
  function Delete(p: Params, k: string): (r: Params)
    ensures forall e :: e in r <==> e in p && e.0 != k
  {
    if p == [] then []
    else (if p[0].0 == k then [] else [p[0]]) + Delete(p[1..], k)
  }

  function ReplaceFirst(p: Params, k: string, v: string): (r: Params)
    requires HasKey(p, k)
    ensures forall e :: e in r && e.0 != k ==> e in p
  {
    if p[0].0 == k then [(k, v)] + Delete(p[1..], k)
    else
      assert HasKey(p[1..], k) by { var e :| e in p && e.0 == k; assert e in p[1..]; }
      [p[0]] + ReplaceFirst(p[1..], k, v)
  }

  /** `set(k, v)`: the first pair named `k` takes value `v` and later ones are removed;
      without one, the pair is appended. */
  function Set(p: Params, k: string, v: string): (r: Params)
  {
    if HasKey(p, k) then ReplaceFirst(p, k, v) else p + [(k, v)]
  }

  lemma {:induction false} GetDelete(p: Params, k: string, other: string)
    ensures Get(Delete(p, k), k) == None
    ensures other != k ==> Get(Delete(p, k), other) == Get(p, other)
  {
    if p != [] {
      GetDelete(p[1..], k, other);
      var d := Delete(p[1..], k);
      if p[0].0 != k {
        assert Delete(p, k) == [p[0]] + d;
        assert ([p[0]] + d)[1..] == d;
      } else {
        assert Delete(p, k) == d;
      }
    }
  }

  lemma {:induction false} GetReplaceFirst(p: Params, k: string, v: string, other: string)
    requires HasKey(p, k)
    ensures Get(ReplaceFirst(p, k, v), k) == Some(v)
    ensures other != k ==> Get(ReplaceFirst(p, k, v), other) == Get(p, other)
  {
    if p[0].0 == k {
      GetDelete(p[1..], k, other);
    } else {
      assert HasKey(p[1..], k) by { var e :| e in p && e.0 == k; assert e in p[1..]; }
      GetReplaceFirst(p[1..], k, v, other);
    }
  }

  lemma {:induction false} GetSnoc(p: Params, k: string, v: string, other: string)
    ensures Get(p + [(k, v)], other) == if HasKey(p, other) then Get(p, other) else if other == k then Some(v) else None
  {
    if p != [] {
      assert (p + [(k, v)])[1..] == p[1..] + [(k, v)];
      GetSnoc(p[1..], k, v, other);
      if p[0].0 != other {
        assert HasKey(p, other) <==> HasKey(p[1..], other) by {
          if HasKey(p, other) { var e :| e in p && e.0 == other; assert e in p[1..]; }
        }
      }
    }
  }

  /** After `set(k, v)`, `get(k)` is `v` and every other name reads as before. */
  lemma GetSet(p: Params, k: string, v: string, other: string)
    ensures Get(Set(p, k, v), k) == Some(v)
    ensures other != k ==> Get(Set(p, k, v), other) == Get(p, other)
  {
    if HasKey(p, k) {
      GetReplaceFirst(p, k, v, other);
    } else {
      GetSnoc(p, k, v, k);
      GetSnoc(p, k, v, other);
    }
  }

  /** `toString()`: `name=value` pairs joined by `&`. */
  function ToQuery(p: Params): string
  {
    Join(Pairs(p), "&")
  }

  /** Each pair rendered as `name=value`, in order. */
  function Pairs(p: Params): (r: seq<string>)
    ensures |r| == |p|
    ensures forall i :: 0 <= i < |p| ==> r[i] == p[i].0 + "=" + p[i].1
  {
    if p == [] then [] else [p[0].0 + "=" + p[0].1] + Pairs(p[1..])
  }
}
