/** Vocabulary shared by the modules: optional values, results, JSON values, counting. */
module Common {

  datatype Option<+T> = None | Some(value: T)

  datatype Result<+T, +E> = Ok(value: T) | Err(error: E)

  /** A JSON value as far as the dispatcher looks into it.  Nested keeps only the
      printed form of a list or an object. */
  datatype Value = Text(s: string) | Number(n: int) | Flag(b: bool) | Null | Nested(printed: string)

  type Args = map<string, Value>

  /** t in s, for strings. */
  predicate Contains(s: string, t: string) {
    |t| <= |s| && (s[..|t|] == t || (s != [] && Contains(s[1..], t)))
  }

  /** How many elements of s satisfy p. */
  ghost function CountIf<T>(s: seq<T>, p: T -> bool): nat {
    if s == [] then 0 else CountIf(s[..|s| - 1], p) + if p(s[|s| - 1]) then 1 else 0
  }

  lemma CountIfAppend<T>(s: seq<T>, x: T, p: T -> bool)
    ensures CountIf(s + [x], p) == CountIf(s, p) + if p(x) then 1 else 0
  {
    assert (s + [x])[..|s|] == s;
  }

  lemma {:induction false} CountIfUpdate<T>(s: seq<T>, k: nat, x: T, p: T -> bool)
    requires k < |s|
    ensures CountIf(s[k := x], p) + (if p(s[k]) then 1 else 0) == CountIf(s, p) + if p(x) then 1 else 0
  {
    var t := s[k := x];
    if k == |s| - 1 {
      assert t[..k] == s[..k];
    } else {
      assert t[..|s| - 1] == s[..|s| - 1][k := x];
      CountIfUpdate(s[..|s| - 1], k, x, p);
    }
  }

  /** Pointwise p implies q, so p counts at most as many. */
  lemma {:induction false} CountIfMono<T>(s: seq<T>, p: T -> bool, q: T -> bool)
    requires forall i :: 0 <= i < |s| && p(s[i]) ==> q(s[i])
    ensures CountIf(s, p) <= CountIf(s, q)
  {
    if s != [] {
      var init := s[..|s| - 1];
      forall i | 0 <= i < |init| && p(init[i]) ensures q(init[i]) {
        assert init[i] == s[i];
      }
      CountIfMono(init, p, q);
    }
  }

  /** If p and q exclude each other and both imply r, their counts add up inside r. */
  lemma {:induction false} CountIfDisjoint<T>(s: seq<T>, p: T -> bool, q: T -> bool, r: T -> bool)
    requires forall i :: 0 <= i < |s| ==> !(p(s[i]) && q(s[i]))
    requires forall i :: 0 <= i < |s| && (p(s[i]) || q(s[i])) ==> r(s[i])
    ensures CountIf(s, p) + CountIf(s, q) <= CountIf(s, r)
    ensures (forall i :: 0 <= i < |s| && r(s[i]) ==> p(s[i]) || q(s[i])) ==>
              CountIf(s, p) + CountIf(s, q) == CountIf(s, r)
  {
    if s != [] {
      var init := s[..|s| - 1];
      assert forall i :: 0 <= i < |init| ==> init[i] == s[i];
      CountIfDisjoint(init, p, q, r);
    }
  }

  lemma {:induction false} CountIfWitness<T>(s: seq<T>, p: T -> bool)
    ensures CountIf(s, p) > 0 <==> exists i :: 0 <= i < |s| && p(s[i])
  {
    if s != [] {
      var init := s[..|s| - 1];
      assert forall i :: 0 <= i < |init| ==> init[i] == s[i];
      CountIfWitness(init, p);
      if p(s[|s| - 1]) {
        assert exists i :: 0 <= i < |s| && p(s[i]);
      }
    }
  }
}
