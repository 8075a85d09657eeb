/** Small vocabulary shared by every module: optional values, order sides and integer helpers. */
module Common {

  datatype Option<+T> = None | Some(value: T)

  datatype Side = Buy | Sell

  function Sign(side: Side): int { if side.Buy? then 1 else -1 }

  function Abs(x: int): nat { if x < 0 then -x else x }

  function Min(a: int, b: int): int { if a <= b then a else b }

  function Max(a: int, b: int): int { if a <= b then b else a }

  /** `x` lies between `a` and `b`, whichever of the two is smaller. */
  predicate Between(a: int, x: int, b: int) { Min(a, b) <= x <= Max(a, b) }

  // ------------------------------------------------------------------ taking sequences apart

  lemma LastSplits<T>(a: seq<T>, b: seq<T>)
    requires b != []
    ensures b == b[..|b| - 1] + [b[|b| - 1]]
    ensures a + b == a + b[..|b| - 1] + [b[|b| - 1]]
  {}

  lemma CutAt<T>(s: seq<T>, k: nat)
    requires k <= |s|
    ensures s == s[..k] + s[k..] && s[..|s|] == s
    ensures k < |s| ==> s[k..] == [s[k]] + s[k + 1..] && s[..k + 1] == s[..k] + [s[k]] && s[..k + 1][..k] == s[..k]
  {}

  lemma Regroup<T>(a: seq<T>, b: seq<T>, c: seq<T>)
    ensures a + b + c == a + (b + c)
  {}

  lemma TakeConcat<T>(a: seq<T>, b: seq<T>, k: nat)
    requires k <= |a| + |b|
    ensures (a + b)[..k] == if k < |a| then a[..k] else a + b[..k - |a|]
  {}
}
