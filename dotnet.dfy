/** The few .NET library behaviours the modelled code leans on: C# integer
    arithmetic (truncating division, 32-bit wrap-around), the bitwise AND of
    unsigned masks, and the string helpers `IsNullOrWhiteSpace`, `StartsWith`,
    `Replace` and a single-replacement `Regex.Replace`. */
module DotNet {
  import opened Wrappers

  // ---------------------------------------------------------------------------
  // Integers

  function Max(a: int, b: int): (r: int)
    ensures r >= a && r >= b && (r == a || r == b)
  {
    if a >= b then a else b
  }

  function Min(a: int, b: int): (r: int)
    ensures r <= a && r <= b && (r == a || r == b)
  {
    if a <= b then a else b
  }

  /** Math.Clamp(v, lo, hi). */
  function Clamp(v: int, lo: int, hi: int): (r: int)
    requires lo <= hi
    ensures lo <= r <= hi
    ensures lo <= v <= hi ==> r == v
    ensures v < lo ==> r == lo
    ensures v > hi ==> r == hi
  {
    if v < lo then lo else if v > hi then hi else v
  }

  /** C#'s `/` on int: the quotient rounded toward zero. */
  function CsDiv(a: int, b: int): (q: int)
    requires b != 0
    ensures a >= 0 && b > 0 ==> q == a / b
    ensures b > 0 ==> (if a >= 0 then q * b <= a < q * b + b else q * b - b < a <= q * b)
  {
    if (a >= 0) == (b > 0) then
      (if a >= 0 then a / b else (-a) / (-b))
    else
      -((if a >= 0 then a else -a) / (if b > 0 then b else -b))
  }

  /** The int32 an unchecked C# int expression evaluates to. */
  function Wrap32(x: int): (r: int)
    ensures -0x8000_0000 <= r < 0x8000_0000
    ensures -0x8000_0000 <= x < 0x8000_0000 ==> r == x
    ensures (r - x) % 0x1_0000_0000 == 0
  {
    var m := x % 0x1_0000_0000;
    if m >= 0x8000_0000 then m - 0x1_0000_0000 else m
  }

  /** Concatenation regroups; kept as a lemma so that callers with large
      contexts need not prove it by extensionality. */
  lemma Regroup<T>(a: seq<T>, b: seq<T>, c: seq<T>)
    ensures a + b + c == a + (b + c)
  {
  }

  // ---------------------------------------------------------------------------
  // Bitwise AND on unsigned masks

  /** `a & b` on non-negative integers, bit by bit from the least significant. */
  function And(a: nat, b: nat): (r: nat)
    ensures r <= a && r <= b
  {
    if a == 0 || b == 0 then 0
    else 2 * And(a / 2, b / 2) + (if a % 2 == 1 && b % 2 == 1 then 1 else 0)
  }

  // ---------------------------------------------------------------------------
  // Dictionary enumeration

  /** `order` lists every element of `s` exactly once: the enumeration order
      of a Dictionary, which the source leaves unspecified. */
  predicate IsOrdering<T(==)>(order: seq<T>, s: set<T>)
  {
    (forall i, j | 0 <= i < j < |order| :: order[i] != order[j])
    && (forall x | x in order :: x in s) && (forall x | x in s :: x in order)
  }

  /** A subset is no larger than its superset. */
  lemma SubsetSize<T>(a: set<T>, b: set<T>)
    requires a <= b
    ensures |a| <= |b|
  {
    assert b == a + (b - a);
  }

  /** The key/value pairs a Dictionary enumerates: exactly the map's. */
  function Entries<K, V(==)>(m: map<K, V>): (r: set<(K, V)>)
    ensures forall k | k in m :: (k, m[k]) in r
    ensures forall x | x in r :: x.0 in m && m[x.0] == x.1
  {
    set k | k in m :: (k, m[k])
  }

  /** A Dictionary's enumeration: some order of its entries. */
  method Enumerate<T>(s: set<T>) returns (order: seq<T>)
    ensures IsOrdering(order, s)
  {
    var remaining := s;
    order := [];
    while remaining != {}
      invariant remaining <= s
      invariant IsOrdering(order, s - remaining)
      decreases |remaining|
    {
      var x :| x in remaining;
      order := order + [x];
      remaining := remaining - {x};
    }
  }

  // ---------------------------------------------------------------------------
  // Strings

  /** Char.IsWhiteSpace: the Unicode space separators plus the control characters
      U+0009..U+000D and U+0085. */
  predicate IsWhiteSpace(c: char)
  {
    c == ' ' || ('\t' <= c <= '\r') || c == '\U{0085}' || c == '\U{00A0}' || c == '\U{1680}'
    || ('\U{2000}' <= c <= '\U{200A}') || c == '\U{2028}' || c == '\U{2029}' || c == '\U{202F}'
    || c == '\U{205F}' || c == '\U{3000}'
  }

  /** string.IsNullOrWhiteSpace for a string that is not null. */
  predicate IsNullOrWhiteSpace(s: string)
  {
    forall i | 0 <= i < |s| :: IsWhiteSpace(s[i])
  }

  /** An ordinal `s.StartsWith(prefix)`. */
  predicate StartsWith(s: string, prefix: string)
  {
    |prefix| <= |s| && s[..|prefix|] == prefix
  }

  /** `pat` occurs in `s` starting at index `j`. */
  predicate OccursAt(s: string, pat: string, j: nat)
  {
    j + |pat| <= |s| && s[j..j + |pat|] == pat
  }

  /** The first index at which `pat` occurs in `s`. */
  function IndexOf(s: string, pat: string): (r: Option<nat>)
    requires |pat| > 0
    ensures r.Some? ==> OccursAt(s, pat, r.value)
    ensures r.Some? ==> forall j: nat | j < r.value :: !OccursAt(s, pat, j)
    ensures r.None? ==> forall j: nat :: !OccursAt(s, pat, j)
    decreases |s|
  {
    if |s| < |pat| then None
    else if s[..|pat|] == pat then Some(0)
    else
      assert !OccursAt(s, pat, 0);
      assert forall j: nat | j >= 1 :: OccursAt(s, pat, j) <==> OccursAt(s[1..], pat, j - 1) by {
        forall j: nat | j >= 1 ensures OccursAt(s, pat, j) <==> OccursAt(s[1..], pat, j - 1) {
          if j + |pat| <= |s| {
            assert s[1..][j - 1..j - 1 + |pat|] == s[j..j + |pat|];
          }
        }
      }
      match IndexOf(s[1..], pat)
      case None => None
      case Some(k) => Some(k + 1)
  }

  /** `Regex.Replace(s, pat, "", 1)` for a pattern of literal characters:
      only the first occurrence is removed. */
  function RemoveFirst(s: string, pat: string): (r: string)
    requires |pat| > 0
  {
    match IndexOf(s, pat)
    case None => s
    case Some(k) => s[..k] + s[k + |pat|..]
  }

  /** `s.Replace(pat, "")`: occurrences removed left to right without overlap,
      so removing can create a new occurrence that stays. */
  function RemoveAll(s: string, pat: string): (r: string)
    requires |pat| > 0
    ensures |r| <= |s|
    decreases |s|
  {
    if |s| < |pat| then s
    else if s[..|pat|] == pat then RemoveAll(s[|pat|..], pat)
    else [s[0]] + RemoveAll(s[1..], pat)
  }

  /** For a string that starts with the pattern, the single replacement strips
      exactly that prefix and keeps any later occurrence. */
  lemma RemoveFirstOfPrefixed(s: string, pat: string)
    requires |pat| > 0 && StartsWith(s, pat)
    ensures RemoveFirst(s, pat) == s[|pat|..]
  {
  }
}
