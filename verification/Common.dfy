/** Small shared vocabulary: optional values, decimal numerals and trimmed text. */
module Common {

  datatype Option<+T> = None | Some(value: T)

  function Excess(length: nat, max: nat): (n: nat)
    ensures n <= length && length - n <= max
  {
    if length > max then length - max else 0
  }

  /** Keeps only the last `max` elements. */
  function Suffix<T>(s: seq<T>, max: nat): seq<T> {
    s[Excess(|s|, max)..]
  }

  lemma ConcatAssociates<T>(a: seq<T>, b: seq<T>, c: seq<T>)
    ensures a + b + c == a + (b + c)
  {
  }

  lemma ConcatEmpty<T>(a: seq<T>)
    ensures a + [] == a
  {
  }

  function Digit(n: nat): char
    requires n < 10
  {
    "0123456789"[n]
  }

  /** The decimal numeral of n, without leading zeros. */
  function Itoa(n: nat): (s: string)
    ensures |s| > 0
    ensures forall c :: c in s ==> '0' <= c <= '9'
  {
    if n < 10 then [Digit(n)] else Itoa(n / 10) + [Digit(n % 10)]
  }

  function Atoi(s: string): nat {
    if s == [] then 0
    else
      var c := s[|s| - 1];
      10 * Atoi(s[..|s| - 1]) + (if '0' <= c <= '9' then (c - '0') as nat else 0)
  }

  lemma {:induction false} AtoiItoa(n: nat)
    ensures Atoi(Itoa(n)) == n
  {
    if n >= 10 {
      AtoiItoa(n / 10);
      var s := Itoa(n);
      assert s[..|s| - 1] == Itoa(n / 10);
      assert s[|s| - 1] == Digit(n % 10);
    }
  }

  lemma ItoaInjective(a: nat, b: nat)
    requires Itoa(a) == Itoa(b)
    ensures a == b
  {
    AtoiItoa(a);
    AtoiItoa(b);
  }

  /** The Unicode White_Space characters. */
  predicate IsSpace(c: char) {
    '\t' <= c <= '\r' || c in {' ', '\U{85}', '\U{A0}', '\U{1680}', '\U{2028}', '\U{2029}', '\U{202F}', '\U{205F}',
                               '\U{3000}'} ||
    '\U{2000}' <= c <= '\U{200A}'
  }

  function TrimLeft(s: string): (r: string)
    ensures r == [] || !IsSpace(r[0])
  {
    if s == [] || !IsSpace(s[0]) then s else TrimLeft(s[1..])
  }

  function TrimRight(s: string): (r: string)
    ensures r == [] || !IsSpace(r[|r| - 1])
    ensures r <= s
  {
    if s == [] || !IsSpace(s[|s| - 1]) then s else TrimRight(s[..|s| - 1])
  }

  /** The text without white space at either end. */
  function Trim(s: string): (r: string)
    ensures r == [] || (!IsSpace(r[0]) && !IsSpace(r[|r| - 1]))
  {
    TrimRight(TrimLeft(s))
  }

  lemma {:induction false} TrimLeftIs(s: string) returns (i: nat)
    ensures i <= |s| && TrimLeft(s) == s[i..] && forall k :: 0 <= k < i ==> IsSpace(s[k])
  {
    if s == [] || !IsSpace(s[0]) {
      i := 0;
    } else {
      var rest := TrimLeftIs(s[1..]);
      i := rest + 1;
      forall k | 0 <= k < i ensures IsSpace(s[k]) {
        assert k > 0 ==> s[k] == s[1..][k - 1];
      }
    }
  }

  lemma {:induction false} TrimRightIs(s: string)
    ensures forall k :: |TrimRight(s)| <= k < |s| ==> IsSpace(s[k])
  {
    if s != [] && IsSpace(s[|s| - 1]) {
      TrimRightIs(s[..|s| - 1]);
    }
  }

  /** Trimming takes white space from both ends and nothing else. */
  lemma TrimIs(s: string) returns (i: nat, j: nat)
    ensures i <= j <= |s| && Trim(s) == s[i..j]
    ensures forall k :: 0 <= k < i || j <= k < |s| ==> IsSpace(s[k])
  {
    i := TrimLeftIs(s);
    TrimRightIs(TrimLeft(s));
    j := i + |Trim(s)|;
    forall k | j <= k < |s| ensures IsSpace(s[k]) {
      assert s[k] == TrimLeft(s)[k - i];
    }
  }

  lemma TrimIdempotent(s: string)
    ensures Trim(Trim(s)) == Trim(s)
  {
  }
}
