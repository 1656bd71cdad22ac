/** Searching in strings. */
module Text {

  /** Position of the first occurrence, or the length if there is none. */
  function Find(s: string, c: char): (i: nat)
    ensures i <= |s|
    ensures i < |s| ==> s[i] == c
    ensures forall k :: 0 <= k < i ==> s[k] != c
  {
    if s == "" then 0 else if s[0] == c then 0 else 1 + Find(s[1..], c)
  }

  lemma {:induction false} FindAt(s: string, c: char, i: nat)
    requires i < |s| && s[i] == c && forall k :: 0 <= k < i ==> s[k] != c
    ensures Find(s, c) == i
  {
  }

  lemma {:induction false} FindNone(s: string, c: char)
    ensures Find(s, c) == |s| <==> c !in s
  {
  }

  lemma {:induction false} TailOfConcat(a: string, b: string)
    requires a != ""
    ensures (a + b)[0] == a[0] && (a + b)[1..] == a[1..] + b
  {
  }

  lemma {:induction false} Associative(a: string, b: string, c: string)
    ensures a + b + c == a + (b + c)
  {
  }

  // ---- decimal numbers ----

  predicate Digits(s: string) { forall i :: 0 <= i < |s| ==> '0' <= s[i] <= '9' }

  /** The value of a string of digits. */
  function Number(s: string): nat
    requires Digits(s)
  {
    if s == "" then 0 else Number(s[..|s| - 1]) * 10 + (s[|s| - 1] - '0') as nat
  }

  /** std::to_string of a non-negative number. */
  function Decimal(n: nat): string {
    (if n < 10 then "" else Decimal(n / 10)) + ['0' + (n % 10) as char]
  }

  lemma {:induction false} DecimalDigits(n: nat)
    ensures Digits(Decimal(n)) && Number(Decimal(n)) == n
    ensures Decimal(n) != "" && (Decimal(n)[0] == '0' ==> n == 0 && Decimal(n) == "0")
  {
    if n >= 10 {
      DecimalDigits(n / 10);
    }
    var s := Decimal(n);
    assert s[..|s| - 1] == if n < 10 then "" else Decimal(n / 10);
  }
}
