/** The identifier check that the catalogue import and the balance reader share. */
module Guids {

  /** std::isxdigit */
  predicate HexDigit(c: char) { '0' <= c <= '9' || 'a' <= c <= 'f' || 'A' <= c <= 'F' }

  predicate DashPosition(i: int) { i == 8 || i == 13 || i == 18 || i == 23 }

  predicate ValidGuid(s: string) {
    |s| == 36 && forall i :: 0 <= i < 36 ==> if DashPosition(i) then s[i] == '-' else HexDigit(s[i])
  }

  /** The form 8-4-4-4-12 over the hexadecimal digits of either case. */
  lemma {:induction false} GuidForm(s: string)
    ensures ValidGuid(s) <==>
      && |s| == 36 && s[8] == s[13] == s[18] == s[23] == '-'
      && forall i :: 0 <= i < 36 && i !in [8, 13, 18, 23] ==> s[i] in "0123456789abcdefABCDEF"
  {
    forall c: char ensures c in "0123456789abcdefABCDEF" <==> HexDigit(c) {
      HexText(c);
    }
    hide HexDigit;
  }

  lemma {:induction false} HexText(c: char)
    ensures c in "0123456789abcdefABCDEF" <==> HexDigit(c)
  {
    var digits := "0123456789abcdefABCDEF";
    if '0' <= c <= '9' { assert digits[(c - '0') as int] == c; }
    if 'a' <= c <= 'f' { assert digits[10 + (c - 'a') as int] == c; }
    if 'A' <= c <= 'F' { assert digits[16 + (c - 'A') as int] == c; }
  }
}
