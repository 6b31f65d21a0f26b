/** Identifier syntax shared by the ledger modules: UUIDs, hexadecimal issue identifiers and
    ASCII case folding. */
module Text {

  predicate IsHexDigit(c: char) {
    '0' <= c <= '9' || 'a' <= c <= 'f' || 'A' <= c <= 'F'
  }

  predicate IsHex(s: string) {
    forall i :: 0 <= i < |s| ==> IsHexDigit(s[i])
  }

  predicate IsLowerHex(s: string) {
    forall i :: 0 <= i < |s| ==> '0' <= s[i] <= '9' || 'a' <= s[i] <= 'f'
  }

  /** An issue identity as it is minted: sixteen octets in lower-case hexadecimal. */
  predicate IsIssueID(s: string) {
    |s| == 32 && IsLowerHex(s)
  }

  /** The 8-4-4-4-12 hexadecimal form, in either case. */
  predicate IsUUID(s: string) {
    && |s| == 36
    && forall i :: 0 <= i < 36 ==>
         if i == 8 || i == 13 || i == 18 || i == 23 then s[i] == '-' else IsHexDigit(s[i])
  }

  function LowerChar(c: char): char {
    if 'A' <= c <= 'Z' then (c as int + 32) as char else c
  }

  function Lower(s: string): (r: string)
    ensures |r| == |s|
    ensures forall i :: 0 <= i < |s| ==> r[i] == LowerChar(s[i])
  {
    seq(|s|, i requires 0 <= i < |s| => LowerChar(s[i]))
  }

  predicate EqualFold(a: string, b: string) {
    Lower(a) == Lower(b)
  }

  lemma LowerKeepsUUID(s: string)
    requires IsUUID(s)
    ensures IsUUID(Lower(s))
    ensures Lower(Lower(s)) == Lower(s)
  {
  }
}
