/** Joining, sorting and decimal text, as far as canonical forms depend on them. */
module Strings {

  // ----- joining -----

  function Join(sep: char, parts: seq<string>): string {
    if parts == [] then ""
    else if |parts| == 1 then parts[0]
    else parts[0] + [sep] + Join(sep, parts[1..])
  }

  predicate Free(sep: char, parts: seq<string>) {
    forall i :: 0 <= i < |parts| ==> sep !in parts[i]
  }

  lemma SplitAtFirst(sep: char, x: string, r: string, y: string, s: string)
    requires sep !in x && sep !in y && x + [sep] + r == y + [sep] + s
    ensures x == y && r == s
  {
    var whole := x + [sep] + r;
    assert whole[|x|] == sep && whole[|y|] == sep;
    assert |x| == |y|;
    assert x == whole[..|x|] == y;
    assert r == whole[|x| + 1..] == s;
  }

  /** The separator shows up exactly when there is more than one part. */
  lemma JoinSeparates(sep: char, parts: seq<string>)
    requires parts != [] && Free(sep, parts)
    ensures sep in Join(sep, parts) <==> |parts| > 1
  {
    if |parts| > 1 { assert Join(sep, parts)[|parts[0]|] == sep; }
  }

  /** Lists of separator-free parts are recovered from their join. */
  lemma {:induction false} JoinIsInjective(sep: char, a: seq<string>, b: seq<string>)
    requires a != [] && b != [] && Free(sep, a) && Free(sep, b) && Join(sep, a) == Join(sep, b)
    ensures a == b
  {
    JoinSeparates(sep, a);
    JoinSeparates(sep, b);
    if |a| > 1 {
      SplitAtFirst(sep, a[0], Join(sep, a[1..]), b[0], Join(sep, b[1..]));
      JoinIsInjective(sep, a[1..], b[1..]);
      assert a == [a[0]] + a[1..] && b == [b[0]] + b[1..];
    }
  }

  /** A join holds only the separator and what its parts hold. */
  lemma {:induction false} JoinHolds(sep: char, parts: seq<string>, c: char)
    requires c != sep && Free(c, parts)
    ensures c !in Join(sep, parts)
  {
    if |parts| > 1 { JoinHolds(sep, parts[1..], c); }
  }

  // ----- decimal text -----

  function Decimal(n: nat): string {
    if n < 10 then [Digit(n)] else Decimal(n / 10) + [Digit(n % 10)]
  }

  function Digit(n: nat): char requires n < 10 { ('0' as int + n) as char }

  function Value(s: string): int {
    if s == "" then 0 else Value(s[..|s| - 1]) * 10 + (s[|s| - 1] as int - '0' as int)
  }

  lemma {:induction false} DecimalRoundTrip(n: nat)
    ensures Value(Decimal(n)) == n
    ensures forall i :: 0 <= i < |Decimal(n)| ==> '0' <= Decimal(n)[i] <= '9'
  {
    if n >= 10 {
      DecimalRoundTrip(n / 10);
      assert Decimal(n)[..|Decimal(n)| - 1] == Decimal(n / 10);
    } else {
      assert Decimal(n)[..0] == "";
    }
  }

  // ----- lexicographic sorting -----

  predicate LexLe(a: string, b: string) {
    a == "" || (b != "" && (a[0] < b[0] || (a[0] == b[0] && LexLe(a[1..], b[1..]))))
  }

  lemma {:induction false} LexTotal(a: string, b: string)
    ensures LexLe(a, b) || LexLe(b, a)
  {
    if a != "" && b != "" { LexTotal(a[1..], b[1..]); }
  }

  lemma {:induction false} LexAntisymmetric(a: string, b: string)
    requires LexLe(a, b) && LexLe(b, a)
    ensures a == b
  {
    if a != "" {
      LexAntisymmetric(a[1..], b[1..]);
      assert a == [a[0]] + a[1..] && b == [b[0]] + b[1..];
    }
  }

  lemma {:induction false} LexTransitive(a: string, b: string, c: string)
    requires LexLe(a, b) && LexLe(b, c)
    ensures LexLe(a, c)
  {
    if a != "" && a[0] == b[0] && b[0] == c[0] { LexTransitive(a[1..], b[1..], c[1..]); }
  }

  predicate Sorted(s: seq<string>) {
    forall i, j :: 0 <= i < j < |s| ==> LexLe(s[i], s[j])
  }

  function Insert(x: string, s: seq<string>): seq<string> {
    if s == [] then [x] else if LexLe(x, s[0]) then [x] + s else [s[0]] + Insert(x, s[1..])
  }

  function Sort(s: seq<string>): seq<string> {
    if s == [] then [] else Insert(s[0], Sort(s[1..]))
  }

  lemma {:induction false} InsertKeeps(x: string, s: seq<string>)
    ensures multiset(Insert(x, s)) == multiset{x} + multiset(s)
  {
    if s != [] && !LexLe(x, s[0]) {
      InsertKeeps(x, s[1..]);
      assert s == [s[0]] + s[1..];
    }
  }

  lemma {:induction false} InsertSorts(x: string, s: seq<string>)
    requires Sorted(s)
    ensures Sorted(Insert(x, s))
  {
    if s != [] {
      if LexLe(x, s[0]) {
        forall j | 0 <= j < |s| ensures LexLe(x, s[j]) {
          if 0 < j { LexTransitive(x, s[0], s[j]); }
        }
      } else {
        LexTotal(x, s[0]);
        InsertSorts(x, s[1..]);
        InsertKeeps(x, s[1..]);
        var rest := Insert(x, s[1..]);
        forall j | 0 <= j < |rest| ensures LexLe(s[0], rest[j]) {
          assert rest[j] in multiset(rest);
          if rest[j] != x {
            assert rest[j] in s[1..];
          }
        }
      }
    }
  }

  lemma {:induction false} SortIsSorting(s: seq<string>)
    ensures Sorted(Sort(s)) && multiset(Sort(s)) == multiset(s)
  {
    if s != [] {
      SortIsSorting(s[1..]);
      InsertSorts(s[0], Sort(s[1..]));
      InsertKeeps(s[0], Sort(s[1..]));
      assert s == [s[0]] + s[1..];
    }
  }

  lemma FirstsAgree(a: seq<string>, b: seq<string>)
    requires Sorted(a) && Sorted(b) && multiset(a) == multiset(b) && a != [] && b != []
    ensures a[0] == b[0] && multiset(a[1..]) == multiset(b[1..])
  {
    assert a[0] in multiset(b) && b[0] in multiset(a);
    LeastIsFirst(a, b[0]);
    LeastIsFirst(b, a[0]);
    LexAntisymmetric(a[0], b[0]);
    TailOf(a);
    TailOf(b);
  }

  lemma TailOf(s: seq<string>)
    requires s != []
    ensures multiset(s[1..]) == multiset(s) - multiset{s[0]}
  {
    assert s == [s[0]] + s[1..];
  }

  lemma {:induction false} SortedIsUnique(a: seq<string>, b: seq<string>)
    requires Sorted(a) && Sorted(b) && multiset(a) == multiset(b)
    ensures a == b
  {
    assert |a| == |multiset(a)| == |multiset(b)| == |b|;
    if a != [] {
      FirstsAgree(a, b);
      SortedIsUnique(a[1..], b[1..]);
      assert a == [a[0]] + a[1..] && b == [b[0]] + b[1..];
    }
  }

  lemma LeastIsFirst(s: seq<string>, x: string)
    requires Sorted(s) && x in s
    ensures LexLe(s[0], x)
  {
    var i :| 0 <= i < |s| && s[i] == x;
    if i == 0 { LexTotal(x, x); }
  }

  /** Sorting forgets exactly the order. */
  lemma SortForgetsOrder(a: seq<string>, b: seq<string>)
    ensures Sort(a) == Sort(b) <==> multiset(a) == multiset(b)
  {
    SortIsSorting(a);
    SortIsSorting(b);
    if multiset(a) == multiset(b) { SortedIsUnique(Sort(a), Sort(b)); }
  }
}
