/** Text operations on identifiers, and why the identifiers that the portal glues together from
    several parts still tell those parts apart. */
module Texts {

  // ---- Trimming and case, on ASCII ----

  predicate IsSpace(c: char) {
    c == ' ' || '\t' <= c <= '\r'
  }

  function TrimLeft(s: string): string {
    if s != "" && IsSpace(s[0]) then TrimLeft(s[1..]) else s
  }

  function TrimRight(s: string): string {
    if s != "" && IsSpace(s[|s| - 1]) then TrimRight(s[..|s| - 1]) else s
  }

  function Trim(s: string): string {
    TrimRight(TrimLeft(s))
  }

  predicate Blank(s: string) {
    Trim(s) == ""
  }

  function Lower(s: string): string {
    seq(|s|, i requires 0 <= i < |s| => if 'A' <= s[i] <= 'Z' then s[i] + ('a' - 'A') else s[i])
  }

  function Upper(s: string): string {
    seq(|s|, i requires 0 <= i < |s| => if 'a' <= s[i] <= 'z' then s[i] - ('a' - 'A') else s[i])
  }

  /** Trimming takes blanks off both ends, and nothing else. */
  lemma TrimTakesBlanks(s: string) returns (left: string, right: string)
    ensures s == left + Trim(s) + right
    ensures forall c :: c in left + right ==> c == ' ' || 9 <= c as int <= 13
    ensures Trim(s) != "" ==> Trim(s)[0] != ' ' && !(9 <= Trim(s)[0] as int <= 13)
    ensures Trim(s) != "" ==> Trim(s)[|Trim(s)| - 1] != ' ' && !(9 <= Trim(s)[|Trim(s)| - 1] as int <= 13)
  {
    left := TrimLeftTakes(s);
    right := TrimRightTakes(TrimLeft(s));
    TrimRightStarts(TrimLeft(s));
  }

  lemma {:induction false} TrimLeftTakes(s: string) returns (left: string)
    ensures s == left + TrimLeft(s) && forall c :: c in left ==> IsSpace(c)
    ensures TrimLeft(s) != "" ==> !IsSpace(TrimLeft(s)[0])
  {
    left := "";
    if s != "" && IsSpace(s[0]) {
      var rest := TrimLeftTakes(s[1..]);
      left := [s[0]] + rest;
      assert s == [s[0]] + s[1..];
    }
  }

  lemma {:induction false} TrimRightTakes(s: string) returns (right: string)
    ensures s == TrimRight(s) + right && forall c :: c in right ==> IsSpace(c)
    ensures TrimRight(s) != "" ==> !IsSpace(TrimRight(s)[|TrimRight(s)| - 1])
  {
    right := "";
    if s != "" && IsSpace(s[|s| - 1]) {
      var rest := TrimRightTakes(s[..|s| - 1]);
      right := rest + [s[|s| - 1]];
      assert s == s[..|s| - 1] + [s[|s| - 1]];
    }
  }

  lemma {:induction false} TrimRightStarts(s: string)
    ensures TrimRight(s) != "" ==> TrimRight(s)[0] == s[0]
  {
    if s != "" && IsSpace(s[|s| - 1]) {
      TrimRightStarts(s[..|s| - 1]);
    }
  }

  /** Letters change case, character by character, and all else stays: two texts agree in lower case exactly if
      they agree in upper case. */
  lemma CasesAgree(s: string, t: string)
    ensures Lower(s) == Lower(t) <==> Upper(s) == Upper(t)
    ensures Lower(Upper(s)) == Lower(s) && Upper(Lower(s)) == Upper(s)
    ensures forall i :: 0 <= i < |s| ==> Lower(s)[i] == s[i] || (65 <= s[i] as int <= 90 && Lower(s)[i] as int == s[i] as int + 32)
    ensures forall i :: 0 <= i < |s| ==> !(65 <= Lower(s)[i] as int <= 90)
  {
    if Lower(s) == Lower(t) {
      forall i | 0 <= i < |s|
        ensures Upper(s)[i] == Upper(t)[i]
      {
        assert Lower(s)[i] == Lower(t)[i];
      }
      assert |Lower(s)| == |s| && |Lower(t)| == |t|;
    }
    if Upper(s) == Upper(t) {
      forall i | 0 <= i < |s|
        ensures Lower(s)[i] == Lower(t)[i]
      {
        assert Upper(s)[i] == Upper(t)[i];
      }
      assert |Upper(s)| == |s| && |Upper(t)| == |t|;
    }
  }

  // ---- Decimal numerals ----

  predicate IsDigit(c: char) {
    '0' <= c <= '9'
  }

  function Digit(d: nat): char
    requires d < 10
  {
    '0' + d as char
  }

  function Numeral(n: nat): (s: string)
    ensures s != "" && forall c :: c in s ==> IsDigit(c)
  {
    if n < 10 then [Digit(n)] else Numeral(n / 10) + [Digit(n % 10)]
  }

  /** `%d` of a possibly negative number. */
  function Decimal(n: int): (s: string)
    ensures forall c :: c in s ==> IsDigit(c) || c == '-'
  {
    if n < 0 then "-" + Numeral(-n) else Numeral(n)
  }

  lemma {:induction false} NumeralInjective(m: nat, n: nat)
    requires Numeral(m) == Numeral(n)
    ensures m == n
  {
    var s, t := Numeral(m), Numeral(n);
    assert s[|s| - 1] == Digit(m % 10) && t[|t| - 1] == Digit(n % 10);
    if m >= 10 && n >= 10 {
      assert s[..|s| - 1] == Numeral(m / 10) && t[..|t| - 1] == Numeral(n / 10);
      NumeralInjective(m / 10, n / 10);
    }
  }

  /** The number that a text of digits denotes. */
  function ValueOf(s: string): int {
    if s == "" then 0 else 10 * ValueOf(s[..|s| - 1]) + (s[|s| - 1] as int - 48)
  }

  /** A numeral denotes its number, and starts with a zero only if it is zero. */
  lemma {:induction false} NumeralDenotes(n: nat)
    ensures ValueOf(Numeral(n)) == n
    ensures Numeral(n)[0] == '0' ==> n == 0
  {
    var s := Numeral(n);
    if n >= 10 {
      NumeralDenotes(n / 10);
      assert s[..|s| - 1] == Numeral(n / 10) && s[|s| - 1] == Digit(n % 10);
      assert s[0] == Numeral(n / 10)[0];
    } else {
      assert s[..0] == "";
    }
  }

  lemma DecimalSign(n: int)
    ensures Decimal(n) != "" && (Decimal(n)[0] == '-' <==> n < 0)
  {
    if n >= 0 {
      assert IsDigit(Numeral(n)[0]);
    }
  }

  lemma DecimalInjective(m: int, n: int)
    requires Decimal(m) == Decimal(n)
    ensures m == n
  {
    DecimalSign(m);
    DecimalSign(n);
    if m < 0 {
      assert Decimal(m)[1..] == Numeral(-m) && Decimal(n)[1..] == Numeral(-n);
      NumeralInjective(-m, -n);
    } else {
      NumeralInjective(m, n);
    }
  }

  // ---- Glued identifiers ----

  /** A separator that the right parts avoid can be found from the right. */
  lemma SplitAtLast(a: string, b: string, c: string, d: string, sep: char)
    requires sep !in b && sep !in d
    requires a + [sep] + b == c + [sep] + d
    ensures a == c && b == d
  {
    var s := a + [sep] + b;
    assert s[|a|] == sep && s[|c|] == sep;
    assert |a| == |c|;
    assert s[..|a|] == a && s[..|c|] == c && s[|a| + 1..] == b && s[|c| + 1..] == d;
  }

  /** A separator that the left parts avoid can be found from the left. */
  lemma SplitAtFirst(a: string, b: string, c: string, d: string, sep: char)
    requires sep !in a && sep !in c
    requires a + [sep] + b == c + [sep] + d
    ensures a == c && b == d
  {
    var s := a + [sep] + b;
    assert s[|a|] == sep && s[|c|] == sep;
    assert |a| == |c|;
    assert s[..|a|] == a && s[..|c|] == c && s[|a| + 1..] == b && s[|c| + 1..] == d;
  }

  const NUL := '\0'

  /** The key of a row that belongs to a node and a date. */
  function TableKey(nodeId: string, date: string): string {
    nodeId + [NUL] + date
  }

  /** The key of an alert state. */
  function AlertKey(nodeId: string, code: string, severity: string): string {
    nodeId + [NUL] + code + [NUL] + severity
  }

  /** Rows of different nodes or dates never share a key, even for node ids that contain NUL. */
  lemma TableKeyInjective(n1: string, d1: string, n2: string, d2: string)
    requires NUL !in d1 && NUL !in d2
    ensures TableKey(n1, d1) == TableKey(n2, d2) <==> n1 == n2 && d1 == d2
  {
    if TableKey(n1, d1) == TableKey(n2, d2) {
      SplitAtLast(n1, d1, n2, d2, NUL);
    }
  }

  lemma AlertKeyInjective(n1: string, c1: string, s1: string, n2: string, c2: string, s2: string)
    requires NUL !in c1 && NUL !in c2 && NUL !in s1 && NUL !in s2
    ensures AlertKey(n1, c1, s1) == AlertKey(n2, c2, s2) <==> n1 == n2 && c1 == c2 && s1 == s2
  {
    if AlertKey(n1, c1, s1) == AlertKey(n2, c2, s2) {
      SplitAtLast(n1 + [NUL] + c1, s1, n2 + [NUL] + c2, s2, NUL);
      SplitAtLast(n1, c1, n2, c2, NUL);
    }
  }

  /** The id of a challenge issued to a node at a time in nanoseconds. */
  function ChallengeId(nodeId: string, nanos: nat): string {
    nodeId + "-" + Numeral(nanos)
  }

  /** Two challenges share an id only when they were issued to the same node in the same nanosecond. */
  lemma ChallengeIdInjective(n1: string, t1: nat, n2: string, t2: nat)
    ensures ChallengeId(n1, t1) == ChallengeId(n2, t2) <==> n1 == n2 && t1 == t2
  {
    if ChallengeId(n1, t1) == ChallengeId(n2, t2) {
      SplitAtLast(n1, Numeral(t1), n2, Numeral(t2), '-');
      NumeralInjective(t1, t2);
    }
  }

  /** The key under which nodes on the same infrastructure are counted together. */
  function InfraKey(asn: int, providerId: string, infrastructureId: string): string {
    Decimal(asn) + "|" + providerId + "|" + infrastructureId
  }

  /** Exactly when two infrastructures are counted as one: the ASN is the same, and so are provider and
      infrastructure glued together with a bar. */
  lemma InfraKeyEqualIff(a1: int, p1: string, i1: string, a2: int, p2: string, i2: string)
    ensures InfraKey(a1, p1, i1) == InfraKey(a2, p2, i2) <==> a1 == a2 && p1 + "|" + i1 == p2 + "|" + i2
  {
    assert InfraKey(a1, p1, i1) == Decimal(a1) + "|" + (p1 + "|" + i1);
    assert InfraKey(a2, p2, i2) == Decimal(a2) + "|" + (p2 + "|" + i2);
    if InfraKey(a1, p1, i1) == InfraKey(a2, p2, i2) {
      SplitAtFirst(Decimal(a1), p1 + "|" + i1, Decimal(a2), p2 + "|" + i2, '|');
      DecimalInjective(a1, a2);
    }
  }

  /** The infrastructure key separates its parts when provider ids avoid the bar. */
  lemma InfraKeyInjective(a1: int, p1: string, i1: string, a2: int, p2: string, i2: string)
    requires '|' !in p1 && '|' !in p2
    ensures InfraKey(a1, p1, i1) == InfraKey(a2, p2, i2) <==> a1 == a2 && p1 == p2 && i1 == i2
  {
    InfraKeyEqualIff(a1, p1, i1, a2, p2, i2);
    if p1 + "|" + i1 == p2 + "|" + i2 {
      SplitAtFirst(p1, i1, p2, i2, '|');
    }
  }
}
