/** The two string functions the services rely on: e-mail normalization
    (`lower().strip()`) over ASCII, and decimal printing of a counter. */
module Text {

  // ── E-mail normalization ──────────────────────────────────────────

  function LowerChar(c: char): char {
    if 'A' <= c <= 'Z' then (c as int + 32) as char else c
  }

  predicate IsSpace(c: char) {
    c == ' ' || 9 <= c as int <= 13 || 28 <= c as int <= 31
  }

  function Lower(s: string): (r: string)
    ensures |r| == |s|
    ensures forall i :: 0 <= i < |s| ==> r[i] == LowerChar(s[i])
  {
    if s == "" then "" else [LowerChar(s[0])] + Lower(s[1..])
  }

  function StripLeft(s: string): string {
    if s != "" && IsSpace(s[0]) then StripLeft(s[1..]) else s
  }

  function StripRight(s: string): string {
    if s != "" && IsSpace(s[|s| - 1]) then StripRight(s[..|s| - 1]) else s
  }

  function Normalize(email: string): string {
    StripRight(StripLeft(Lower(email)))
  }

  /** What every stored address looks like. */
  predicate IsNormal(s: string) {
    && (forall i :: 0 <= i < |s| ==> LowerChar(s[i]) == s[i])
    && (s != "" ==> !IsSpace(s[0]) && !IsSpace(s[|s| - 1]))
  }

  lemma LowerTwice(c: char)
    ensures LowerChar(LowerChar(c)) == LowerChar(c)
  {
  }

  lemma BlankIsSpace(c: char)
    ensures IsBlank(c) <==> IsSpace(c)
  {
  }

  lemma NormalizeIsNormal(email: string)
    ensures IsNormal(Normalize(email))
  {
    var low := Lower(email);
    var a, b := NormalizeMeaning(email);
    var s := Normalize(email);
    forall i | 0 <= i < |s| ensures LowerChar(s[i]) == s[i] {
      assert s[i] == low[a + i];
      LowerTwice(email[a + i]);
    }
    if s != "" {
      assert s[0] == low[a] && s[|s| - 1] == low[b - 1];
      BlankIsSpace(s[0]);
      BlankIsSpace(s[|s| - 1]);
    }
  }

  lemma NormalIsFixed(s: string)
    requires IsNormal(s)
    ensures Lower(s) == s && Normalize(s) == s
  {
  }

  /** Normalization lands in the normal addresses and is the identity on them,
      so it is idempotent and every later `lower()` of a stored address is too. */
  lemma NormalizeIsProjection(email: string)
    ensures IsNormal(Normalize(email))
    ensures IsNormal(email) <==> Normalize(email) == email
    ensures Lower(Normalize(email)) == Normalize(email)
  {
    NormalizeIsNormal(email);
    NormalIsFixed(Normalize(email));
    if IsNormal(email) {
      NormalIsFixed(email);
    }
  }

  const UPPER := "ABCDEFGHIJKLMNOPQRSTUVWXYZ"
  const LOWER := "abcdefghijklmnopqrstuvwxyz"

  /** Letters go to the letters in the same place, everything else stays. */
  lemma LowerCharMeaning(c: char)
    ensures forall k :: 0 <= k < 26 ==> LowerChar(UPPER[k]) == LOWER[k]
    ensures c !in UPPER ==> LowerChar(c) == c
  {
    assert forall k :: 0 <= k < 26 ==> UPPER[k] as int == 65 + k && LOWER[k] as int == 97 + k;
    if 'A' <= c <= 'Z' {
      assert UPPER[c as int - 65] == c;
    }
  }

  /** The blanks that are stripped: tabulator to carriage return, the four separators,
      and the space. */
  predicate IsBlank(c: char) {
    c as int in {9, 10, 11, 12, 13, 28, 29, 30, 31, 32}
  }

  /** Normalizing cuts blanks off both ends of the lowered address, as many as there are,
      and nothing else. */
  lemma NormalizeMeaning(email: string) returns (a: nat, b: nat)
    ensures a <= b <= |email| && Normalize(email) == Lower(email)[a..b]
    ensures forall k :: 0 <= k < a || b <= k < |email| ==> IsBlank(Lower(email)[k])
    ensures a < b ==> !IsBlank(Lower(email)[a]) && !IsBlank(Lower(email)[b - 1])
  {
    var low := Lower(email);
    a := StripLeftBlanks(low);
    var n := StripRightBlanks(low[a..]);
    b := a + n;
    assert low[a..][..n] == low[a..b];
    assert forall k :: b <= k < |email| ==> low[k] == low[a..][k - a];
  }

  lemma {:induction false} StripLeftBlanks(s: string) returns (k: nat)
    ensures k <= |s| && StripLeft(s) == s[k..]
    ensures forall j :: 0 <= j < k ==> IsBlank(s[j])
    ensures k < |s| ==> !IsBlank(s[k])
  {
    if s != "" && IsSpace(s[0]) {
      var j := StripLeftBlanks(s[1..]);
      k := j + 1;
      assert forall m :: 1 <= m < k ==> s[m] == s[1..][m - 1];
    } else {
      k := 0;
    }
  }

  lemma {:induction false} StripRightBlanks(s: string) returns (k: nat)
    ensures k <= |s| && StripRight(s) == s[..k]
    ensures forall j :: k <= j < |s| ==> IsBlank(s[j])
    ensures k > 0 ==> !IsBlank(s[k - 1])
  {
    if s != "" && IsSpace(s[|s| - 1]) {
      k := StripRightBlanks(s[..|s| - 1]);
      assert s[..|s| - 1][..k] == s[..k];
    } else {
      k := |s|;
    }
  }

  // ── Decimal printing ──────────────────────────────────────────────

  function Digit(d: nat): (c: char)
    requires d < 10
    ensures c as int == '0' as int + d
  {
    ('0' as int + d) as char
  }

  function Decimal(n: nat): (s: string)
    ensures s != ""
  {
    if n < 10 then [Digit(n)] else Decimal(n / 10) + [Digit(n % 10)]
  }

  lemma {:induction false} DecimalInjective(m: nat, n: nat)
    requires Decimal(m) == Decimal(n)
    ensures m == n
    decreases m
  {
    var s, t := Decimal(m), Decimal(n);
    assert s[|s| - 1] == Digit(m % 10) && t[|t| - 1] == Digit(n % 10);
    if m >= 10 && n >= 10 {
      assert s[..|s| - 1] == Decimal(m / 10) && t[..|t| - 1] == Decimal(n / 10);
      DecimalInjective(m / 10, n / 10);
    }
  }

  /** The number a string of digits stands for, most significant first. */
  function ValueOf(s: string): int {
    if s == "" then 0 else 10 * ValueOf(s[..|s| - 1]) + (s[|s| - 1] as int - 48)
  }

  /** Printing a counter gives the digits of the counter, without leading zeros. */
  lemma {:induction false} DecimalMeaning(n: nat)
    ensures ValueOf(Decimal(n)) == n
    ensures forall k :: 0 <= k < |Decimal(n)| ==> '0' <= Decimal(n)[k] <= '9'
    ensures n > 0 ==> Decimal(n)[0] != '0'
  {
    var s := Decimal(n);
    if n >= 10 {
      DecimalMeaning(n / 10);
      assert s[..|s| - 1] == Decimal(n / 10);
    } else {
      assert s[..|s| - 1] == "";
    }
  }
}
