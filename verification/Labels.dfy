/**
 The names of branches: `f"branch {i} of {n}"`, told to the child and kept in its row
 (spikes/engine/kladosd.py:335-345).
 */
module Labels {
  import opened Wrappers

  /** `str(n)`. */
  function Decimal(n: nat): string {
    (if n < 10 then "" else Decimal(n / 10)) + ["0123456789"[n % 10]]
  }

  function BranchLabel(k: nat, n: nat): string {
    "branch " + Decimal(k) + " of " + Decimal(n)
  }

  /** What the row says of a child: its branch, or what came instead of READY. */
  function RowBranch(k: nat, n: nat, answer: Option<string>): string {
    match answer
    case None => BranchLabel(k, n)
    case Some(text) => "ERR:" + text
  }

  // ---------------------------------------------------------------- numbers and their digits

  predicate IsDigit(c: char) {
    '0' <= c <= '9'
  }

  function DigitValue(c: char): nat
    requires IsDigit(c)
  {
    c as int - '0' as int
  }

  /** `int(s)` of a string of digits. */
  function ReadDecimal(s: string): nat
    requires forall k :: 0 <= k < |s| ==> IsDigit(s[k])
  {
    if s == "" then 0 else 10 * ReadDecimal(s[..|s| - 1]) + DigitValue(s[|s| - 1])
  }

  lemma DigitOf(d: nat)
    requires d < 10
    ensures IsDigit("0123456789"[d]) && DigitValue("0123456789"[d]) == d
  {
  }

  /** Digits only, none of them a leading zero, and they read back. */
  lemma {:induction false} DecimalReadsBack(n: nat)
    ensures Decimal(n) != "" && (forall k :: 0 <= k < |Decimal(n)| ==> IsDigit(Decimal(n)[k]))
    ensures n > 0 ==> Decimal(n)[0] != '0'
    ensures ReadDecimal(Decimal(n)) == n
  {
    DigitOf(n % 10);
    var s := Decimal(n);
    if n >= 10 {
      DecimalReadsBack(n / 10);
      assert s[..|s| - 1] == Decimal(n / 10);
    } else {
      assert s[..|s| - 1] == "";
    }
  }

  lemma LabelTells(j: nat, k: nat, n: nat)
    requires BranchLabel(j, n) == BranchLabel(k, n)
    ensures j == k
  {
    DecimalReadsBack(j);
    DecimalReadsBack(k);
    LabelHolds(Decimal(j), Decimal(n));
    LabelHolds(Decimal(k), Decimal(n));
  }

  lemma LabelHolds(a: string, b: string)
    ensures var s := "branch " + a + " of " + b; |s| == 11 + |a| + |b| && s[7..|s| - 4 - |b|] == a
  {
  }

  /** Siblings have different labels. */
  lemma LabelsDiffer(j: nat, k: nat, n: nat)
    requires j != k
    ensures BranchLabel(j, n) != BranchLabel(k, n)
  {
    if BranchLabel(j, n) == BranchLabel(k, n) {
      LabelTells(j, k, n);
    }
  }
}
