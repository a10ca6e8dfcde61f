/** The names `conflict_copy_path` tries: `<path>.conflict-<today>`, then the same with `.0`, `.1`, ... */
module CopyNames {
  import opened RevTree

  function Digit(d: nat): char
    requires d < 10
  {
    (d + '0' as int) as char
  }

  function Decimal(n: nat): (s: string)
    ensures |s| > 0
  {
    if n < 10 then [Digit(n)] else Decimal(n / 10) + [Digit(n % 10)]
  }

  lemma {:induction false} DecimalInjective(m: nat, n: nat)
    requires Decimal(m) == Decimal(n)
    ensures m == n
  {
    var sm, sn := Decimal(m), Decimal(n);
    assert sm[|sm| - 1] == Digit(m % 10) && sn[|sn| - 1] == Digit(n % 10);
    assert m % 10 == n % 10;
    if m >= 10 && n >= 10 {
      assert Decimal(m / 10) == sm[..|sm| - 1] == sn[..|sn| - 1] == Decimal(n / 10);
      DecimalInjective(m / 10, n / 10);
    }
  }

  function Candidate(base: Path, today: string, n: nat): Path {
    if n == 0 then base + ".conflict-" + today
    else base + ".conflict-" + today + "." + Decimal(n - 1)
  }

  /** The candidate sequence never repeats, and never names the file itself. */
  lemma CandidateInjective(base: Path, today: string, m: nat, n: nat)
    requires Candidate(base, today, m) == Candidate(base, today, n)
    ensures m == n
  {
    var stem := base + ".conflict-" + today;
    var k := |stem|;
    if m > 0 && n > 0 {
      assert Candidate(base, today, m)[k + 1..] == Decimal(m - 1);
      assert Candidate(base, today, n)[k + 1..] == Decimal(n - 1);
      DecimalInjective(m - 1, n - 1);
    }
  }

  ghost predicate IsCopyName(base: Path, q: Path) {
    exists today, n :: q == Candidate(base, today, n)
  }

  lemma CopyNameDiffers(base: Path, q: Path)
    requires IsCopyName(base, q)
    ensures q != base
  {
    var today, n :| q == Candidate(base, today, n);
    assert |q| > |base|;
  }

  /** If the first `n` candidates are all taken there are at least `n` documents. */
  lemma {:induction false} ProbesAreBounded(base: Path, today: string, taken: set<Path>, n: nat)
    requires forall k :: 0 <= k < n ==> Candidate(base, today, k) in taken
    ensures n <= |taken|
  {
    if n > 0 {
      var last := Candidate(base, today, n - 1);
      forall k | 0 <= k < n - 1 ensures Candidate(base, today, k) in taken - {last} {
        if Candidate(base, today, k) == last {
          CandidateInjective(base, today, k, n - 1);
        }
      }
      ProbesAreBounded(base, today, taken - {last}, n - 1);
    }
  }

  // ---- what the names are ----

  predicate IsDigits(s: string) {
    forall i :: 0 <= i < |s| ==> '0' <= s[i] <= '9'
  }

  /** The number a string of digits writes. */
  function Number(s: string): nat
    requires IsDigits(s)
  {
    if s == "" then 0 else 10 * Number(s[..|s| - 1]) + (s[|s| - 1] as int - '0' as int)
  }

  /** Decimal notation, without leading zeros. */
  lemma {:induction false} DecimalIsNumber(n: nat)
    ensures IsDigits(Decimal(n)) && Number(Decimal(n)) == n
    ensures n > 0 ==> Decimal(n)[0] != '0'
    ensures n == 0 ==> Decimal(n) == "0"
  {
    var s := Decimal(n);
    if n >= 10 {
      DecimalIsNumber(n / 10);
      assert s[..|s| - 1] == Decimal(n / 10);
    } else {
      assert s[..0] == "";
    }
  }

  /** The first name has the date alone, the ones after it end in `.0`, `.1` and so on. */
  lemma CandidateNames(base: Path, today: string, k: nat)
    ensures Candidate(base, today, 0) == base + ".conflict-" + today
    ensures exists s: string :: Candidate(base, today, k + 1) == base + ".conflict-" + today + "." + s
                             && IsDigits(s) && Number(s) == k && (k > 0 ==> s != "" && s[0] != '0') && (k == 0 ==> s == "0")
  {
    DecimalIsNumber(k);
  }
}
