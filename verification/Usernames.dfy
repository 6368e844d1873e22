/** The username of a first Google login: the smallest free suffix, found in boundedly many lookups. */
module Usernames {
  import opened Sets

  function Digit(d: nat): char
    requires d < 10
  {
    "0123456789"[d]
  }

  /** How a suffix is printed. */
  function ToDecimal(n: nat): string {
    if n < 10 then [Digit(n)] else ToDecimal(n / 10) + [Digit(n % 10)]
  }

  function DigitValue(c: char): nat {
    if '0' <= c <= '9' then (c as int - '0' as int) as nat else 0
  }

  function FromDecimal(s: string): nat {
    if s == "" then 0 else 10 * FromDecimal(s[..|s| - 1]) + DigitValue(s[|s| - 1])
  }

  lemma {:induction false} DecimalRoundTrip(n: nat)
    ensures FromDecimal(ToDecimal(n)) == n
    decreases n
  {
    var s := ToDecimal(n);
    if n < 10 {
      assert s[..0] == "";
    } else {
      DecimalRoundTrip(n / 10);
      assert s[..|s| - 1] == ToDecimal(n / 10);
    }
  }

  /** The first forty characters of the local part, or a default. */
  function BaseUsername(email: string): (base: string)
    ensures email == "" || email[0] == '@' ==> base == "user"
    ensures email != "" && email[0] != '@' ==>
      && base <= email && '@' !in base && 1 <= |base| <= 40
      && (|base| == 40 || base == email || email[|base|] == '@')
  {
    var local := LocalPart(email);
    var cut := if |local| <= 40 then local else local[..40];
    if cut == "" then "user" else cut
  }

  /** Everything before the first `@`. */
  function LocalPart(email: string): (local: string)
    ensures local <= email && '@' !in local
    ensures local == email || email[|local|] == '@'
  {
    if email == "" || email[0] == '@' then "" else [email[0]] + LocalPart(email[1..])
  }

  /** The names the loop tries, in order. */
  function Candidate(base: string, k: nat): string {
    if k == 0 then base else base + ToDecimal(k)
  }

  lemma CandidatesDiffer(base: string, i: nat, j: nat)
    requires i != j
    ensures Candidate(base, i) != Candidate(base, j)
  {
    DecimalRoundTrip(i);
    DecimalRoundTrip(j);
    assert Candidate(base, i)[|base|..] == if i == 0 then "" else ToDecimal(i);
    assert Candidate(base, j)[|base|..] == if j == 0 then "" else ToDecimal(j);
  }

  ghost function FirstCandidates(base: string, n: nat): set<string> {
    set k | 0 <= k < n :: Candidate(base, k)
  }

  lemma {:induction false} CandidatesCount(base: string, n: nat)
    ensures |FirstCandidates(base, n)| == n
    decreases n
  {
    if n > 0 {
      CandidatesCount(base, n - 1);
      forall k: nat | k < n - 1 {
        CandidatesDiffer(base, k, n - 1);
      }
      forall x | x in FirstCandidates(base, n) ensures x in FirstCandidates(base, n - 1) + {Candidate(base, n - 1)} {
        var k :| 0 <= k < n && x == Candidate(base, k);
      }
      assert FirstCandidates(base, n) == FirstCandidates(base, n - 1) + {Candidate(base, n - 1)};
    }
  }

  /** If the first `n` names are all taken, there are at least `n` users. */
  lemma TakenCandidatesBound(taken: set<string>, base: string, n: nat)
    requires forall k :: 0 <= k < n ==> Candidate(base, k) in taken
    ensures n <= |taken|
  {
    CandidatesCount(base, n);
    assert FirstCandidates(base, n) <= taken;
    Subset(FirstCandidates(base, n), taken);
  }

  /** Terminates after at most one more lookup than there are users, on the smallest free suffix. */
  method FindUsername(taken: set<string>, email: string) returns (username: string, lookups: nat)
    ensures username !in taken
    ensures 1 <= lookups <= |taken| + 1
    ensures username == BaseUsername(email) + if lookups == 1 then "" else ToDecimal(lookups - 1)
    ensures forall k :: 0 <= k < lookups - 1 ==> Candidate(BaseUsername(email), k) in taken
  {
    var base := BaseUsername(email);
    username := base;
    var suffix := 0;
    lookups := 1;
    while username in taken
      invariant username == Candidate(base, suffix) && lookups == suffix + 1
      invariant forall k :: 0 <= k < suffix ==> Candidate(base, k) in taken
      invariant suffix <= |taken|
      decreases |taken| - suffix
    {
      TakenCandidatesBound(taken, base, suffix + 1);
      suffix := suffix + 1;
      username := base + ToDecimal(suffix);
      lookups := lookups + 1;
    }
  }

  function Pow10(d: nat): nat {
    if d == 0 then 1 else 10 * Pow10(d - 1)
  }

  lemma {:induction false} DecimalLength(n: nat, d: nat)
    requires 1 <= d && n < Pow10(d)
    ensures |ToDecimal(n)| <= d
    decreases d
  {
    if n >= 10 {
      assert d > 1 by {
        assert Pow10(1) == 10 * Pow10(0);
      }
      DecimalLength(n / 10, d - 1);
    }
  }

  /** With fewer than ten billion users the chosen name fits its column of fifty characters. */
  lemma UsernameFitsColumn(taken: set<string>, email: string, k: nat)
    requires |taken| < Pow10(10)
    requires forall j :: 0 <= j < k ==> Candidate(BaseUsername(email), j) in taken
    ensures |Candidate(BaseUsername(email), k)| <= 50
  {
    TakenCandidatesBound(taken, BaseUsername(email), k);
    DecimalLength(k, 10);
  }
}
