/**
 * The vacation-balance state machine shared by every version of the employee
 * program: a request for `days` days is checked against the balance and then
 * either refused (nothing changes) or applied (exactly `days` are subtracted).
 */
module Leave {

  /** Number of vacation days one payout always costs. */
  const FIXED_VACATION_DAYS_PAYOUT: int := 5

  /** The balance a new employee starts with. */
  const DEFAULT_VACATION_DAYS: int := 25

  datatype Deduction = Granted(remaining: int) | Refused

  /** Check-then-apply: refused when the balance is smaller than the request. */
  function Deduct(balance: int, days: int): (d: Deduction)
    ensures d.Granted? <==> days <= balance
    ensures d.Granted? ==> d.remaining == balance - days
    ensures d.Granted? ==> d.remaining >= 0
    ensures days == balance ==> d == Granted(0)
  {
    if balance < days then Refused else Granted(balance - days)
  }

  /** The balance once a request has been decided, whether it was granted or not. */
  function BalanceAfter(balance: int, days: int): (b: int)
    ensures b == balance || b == balance - days
    ensures balance >= 0 ==> b >= 0
    ensures days >= 0 ==> b <= balance
    ensures days < 0 && days <= balance ==> b > balance
  {
    match Deduct(balance, days)
    case Granted(rest) => rest
    case Refused => balance
  }

  /** The balance after a series of requests, each decided against the balance left by the previous ones. */
  function Run(balance: int, requests: seq<int>): int
    decreases |requests|
  {
    if requests == [] then balance
    else Run(BalanceAfter(balance, requests[0]), requests[1..])
  }

  /** `n` requests of `days` days each. */
  function Repeat(days: int, n: nat): (s: seq<int>)
    ensures |s| == n
  {
    if n == 0 then [] else [days] + Repeat(days, n - 1)
  }

  /** A balance that starts non-negative stays non-negative, whatever is requested. */
  lemma {:induction false} RunKeepsNonNegative(balance: int, requests: seq<int>)
    requires balance >= 0
    ensures Run(balance, requests) >= 0
    decreases |requests|
  {
    if requests != [] {
      RunKeepsNonNegative(BalanceAfter(balance, requests[0]), requests[1..]);
    }
  }

  /** Requests for non-negative numbers of days never raise the balance. */
  lemma {:induction false} RunNeverRaises(balance: int, requests: seq<int>)
    requires forall i :: 0 <= i < |requests| ==> requests[i] >= 0
    ensures Run(balance, requests) <= balance
    decreases |requests|
  {
    if requests != [] {
      var rest := requests[1..];
      assert forall i :: 0 <= i < |rest| ==> rest[i] == requests[i + 1];
      RunNeverRaises(BalanceAfter(balance, requests[0]), rest);
    }
  }

  /** Euclidean remainder is unique: `x % d` is the `r` of any `x == d * q + r` with `0 <= r < d`. */
  lemma RemainderUnique(x: int, d: int, q: int, r: int)
    requires d > 0 && 0 <= r < d && x == d * q + r
    ensures x % d == r
  {
    var k := x / d - q;
    assert d * k == r - x % d;
    if k >= 1 {
      ProductAtLeast(d, k);
      assert false;
    } else if k <= -1 {
      ProductAtLeast(d, -k);
      assert false;
    }
  }

  lemma {:induction false} ProductAtLeast(d: int, k: int)
    requires d > 0 && k >= 1
    ensures d * k >= d
    decreases k
  {
    if k > 1 {
      ProductAtLeast(d, k - 1);
      assert d * k == d * (k - 1) + d;
    }
  }

  /** Taking one more request of `days` days does not change the remainder modulo `days`. */
  lemma RemainderAfterOneRequest(balance: int, days: int)
    requires days > 0
    ensures (balance - days) % days == balance % days
  {
    var q := balance / days;
    assert balance - days == days * (q - 1) + balance % days;
    RemainderUnique(balance - days, days, q - 1, balance % days);
  }

  /** The first of `n` repeated requests is decided against the starting balance. */
  lemma RunRepeatStep(balance: int, days: int, n: nat)
    requires n > 0
    ensures Run(balance, Repeat(days, n)) == Run(BalanceAfter(balance, days), Repeat(days, n - 1))
  {
    assert Repeat(days, n) == [days] + Repeat(days, n - 1);
  }

  /** `days * n` is `days * (n - 1) + days`, is never negative, and reaches `days` once `n > 0`. */
  lemma ProductStep(days: int, n: nat)
    requires days > 0 && n > 0
    ensures days * n == days * (n - 1) + days
    ensures days * (n - 1) >= 0
    ensures n - 1 > 0 ==> days * (n - 1) >= days
  {
    if n - 1 > 0 {
      ProductAtLeast(days, n - 1);
    }
  }

  /**
   * Repeating the same positive request: every request is granted while the
   * balance covers it, and once it no longer does the balance is stuck at the
   * remainder. For payouts this is `vacation_days % 5`.
   */
  lemma {:induction false} RepeatedRequests(balance: int, days: int, n: nat)
    requires balance >= 0 && days > 0
    ensures Run(balance, Repeat(days, n)) ==
              if days * n <= balance then balance - days * n else balance % days
    decreases n
  {
    if n > 0 {
      RunRepeatStep(balance, days, n);
      RepeatedRequests(BalanceAfter(balance, days), days, n - 1);
      ProductStep(days, n);
      if days <= balance {
        RemainderAfterOneRequest(balance, days);
      } else {
        RemainderUnique(balance, days, 0, balance);
      }
    }
  }
}
