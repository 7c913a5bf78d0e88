/** Token renewal in the Pattern 7 worker, with ideal timers. Times are in nanoseconds. */
module Renewal {
  import opened Models

  const ATTEMPTS := 5
  const REQUEST_TIMEOUT := 10 * SECOND
  /** Five requests at the timeout and backoffs of 0.5, 1, 1.5 and 2 seconds. */
  const WORST_RETRY := 5 * REQUEST_TIMEOUT + 5 * SECOND

  /** One try: whether and how long into its pause the context was found done, else how long the
      request took, and the expiry of the token it brought, if it succeeded. */
  datatype Attempt = Attempt(stopped: Option<int>, took: int, expiresAt: Option<int>)

  datatype Outcome = Token(expiresAt: int) | ContextDone | AllFailed

  function Backoff(attempt: nat): int { attempt * (SECOND / 2) }

  predicate Bounded(a: Attempt, attempt: nat) {
    0 <= a.took <= REQUEST_TIMEOUT && (a.stopped.Some? ==> 0 <= a.stopped.value <= Backoff(attempt))
  }

  /** When the retry loop is done if attempts from `i` on remain, and what it brings. */
  function RetryFrom(attempts: seq<Attempt>, i: nat, now: int): (int, Outcome)
    requires i <= |attempts|
    decreases |attempts| - i
  {
    if i == |attempts| then (now, AllFailed)
    else if attempts[i].stopped.Some? then (now + attempts[i].stopped.value, ContextDone)
    else
      var end := now + Backoff(i) + attempts[i].took;
      if attempts[i].expiresAt.Some? then (end, Token(attempts[i].expiresAt.value))
      else RetryFrom(attempts, i + 1, end)
  }

  method DoBootstrapWithRetry(attempts: seq<Attempt>, now: int) returns (end: int, outcome: Outcome)
    requires |attempts| == ATTEMPTS
    ensures (end, outcome) == RetryFrom(attempts, 0, now)
  {
    end := now;
    var i := 0;
    while i < ATTEMPTS
      invariant 0 <= i <= ATTEMPTS
      invariant RetryFrom(attempts, 0, now) == RetryFrom(attempts, i, end)
    {
      // Before the first try there is no pause, and the context is only looked at.
      if attempts[i].stopped.Some? {
        return end + attempts[i].stopped.value, ContextDone;
      }
      if i > 0 {
        end := end + i * (SECOND / 2);
      }
      end := end + attempts[i].took;
      if attempts[i].expiresAt.Some? {
        return end, Token(attempts[i].expiresAt.value);
      }
      i := i + 1;
    }
    outcome := AllFailed;
  }

  /** What the tries from `i` to `k` take: each its pause, half a second longer than the one before
      it, and its request. */
  function Tries(attempts: seq<Attempt>, i: nat, k: nat): int
    requires i <= k <= |attempts|
    decreases k
  {
    if i == k then 0 else Tries(attempts, i, k - 1) + (k - 1) * 500_000_000 + attempts[k-1].took
  }

  lemma {:induction false} TriesFrom(attempts: seq<Attempt>, i: nat, k: nat)
    requires i < k <= |attempts|
    ensures Tries(attempts, i, k) == i * 500_000_000 + attempts[i].took + Tries(attempts, i + 1, k)
    decreases k
  {
    if i + 1 < k { TriesFrom(attempts, i, k - 1); }
  }

  /** The first try that does not fail decides, at index `k`: it brings its token or finds the
      context done. If there is none all have failed. The end is the sum of the tries made. */
  lemma {:induction false} RetryOutcome(attempts: seq<Attempt>, i: nat, now: int) returns (k: nat)
    requires i <= |attempts|
    ensures i <= k <= |attempts| && forall j :: i <= j < k ==> Fails(attempts[j])
    ensures var (end, outcome) := RetryFrom(attempts, i, now);
            if k == |attempts| then
              outcome.AllFailed? && end == now + Tries(attempts, i, k)
            else if attempts[k].stopped.Some? then
              outcome.ContextDone? && end == now + Tries(attempts, i, k) + attempts[k].stopped.value
            else
              && attempts[k].expiresAt.Some? && outcome == Token(attempts[k].expiresAt.value)
              && end == now + Tries(attempts, i, k + 1)
    decreases |attempts| - i
  {
    k := i;
    if i < |attempts| && Fails(attempts[i]) {
      k := RetryOutcome(attempts, i + 1, now + Backoff(i) + attempts[i].took);
      if k > i { TriesFrom(attempts, i, k); }
      if k < |attempts| { TriesFrom(attempts, i, k + 1); }
    }
  }

  predicate Fails(a: Attempt) { a.stopped.None? && a.expiresAt.None? }

  /** Upper bound on what attempts from `i` on can take. */
  function WorstFrom(i: nat): int
    requires i <= ATTEMPTS
    decreases ATTEMPTS - i
  {
    if i == ATTEMPTS then 0 else Backoff(i) + REQUEST_TIMEOUT + WorstFrom(i + 1)
  }

  lemma WorstRetryTotal()
    ensures WorstFrom(0) == WORST_RETRY
  {
    assert WorstFrom(4) == Backoff(4) + REQUEST_TIMEOUT;
    assert WorstFrom(3) == Backoff(3) + REQUEST_TIMEOUT + WorstFrom(4);
    assert WorstFrom(2) == Backoff(2) + REQUEST_TIMEOUT + WorstFrom(3);
    assert WorstFrom(1) == Backoff(1) + REQUEST_TIMEOUT + WorstFrom(2);
  }

  /** The tokens of bounded attempts were issued while their request was under way. */
  ghost predicate Vended(attempts: seq<Attempt>, i: nat, now: int, ttl: int)
    requires i <= |attempts|
    decreases |attempts| - i
  {
    i == |attempts| ||
    (Bounded(attempts[i], i) &&
     var start := now + Backoff(i);
     var end := start + attempts[i].took;
     (attempts[i].expiresAt.Some? ==> start + ttl <= attempts[i].expiresAt.value <= end + ttl)
     && (Fails(attempts[i]) ==> Vended(attempts, i + 1, end, ttl)))
  }

  /** A retry loop takes at most the worst case, and a token it brings has at most one request's
      duration of its lifetime gone. */
  lemma {:induction false} RetryBounds(attempts: seq<Attempt>, i: nat, now: int, ttl: int)
    requires |attempts| == ATTEMPTS && i <= ATTEMPTS && Vended(attempts, i, now, ttl)
    ensures var (end, outcome) := RetryFrom(attempts, i, now);
            && now <= end <= now + WorstFrom(i)
            && (outcome.Token? ==> outcome.expiresAt - end >= ttl - REQUEST_TIMEOUT)
    decreases ATTEMPTS - i
  {
    if i < ATTEMPTS {
      var end := now + Backoff(i) + attempts[i].took;
      WorstNonNegative(i + 1);
      if Fails(attempts[i]) {
        RetryBounds(attempts, i + 1, end, ttl);
      }
    }
  }

  lemma {:induction false} WorstNonNegative(i: nat)
    requires i <= ATTEMPTS
    ensures WorstFrom(i) >= 0
    decreases ATTEMPTS - i
  {
    if i < ATTEMPTS { WorstNonNegative(i + 1); }
  }

  // ---- the wait: 80% of the remaining lifetime, in binary floating point ----

  // The constant 0.8 is FACTOR / 2^53 as a double.
  const FACTOR := 7205759403792794.0
  const TWO_53 := 9007199254740992.0
  /** 2^50 nanoseconds, thirteen days: below it a lifetime is exact as a double. */
  const EXACT_LIFETIME := 0x4_0000_0000_0000

  /** What the source can get when it multiplies the lifetime `left`, converted to a double, by 0.8.
      Each rounding is to the nearest double, so off by at most one part in 2^53. A lifetime below
      EXACT_LIFETIME is rounded once, and not across an integer, because integers are doubles;
      a longer one is rounded twice. */
  ghost predicate IsRoundedProduct(left: int, product: real) {
    var exact := left as real * FACTOR / TWO_53;
    if left < 0 then product <= 0.0
    else if left < EXACT_LIFETIME then
      Within(product, exact, exact / TWO_53) && exact.Floor as real <= product
    else Within(product, exact, 4.0 * exact / TWO_53)
  }

  predicate Within(x: real, y: real, error: real) { y - error <= x <= y + error }

  /** Conversion to a duration cuts towards zero. */
  function Truncated(x: real): int {
    if x >= 0.0 then x.Floor else -(-x).Floor
  }

  function RenewIn(product: real): int {
    if Truncated(product) > SECOND then Truncated(product) else SECOND
  }

  /** Below thirteen days the wait is the exact 80%, rounded down. */
  lemma FloatingPointWait(left: nat, product: real)
    requires left < EXACT_LIFETIME && IsRoundedProduct(left, product)
    ensures Truncated(product) == left * 4 / 5
  {
    var exact := left as real * FACTOR / TWO_53;
    var q := left * 4 / 5;
    ExactProduct(left as real);
    assert q as real <= left as real * 4.0 / 5.0 <= q as real + 0.8;
    assert q as real <= exact < q as real + 0.86 && exact.Floor == q;
    assert exact / TWO_53 < 0.11;
  }

  /** The wait is never shorter than a second, and below thirteen days it is the longer of a second
      and the exact 80%. */
  lemma WaitExactly(left: int, product: real)
    requires IsRoundedProduct(left, product)
    ensures RenewIn(product) >= 1_000_000_000
    ensures left < 0 ==> RenewIn(product) == 1_000_000_000
    ensures 0 <= left < EXACT_LIFETIME ==>
              RenewIn(product) == if left * 4 / 5 > 1_000_000_000 then left * 4 / 5 else 1_000_000_000
  {
    if 0 <= left < EXACT_LIFETIME { FloatingPointWait(left, product); }
  }

  lemma ExactProduct(left: real)
    requires left >= 0.0
    ensures var exact := left * FACTOR / TWO_53;
            && left * 4.0 / 5.0 <= exact <= left * 4.0 / 5.0 + left / 22000000000000000.0
            && exact / TWO_53 <= left / 11000000000000000.0
  {
  }

  lemma LongWait(left: int, product: real)
    requires left >= EXACT_LIFETIME && IsRoundedProduct(left, product)
    ensures left - RenewIn(product) >= WORST_RETRY
  {
    ExactProduct(left as real);
    assert product <= left as real * 0.9;
  }

  /** For every lifetime: waiting for 80% of it leaves room for the worst retry if and only if
      at least 275 seconds are left (less the four nanoseconds that rounding down gives back). */
  lemma RoomForRetryIff(left: int, product: real)
    requires IsRoundedProduct(left, product)
    ensures left - RenewIn(product) >= WORST_RETRY <==> left >= 275 * SECOND - 4
  {
    if left >= EXACT_LIFETIME {
      LongWait(left, product);
    } else if left >= 0 {
      FloatingPointWait(left, product);
    }
  }

  /** One turn of the renewal goroutine whose retry loop succeeds. */
  datatype Turn = Turn(top: int, expiresAt: int, product: real, attempts: seq<Attempt>)

  ghost predicate IsTurn(t: Turn, ttl: int) {
    && |t.attempts| == ATTEMPTS
    && IsRoundedProduct(t.expiresAt - t.top, t.product)
    && Vended(t.attempts, 0, t.top + RenewIn(t.product), ttl)
    && RetryFrom(t.attempts, 0, t.top + RenewIn(t.product)).1.Token?
  }

  /** When the new token arrives, and its expiry. */
  ghost function Renewed(t: Turn, ttl: int): (int, int)
    requires IsTurn(t, ttl)
  {
    var (end, outcome) := RetryFrom(t.attempts, 0, t.top + RenewIn(t.product));
    (end, outcome.expiresAt)
  }

  /** From every state of the goroutine there is such a turn, for instance one whose product is
      exact and whose first request succeeds at once. */
  lemma TurnExists(top: int, expiresAt: int, ttl: int) returns (t: Turn)
    ensures t.top == top && t.expiresAt == expiresAt && IsTurn(t, ttl)
  {
    var product := (expiresAt - top) as real * FACTOR / TWO_53;
    var start := top + RenewIn(product);
    var first := Attempt(None, 0, Some(start + ttl));
    t := Turn(top, expiresAt, product, [first, first, first, first, first]);
    assert RetryFrom(t.attempts, 0, start) == (start, Token(start + ttl));
    assert Vended(t.attempts, 0, start, ttl);
  }

  lemma TurnKeeps(t: Turn, ttl: int)
    requires IsTurn(t, ttl) && ttl >= 285 * SECOND && t.expiresAt - t.top >= 275 * SECOND
    ensures var (end, expiresAt) := Renewed(t, ttl);
            t.top < end <= t.expiresAt && expiresAt - end >= 275 * SECOND
  {
    hide RetryFrom, Vended, WorstFrom;
    RetryBounds(t.attempts, 0, t.top + RenewIn(t.product), ttl);
    WorstRetryTotal();
    RoomForRetryIff(t.expiresAt - t.top, t.product);
  }

  /** With a TTL of at least 285 seconds and every renewal succeeding within its five tries, a
      token with at least 275 seconds left at the top of the loop is replaced before it expires,
      in this and every later turn. */
  lemma {:induction false} TokenContinuity(turns: seq<Turn>, ttl: int, n: nat)
    requires ttl >= 285 * SECOND && n < |turns|
    requires forall i :: 0 <= i < |turns| ==> IsTurn(turns[i], ttl)
    requires forall i :: 0 < i < |turns| ==> (turns[i].top, turns[i].expiresAt) == Renewed(turns[i-1], ttl)
    requires turns[0].expiresAt - turns[0].top >= 275 * SECOND
    ensures Renewed(turns[n], ttl).0 <= turns[n].expiresAt
    ensures turns[n].expiresAt - turns[n].top >= 275 * SECOND
  {
    hide RenewIn, IsTurn;
    if n > 0 {
      TokenContinuity(turns, ttl, n - 1);
      TurnKeeps(turns[n-1], ttl);
    }
    TurnKeeps(turns[n], ttl);
  }
}
