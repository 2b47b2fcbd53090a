/**
 * The two helpers of the utilities file: `retry`, which wraps a failing
 * asynchronous action in a bounded retry loop, and `shortenAddress`, which
 * abbreviates an address to its first six and last four characters.
 */
module Utils {
  import opened Wrappers

  /** A position given to JavaScript's `slice`: negative counts from the end; clamped to `[0, n]`. */
  function RelativeIndex(n: nat, k: int): (i: nat)
    ensures i <= n
  {
    if k < 0 then (if n + k < 0 then 0 else n + k) else (if k < n then k else n)
  }

  /** `s.slice(start, end)`. */
  function Slice(s: string, start: int, end: int): string
  {
    var from, to := RelativeIndex(|s|, start), RelativeIndex(|s|, end);
    if from < to then s[from..to] else []
  }

  function Min(a: int, b: int): int
  {
    if a < b then a else b
  }

  /**
   * The two slices `shortenAddress` takes: `slice(0, 6)` is the first
   * `min(6, n)` characters and `slice(-4)` the last `min(4, n)`.
   */
  lemma SliceEnds(s: string)
    ensures Slice(s, 0, 6) == s[..Min(6, |s|)]
    ensures Slice(s, -4, |s|) == s[|s| - Min(4, |s|)..]
  {
  }

  /**
   * `shortenAddress(address)`: the first `min(6, n)` characters, `"..."`, and
   * the last `min(4, n)` characters; on short addresses the two parts overlap.
   */
  function ShortenAddress(address: string): (r: string)
    ensures var head, tail := Min(6, |address|), Min(4, |address|);
      |r| == head + 3 + tail &&
      r[..head] == address[..head] &&
      r[head..head + 3] == "..." &&
      r[head + 3..] == address[|address| - tail..]
  {
    Slice(address, 0, 6) + "..." + Slice(address, -4, |address|)
  }

  /** Every address of at least ten characters is shortened to thirteen, keeping its ends. */
  lemma ShortenedLength(address: string)
    requires |address| >= 10
    ensures |ShortenAddress(address)| == 13
    ensures ShortenAddress(address) == address[..6] + "..." + address[|address| - 4..]
  {
    var r := ShortenAddress(address);
    assert r == r[..6] + r[6..9] + r[9..];
  }

  /** How one call of the wrapped function settles, and how many times it invoked `fn`. */
  datatype Attempts<T, E> = Attempts(result: Result<T, E>, count: nat)

  /** The failures of a call: every attempt but a successful last one. */
  function Failures<T, E>(a: Attempts<T, E>): nat
  {
    if a.result.Success? && a.count > 0 then a.count - 1 else a.count
  }

  function Budget(times: int): nat
  {
    if times > 0 then times else 0
  }

  /**
   * One call of the function `retry` returns, with the counter at `times`:
   * `fn` stands for the action, its reply determined by the arguments and
   * by how many times it has run before (`start`); each failure spends one
   * unit of the counter, and a failure met with no unit left rejects.
   */
  function Settle<A, T, E>(fn: (A, nat) -> Result<T, E>, args: A, start: nat, times: int): (r: Attempts<T, E>)
    ensures 1 <= r.count <= Budget(times) + 1
    ensures times <= 0 ==> r == Attempts(fn(args, start), 1)
    decreases Budget(times)
  {
    match fn(args, start)
    case Success(v) => Attempts(Success(v), 1)
    case Failure(err) =>
      if times <= 0 then Attempts(Failure(err), 1)
      else
        var rest := Settle(fn, args, start + 1, times - 1);
        Attempts(rest.result, rest.count + 1)
  }

  /**
   * The call settles as its last attempt did, and every earlier attempt
   * failed: the first success resolves and nothing runs after it.
   */
  lemma {:induction false} SettleStopsAtFirstSuccess<A, T, E>(fn: (A, nat) -> Result<T, E>, args: A, start: nat, times: int)
    ensures var r := Settle(fn, args, start, times);
      r.result == fn(args, start + r.count - 1) &&
      forall k :: start <= k < start + r.count - 1 ==> fn(args, k).Failure?
    decreases Budget(times)
  {
    if fn(args, start).Failure? && times > 0 {
      SettleStopsAtFirstSuccess(fn, args, start + 1, times - 1);
    }
  }

  /** The call rejects exactly when all `max(times, 0) + 1` allowed attempts fail, with the last error. */
  lemma {:induction false} SettleRejectsIffAllFail<A, T, E>(fn: (A, nat) -> Result<T, E>, args: A, start: nat, times: int)
    ensures var r := Settle(fn, args, start, times);
      r.result.Failure? <==> forall k :: start <= k <= start + Budget(times) ==> fn(args, k).Failure?
    ensures var r := Settle(fn, args, start, times);
      r.result.Failure? ==> r.count == Budget(times) + 1 && r.result == fn(args, start + Budget(times))
    decreases Budget(times)
  {
    if fn(args, start).Failure? && times > 0 {
      SettleRejectsIffAllFail(fn, args, start + 1, times - 1);
    }
  }

  /**
   * The counter is captured once by `retry` and shared by every call of the
   * function it returns: two calls together retry at most `max(times, 0)`
   * times, and after a rejection the next call makes a single attempt.
   */
  lemma SharedBudget<A, T, E>(fn: (A, nat) -> Result<T, E>, first: A, second: A, start: nat, times: int)
    ensures var r1 := Settle(fn, first, start, times);
      var r2 := Settle(fn, second, start + r1.count, times - Failures(r1));
      (r1.count - 1) + (r2.count - 1) <= Budget(times) &&
      (r1.result.Failure? ==> r2.count == 1)
  {
    SettleRejectsIffAllFail(fn, first, start, times);
  }

  /** `n` copies of `a`. */
  function Repeat<A>(a: A, n: nat): (r: seq<A>)
    ensures |r| == n && forall i :: 0 <= i < n ==> r[i] == a
  {
    seq(n, _ => a)
  }

  /**
   * The function `retry(fn, times, delay)` returns, with the counter `times`
   * it captures; `calls` records the arguments `fn` has received, in order.
   */
  class Retrying<A, T, E> {
    const fn: (A, nat) -> Result<T, E>
    const delay: int
    var times: int
    var calls: seq<A>

    constructor (fn: (A, nat) -> Result<T, E>, times: int := 0, delay: int := 0)
      ensures this.fn == fn && this.times == times && this.delay == delay && calls == []
    {
      this.fn := fn;
      this.times := times;
      this.delay := delay;
      calls := [];
    }

    /** One call: attempts until a success or until a failure finds no unit of the counter left. */
    method Call(args: A) returns (r: Result<T, E>)
      modifies this
      ensures var run := Settle(fn, args, |old(calls)|, old(times));
        r == run.result && times == old(times) - Failures(run) &&
        calls == old(calls) + Repeat(args, run.count)
    {
      ghost var start, times0 := |calls|, times;
      var outcome := fn(args, |calls|);
      calls := calls + [args];
      while outcome.Failure? && times > 0
        invariant |calls| > start && calls == old(calls) + Repeat(args, |calls| - start)
        invariant times == times0 - (|calls| - start - 1)
        invariant outcome == fn(args, |calls| - 1)
        invariant var rest := Settle(fn, args, |calls| - 1, times);
          Settle(fn, args, start, times0) == Attempts(rest.result, rest.count + (|calls| - start - 1))
        decreases Budget(times)
      {
        times := times - 1;
        outcome := fn(args, |calls|);
        calls := calls + [args];
      }
      if outcome.Failure? {
        times := times - 1;
      }
      r := outcome;
    }
  }
}
