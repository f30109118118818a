/** The limit on pairing attempts per address. Times are nanoseconds of a monotonic clock. */
module RateLimit {
  const MAX_PAIRING_ATTEMPTS_PER_IP := 5
  const PAIRING_RATE_WINDOW: int := 60 * 1_000_000_000

  type Ip = int
  datatype Attempt = Attempt(ip: Ip, at: int)

  /** The times of one address. */
  function Times(attempts: seq<Attempt>, ip: Ip): seq<int> {
    if attempts == [] then []
    else
      var last := |attempts| - 1;
      Times(attempts[..last], ip) + (if attempts[last].ip == ip then [attempts[last].at] else [])
  }

  /** How many of the times are at most the window before `now`. */
  function RecentCount(times: seq<int>, now: int): nat {
    if times == [] then 0
    else (if now - times[0] <= PAIRING_RATE_WINDOW then 1 else 0) + RecentCount(times[1..], now)
  }

  predicate Admits(times: seq<int>, now: int) { RecentCount(times, now) < MAX_PAIRING_ATTEMPTS_PER_IP }

  /** The attempts allowed out of a list of attempts, judged by the full history. */
  function Allowed(attempts: seq<Attempt>): seq<Attempt> {
    if attempts == [] then []
    else
      var last := |attempts| - 1;
      var earlier, attempt := Allowed(attempts[..last]), attempts[last];
      if Admits(Times(earlier, attempt.ip), attempt.at) then earlier + [attempt] else earlier
  }

  /** The same for the times of a single address. */
  function AllowedTimes(times: seq<int>): seq<int> {
    if times == [] then []
    else
      var last := |times| - 1;
      var earlier := AllowedTimes(times[..last]);
      if Admits(earlier, times[last]) then earlier + [times[last]] else earlier
  }

  lemma TimesSnoc(attempts: seq<Attempt>, attempt: Attempt, ip: Ip)
    ensures Times(attempts + [attempt], ip) == Times(attempts, ip) + (if attempt.ip == ip then [attempt.at] else [])
  {
    assert (attempts + [attempt])[..|attempts|] == attempts;
  }

  /** Addresses do not affect each other: what is allowed to one depends on its own attempts only. */
  lemma {:induction false} AddressesAreIndependent(attempts: seq<Attempt>, ip: Ip)
    ensures Times(Allowed(attempts), ip) == AllowedTimes(Times(attempts, ip))
    decreases |attempts|
  {
    if attempts != [] {
      var last := |attempts| - 1;
      var earlier, attempt := Allowed(attempts[..last]), attempts[last];
      AddressesAreIndependent(attempts[..last], ip);
      TimesSnoc(earlier, attempt, ip);
      if attempt.ip == ip {
        var times := Times(attempts, ip);
        assert times[..|times| - 1] == Times(attempts[..last], ip) && times[|times| - 1] == attempt.at;
      } else {
        assert Times(attempts, ip) == Times(attempts[..last], ip);
        assert Times(earlier, ip) + [] == Times(earlier, ip);
      }
    }
  }

  function CountWithin(times: seq<int>, from: int): nat {
    if times == [] then 0
    else
      var last := |times| - 1;
      CountWithin(times[..last], from) + (if from <= times[last] <= from + PAIRING_RATE_WINDOW then 1 else 0)
  }

  lemma {:induction false} RecentCountConcat(left: seq<int>, right: seq<int>, now: int)
    ensures RecentCount(left + right, now) == RecentCount(left, now) + RecentCount(right, now)
  {
    if left == [] {
      assert left + right == right;
    } else {
      assert (left + right)[1..] == left[1..] + right;
      RecentCountConcat(left[1..], right, now);
    }
  }

  lemma {:induction false} WithinIsRecent(times: seq<int>, from: int, now: int)
    requires now <= from + PAIRING_RATE_WINDOW
    ensures CountWithin(times, from) <= RecentCount(times, now)
    decreases |times|
  {
    if times != [] {
      var last := |times| - 1;
      WithinIsRecent(times[..last], from, now);
      RecentCountConcat(times[..last], [times[last]], now);
      assert times == times[..last] + [times[last]];
      var single: seq<int> := [times[last]];
      assert single[1..] == [];
    }
  }

  /** No closed interval of one window holds more than five allowed attempts of an address. */
  lemma {:induction false} NoWindowHoldsMore(times: seq<int>, from: int)
    ensures CountWithin(AllowedTimes(times), from) <= MAX_PAIRING_ATTEMPTS_PER_IP
    decreases |times|
  {
    if times != [] {
      var last := |times| - 1;
      var earlier, at := AllowedTimes(times[..last]), times[last];
      NoWindowHoldsMore(times[..last], from);
      if Admits(earlier, at) {
        assert (earlier + [at])[..|earlier|] == earlier;
        if from <= at <= from + PAIRING_RATE_WINDOW {
          WithinIsRecent(earlier, from, at);
        }
      }
    }
  }

  /** The times in the minute from a point on, by their places. */
  ghost function Within(times: seq<int>, from: int): set<nat> {
    set i: nat | i < |times| && from <= times[i] <= from + 60_000_000_000
  }

  lemma {:induction false} CountWithinMeaning(times: seq<int>, from: int)
    ensures CountWithin(times, from) == |Within(times, from)|
    decreases |times|
  {
    if times != [] {
      var last := |times| - 1;
      var earlier := times[..last];
      CountWithinMeaning(earlier, from);
      assert Within(times, from)
          == Within(earlier, from) + if from <= times[last] <= from + 60_000_000_000 then {last} else {};
    }
  }

  /** The bound for every address in every run of the listener. */
  lemma RateIsBounded(attempts: seq<Attempt>, ip: Ip, from: int)
    ensures |Within(Times(Allowed(attempts), ip), from)| <= 5
  {
    AddressesAreIndependent(attempts, ip);
    NoWindowHoldsMore(Times(attempts, ip), from);
    CountWithinMeaning(Times(Allowed(attempts), ip), from);
  }

  ghost predicate Sorted(times: seq<int>) { forall i, j :: 0 <= i < j < |times| ==> times[i] <= times[j] }

  /** The queue is what is left of an address's allowed times after dropping some that are already too old. */
  ghost predicate IsSuffix(kept: seq<int>, times: seq<int>, clock: int) {
    && |kept| <= |times|
    && kept == times[|times| - |kept|..]
    && Sorted(times)
    && (forall i :: 0 <= i < |times| - |kept| ==> clock - times[i] > PAIRING_RATE_WINDOW)
    && (forall i :: 0 <= i < |times| ==> times[i] <= clock)
  }

  lemma {:induction false} OldTimesDoNotCount(times: seq<int>, now: int)
    requires forall i :: 0 <= i < |times| ==> now - times[i] > PAIRING_RATE_WINDOW
    ensures RecentCount(times, now) == 0
  {
    if times != [] {
      OldTimesDoNotCount(times[1..], now);
    }
  }

  lemma {:induction false} RecentTimesCount(times: seq<int>, now: int)
    requires forall i :: 0 <= i < |times| ==> now - times[i] <= PAIRING_RATE_WINDOW
    ensures RecentCount(times, now) == |times|
  {
    if times != [] {
      RecentTimesCount(times[1..], now);
    }
  }

  /** The queue tells how many recent times there are once its old ones are gone. */
  lemma QueueCounts(queue: seq<int>, times: seq<int>, now: int)
    requires IsSuffix(queue, times, now) && (queue != [] ==> now - queue[0] <= PAIRING_RATE_WINDOW)
    ensures RecentCount(times, now) == |queue|
  {
    hide RecentCount;
    var dropped := times[..|times| - |queue|];
    assert forall i :: 0 <= i < |queue| ==> queue[i] == times[|times| - |queue| + i];
    OldTimesDoNotCount(dropped, now);
    RecentTimesCount(queue, now);
    RecentCountConcat(dropped, queue, now);
    assert times == dropped + queue;
  }

  lemma SuffixSnoc(queue: seq<int>, times: seq<int>, now: int)
    requires IsSuffix(queue, times, now)
    ensures IsSuffix(queue + [now], times + [now], now)
  {
  }

  lemma SuffixAges(queue: seq<int>, times: seq<int>, clock: int, now: int)
    requires IsSuffix(queue, times, clock) && clock <= now
    ensures IsSuffix(queue, times, now)
  {
  }

  lemma AllowedSnoc(attempts: seq<Attempt>, attempt: Attempt)
    ensures Allowed(attempts + [attempt])
         == if Admits(Times(Allowed(attempts), attempt.ip), attempt.at) then Allowed(attempts) + [attempt]
            else Allowed(attempts)
  {
    assert (attempts + [attempt])[..|attempts|] == attempts;
  }

  /** The times that are at most a minute before `now`, by their places. */
  ghost function Recent(times: seq<int>, now: int): set<nat> {
    set i: nat | i < |times| && now - times[i] <= 60_000_000_000
  }

  lemma {:induction false} RecentCountMeaning(times: seq<int>, now: int)
    ensures RecentCount(times, now) == |Recent(times, now)|
    decreases |times|
  {
    if times != [] {
      var last := |times| - 1;
      var earlier, single: seq<int> := times[..last], [times[last]];
      RecentCountMeaning(earlier, now);
      RecentCountConcat(earlier, single, now);
      assert times == earlier + single && single[1..] == [];
      assert Recent(times, now) == Recent(earlier, now) + if now - times[last] <= 60_000_000_000 then {last} else {};
    }
  }

  /** Every address's queue stands for its allowed times. */
  ghost predicate Tracks(perIp: map<Ip, seq<int>>, history: seq<Attempt>, clock: int) {
    && (forall ip :: ip in perIp ==> IsSuffix(perIp[ip], Times(history, ip), clock))
    && (forall ip :: ip !in perIp ==> Times(history, ip) == [])
  }

  lemma QueueIsSuffix(perIp: map<Ip, seq<int>>, history: seq<Attempt>, clock: int, ip: Ip)
    requires Tracks(perIp, history, clock)
    ensures IsSuffix(if ip in perIp then perIp[ip] else [], Times(history, ip), clock)
  {
  }

  lemma TracksAttempt(perIp: map<Ip, seq<int>>, history: seq<Attempt>, clock: int, ip: Ip, now: int, queue: seq<int>,
                      allowed: bool)
    requires Tracks(perIp, history, clock) && clock <= now && IsSuffix(queue, Times(history, ip), now)
    ensures Tracks(perIp[ip := if allowed then queue + [now] else queue],
                   if allowed then history + [Attempt(ip, now)] else history, now)
  {
    hide IsSuffix, Times;
    var next := if allowed then history + [Attempt(ip, now)] else history;
    var perIp' := perIp[ip := if allowed then queue + [now] else queue];
    SuffixSnoc(queue, Times(history, ip), now);
    forall other ensures Times(next, other) == Times(history, other) + if allowed && other == ip then [now] else [] {
      TimesSnoc(history, Attempt(ip, now), other);
      assert Times(history, other) + [] == Times(history, other);
    }
    forall other | other in perIp' ensures IsSuffix(perIp'[other], Times(next, other), now) {
      if other != ip {
        SuffixAges(perIp[other], Times(history, other), clock, now);
      }
      assert Times(history, other) + [] == Times(history, other);
    }
  }

  class PairingGuard {
    var perIp: map<Ip, seq<int>>
    /** All attempts so far and the time of the last one. */
    ghost var attempts: seq<Attempt>
    ghost var clock: int

    ghost predicate Valid()
      reads this
    {
      Tracks(perIp, Allowed(attempts), clock)
    }

    constructor ()
      ensures Valid() && attempts == []
    {
      perIp, attempts := map[], [];
    }

    /** Drops what is too old from the front of the queue and judges by its length: the same verdict as the full
        history gives. */
    method AllowIp(ip: Ip, now: int) returns (allowed: bool)
      requires Valid() && clock <= now
      modifies this
      ensures Valid() && clock == now
      ensures attempts == old(attempts) + [Attempt(ip, now)]
      ensures allowed <==> |Recent(Times(Allowed(old(attempts)), ip), now)| < 5
      ensures Allowed(attempts)
           == if allowed then Allowed(old(attempts)) + [Attempt(ip, now)] else Allowed(old(attempts))
      ensures forall other :: other != ip ==> (other in perIp <==> other in old(perIp))
      ensures forall other :: other != ip && other in perIp ==> perIp[other] == old(perIp)[other]
    {
      hide Times, Allowed, RecentCount, Recent, Tracks, IsSuffix;
      ghost var history, times := Allowed(attempts), Times(Allowed(attempts), ip);
      QueueIsSuffix(perIp, history, clock, ip);
      var queue := if ip in perIp then perIp[ip] else [];
      queue := DropOld(queue, now, times, clock);
      QueueCounts(queue, times, now);
      RecentCountMeaning(times, now);
      allowed := |queue| < MAX_PAIRING_ATTEMPTS_PER_IP;
      TracksAttempt(perIp, history, clock, ip, now, queue, allowed);
      AllowedSnoc(attempts, Attempt(ip, now));
      attempts := attempts + [Attempt(ip, now)];
      clock := now;
      perIp := perIp[ip := if allowed then queue + [now] else queue];
    }
  }

  method DropOld(queue: seq<int>, now: int, ghost times: seq<int>, ghost clock: int) returns (kept: seq<int>)
    requires IsSuffix(queue, times, clock) && clock <= now
    ensures IsSuffix(kept, times, now) && (kept != [] ==> now - kept[0] <= PAIRING_RATE_WINDOW)
  {
    kept := queue;
    while kept != [] && now - kept[0] > PAIRING_RATE_WINDOW
      invariant IsSuffix(kept, times, now)
      decreases |kept|
    {
      kept := kept[1..];
    }
  }
}
