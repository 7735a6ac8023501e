/** The sliding-window rate limiter: it prunes what it remembers, decides as if it
    remembered everything, and no window ever holds more requests than allowed.
    Instants are nanoseconds. */
module RateLimiter {

  const MINUTE := 60_000_000_000
  const HOUR := 60 * MINUTE
  const DAY := 24 * HOUR

  datatype Limits = Limits(perMinute: int, perHour: int, perDay: int)

  datatype Decision = Allowed | DailyExceeded | HourlyExceeded | MinuteExceeded

  /** The requests after `cutoff`. */
  function After(requests: seq<int>, cutoff: int): seq<int> {
    if requests == [] then []
    else
      var last := requests[|requests| - 1];
      After(requests[..|requests| - 1], cutoff) + (if last > cutoff then [last] else [])
  }

  /** What the limits say to a request at `now` after all accepted ones. */
  function Decide(limits: Limits, accepted: seq<int>, now: int): Decision {
    if |After(accepted, now - DAY)| >= limits.perDay then DailyExceeded
    else if |After(accepted, now - HOUR)| >= limits.perHour then HourlyExceeded
    else if |After(accepted, now - MINUTE)| >= limits.perMinute then MinuteExceeded
    else Allowed
  }

  lemma {:induction false} AfterTwice(requests: seq<int>, early: int, late: int)
    requires early <= late
    ensures After(After(requests, early), late) == After(requests, late)
  {
    if requests != [] {
      var rest, last := requests[..|requests| - 1], requests[|requests| - 1];
      AfterTwice(rest, early, late);
      var kept := After(rest, early);
      if last > early { assert (kept + [last])[..|kept|] == kept; } else { assert kept + [] == kept; }
    }
  }

  /** Deciding on what pruning left agrees with deciding on the full history. */
  lemma PrunedDecidesAlike(limits: Limits, accepted: seq<int>, cutoff: int, now: int)
    requires cutoff <= now - DAY
    ensures Decide(limits, After(accepted, cutoff), now) == Decide(limits, accepted, now)
  {
    AfterTwice(accepted, cutoff, now - DAY);
    AfterTwice(accepted, cutoff, now - HOUR);
    AfterTwice(accepted, cutoff, now - MINUTE);
  }

  // ----- no window holds more than its limit -----

  /** Every request was allowed when it came, and time did not run backwards. */
  predicate WasAllowed(limits: Limits, accepted: seq<int>) {
    accepted == [] ||
    var before, now := accepted[..|accepted| - 1], accepted[|accepted| - 1];
    && WasAllowed(limits, before)
    && (before != [] ==> before[|before| - 1] <= now)
    && Decide(limits, before, now) == Allowed
  }

  /** The requests in the half-open window of `width` that ends at `end`. */
  function InWindow(requests: seq<int>, end: int, width: int): nat {
    if requests == [] then 0
    else
      var last := requests[|requests| - 1];
      InWindow(requests[..|requests| - 1], end, width) + (if end - width < last <= end then 1 else 0)
  }

  function LimitOf(limits: Limits, width: int): int {
    if width == DAY then limits.perDay else if width == HOUR then limits.perHour else limits.perMinute
  }

  lemma {:induction false} WindowWithinAfter(requests: seq<int>, end: int, width: int, cutoff: int)
    requires cutoff <= end - width
    ensures InWindow(requests, end, width) <= |After(requests, cutoff)|
  {
    if requests != [] { WindowWithinAfter(requests[..|requests| - 1], end, width, cutoff); }
  }

  /** Wherever a window of a minute, an hour or a day ends, it holds at most the
      configured number of accepted requests. */
  lemma {:induction false} WindowsAreBounded(limits: Limits, accepted: seq<int>, end: int, width: int)
    requires WasAllowed(limits, accepted) && width in {MINUTE, HOUR, DAY}
    ensures InWindow(accepted, end, width) <= if LimitOf(limits, width) > 0 then LimitOf(limits, width) else 0
  {
    if accepted != [] {
      var before, last := accepted[..|accepted| - 1], accepted[|accepted| - 1];
      if last > end {
        WindowsAreBounded(limits, before, end, width);
      } else {
        WindowWithinAfter(before, end, width, last - width);
      }
    }
  }

  lemma {:induction false} CountIsWindow(requests: seq<int>, end: int, width: int)
    requires forall i :: 0 <= i < |requests| ==> requests[i] <= end
    ensures |After(requests, end - width)| == InWindow(requests, end, width)
  {
    if requests != [] { CountIsWindow(requests[..|requests| - 1], end, width); }
  }

  lemma {:induction false} AllowedByNow(limits: Limits, accepted: seq<int>, now: int)
    requires WasAllowed(limits, accepted) && (accepted != [] ==> accepted[|accepted| - 1] <= now)
    ensures forall i :: 0 <= i < |accepted| ==> accepted[i] <= now
  {
    if accepted != [] { AllowedByNow(limits, accepted[..|accepted| - 1], now); }
  }

  /** What a user is told, by the accepted requests of the last day, hour and minute, in nanoseconds. */
  predicate DecidedBy(limits: Limits, accepted: seq<int>, now: int, decision: Decision) {
    var daily := InWindow(accepted, now, 86_400_000_000_000);
    var hourly := InWindow(accepted, now, 3_600_000_000_000);
    var minutely := InWindow(accepted, now, 60_000_000_000);
    && (decision == DailyExceeded <==> daily >= limits.perDay)
    && (decision == HourlyExceeded <==> daily < limits.perDay && hourly >= limits.perHour)
    && (decision == MinuteExceeded <==>
          daily < limits.perDay && hourly < limits.perHour && minutely >= limits.perMinute)
    && (decision == Allowed <==> daily < limits.perDay && hourly < limits.perHour && minutely < limits.perMinute)
  }

  /** A request is allowed exactly when all three windows that end now have room for it, and a
      refusal names the widest one that has none. */
  lemma AllowedIffRoom(limits: Limits, accepted: seq<int>, now: int)
    requires WasAllowed(limits, accepted) && (accepted != [] ==> accepted[|accepted| - 1] <= now)
    ensures DecidedBy(limits, accepted, now, Decide(limits, accepted, now))
  {
    AllowedByNow(limits, accepted, now);
    CountIsWindow(accepted, now, DAY);
    CountIsWindow(accepted, now, HOUR);
    CountIsWindow(accepted, now, MINUTE);
  }

  // ----- the limiter -----

  /** What is remembered of a user is the history after a cutoff a day ago or more. */
  predicate Remembers(limits: Limits, clock: int, remembered: seq<int>, accepted: seq<int>, cutoff: int) {
    && cutoff <= clock - DAY && remembered == After(accepted, cutoff)
    && WasAllowed(limits, accepted)
    && (accepted != [] ==> accepted[|accepted| - 1] <= clock)
  }

  lemma AllowedGrows(limits: Limits, accepted: seq<int>, now: int, cutoff: int)
    requires WasAllowed(limits, accepted) && (accepted != [] ==> accepted[|accepted| - 1] <= now)
    requires Decide(limits, accepted, now) == Allowed && cutoff < now
    ensures WasAllowed(limits, accepted + [now]) && After(accepted + [now], cutoff) == After(accepted, cutoff) + [now]
  {
    var grown := accepted + [now];
    assert grown[..|grown| - 1] == accepted && grown[|grown| - 1] == now;
  }

  lemma StillRemembers(limits: Limits, clock: int, remembered: seq<int>, accepted: seq<int>, cutoff: int, now: int)
    requires Remembers(limits, clock, remembered, accepted, cutoff) && clock <= now
    ensures Remembers(limits, now, remembered, accepted, cutoff)
  {
  }

  /** A check cuts the memory at a day ago and keeps it true. */
  lemma CheckKeeps(limits: Limits, clock: int, remembered: seq<int>, accepted: seq<int>, cutoff: int, now: int)
    requires Remembers(limits, clock, remembered, accepted, cutoff) && clock <= now
    ensures After(remembered, now - DAY) == After(accepted, now - DAY)
    ensures Remembers(limits, now, After(accepted, now - DAY), accepted, now - DAY)
    ensures Decide(limits, accepted, now) == Allowed ==>
              Remembers(limits, now, After(accepted, now - DAY) + [now], accepted + [now], now - DAY)
  {
    AfterTwice(accepted, cutoff, now - DAY);
    if Decide(limits, accepted, now) == Allowed { AllowedGrows(limits, accepted, now, now - DAY); }
  }

  method Prune(requests: seq<int>, cutoff: int) returns (kept: seq<int>)
    ensures kept == After(requests, cutoff)
  {
    kept := [];
    for i := 0 to |requests|
      invariant kept == After(requests[..i], cutoff)
    {
      assert requests[..i + 1][..i] == requests[..i];
      if requests[i] > cutoff { kept := kept + [requests[i]]; }
    }
    assert requests[..|requests|] == requests;
  }

  method CountAfter(requests: seq<int>, cutoff: int) returns (n: nat)
    ensures n == |After(requests, cutoff)|
  {
    n := 0;
    for i := 0 to |requests|
      invariant n == |After(requests[..i], cutoff)|
    {
      assert requests[..i + 1][..i] == requests[..i];
      if requests[i] > cutoff { n := n + 1; }
    }
    assert requests[..|requests|] == requests;
  }

  method Judge(limits: Limits, kept: seq<int>, now: int) returns (decision: Decision)
    requires kept == After(kept, now - DAY)
    ensures decision == Decide(limits, kept, now)
  {
    if |kept| >= limits.perDay { return DailyExceeded; }
    var hourly := CountAfter(kept, now - HOUR);
    if hourly >= limits.perHour { return HourlyExceeded; }
    var minutely := CountAfter(kept, now - MINUTE);
    return if minutely >= limits.perMinute then MinuteExceeded else Allowed;
  }

  /** What a request makes of a user's list; `accepted` the full history behind it. */
  method CheckList(limits: Limits, known: seq<int>, now: int, ghost clock: int, ghost accepted: seq<int>,
                   ghost cutoff: int)
    returns (decision: Decision, remembered: seq<int>)
    requires Remembers(limits, clock, known, accepted, cutoff) && clock <= now
    ensures decision == Decide(limits, accepted, now)
    ensures Remembers(limits, now, remembered, if decision == Allowed then accepted + [now] else accepted, now - DAY)
  {
    CheckKeeps(limits, clock, known, accepted, cutoff, now);
    remembered := Prune(known, now - DAY);
    AfterTwice(accepted, now - DAY, now - DAY);
    PrunedDecidesAlike(limits, accepted, now - DAY, now);
    decision := Judge(limits, remembered, now);
    if decision == Allowed { remembered := remembered + [now]; }
  }

  class Limiter {
    const limits: Limits
    var requests: map<string, seq<int>>
    /** Every request allowed since the user's last reset, and where the user's list
        was last cut off. */
    ghost var accepted: map<string, seq<int>>
    ghost var cutoff: map<string, int>
    ghost var clock: int

    ghost function History(user: string): seq<int>
      reads this
    {
      if user in accepted then accepted[user] else []
    }

    ghost predicate Valid()
      reads this
    {
      && requests.Keys == accepted.Keys == cutoff.Keys
      && forall user :: user in requests ==> Remembers(limits, clock, requests[user], accepted[user], cutoff[user])
    }

    constructor (limits: Limits, ghost now: int)
      ensures Valid() && this.limits == limits && accepted == map[] && clock == now
    {
      this.limits, requests, accepted, cutoff, clock := limits, map[], map[], map[], now;
    }

    /** Decides as the full history does, and enters an allowed request. */
    method Check(user: string, now: int) returns (decision: Decision)
      requires Valid() && clock <= now
      modifies this
      ensures Valid() && clock == now
      ensures decision == Decide(limits, old(History(user)), now)
      ensures DecidedBy(limits, old(History(user)), now, decision)
      ensures accepted
           == old(accepted)[user := if decision == Allowed then old(History(user)) + [now] else old(History(user))]
    {
      var known := if user in requests then requests[user] else [];
      ghost var history := History(user);
      ghost var since := if user in cutoff then cutoff[user] else clock - DAY;
      assert Remembers(limits, clock, known, history, since);
      AllowedIffRoom(limits, history, now);
      var remembered;
      decision, remembered := CheckList(limits, known, now, clock, history, since);
      Enter(user, remembered, if decision == Allowed then history + [now] else history, now);
    }

    /** The user's list and history from now on. */
    method Enter(user: string, remembered: seq<int>, ghost history: seq<int>, ghost now: int)
      requires Valid() && clock <= now && Remembers(limits, now, remembered, history, now - DAY)
      modifies this
      ensures Valid() && clock == now && accepted == old(accepted)[user := history]
    {
      forall u | u in requests ensures Remembers(limits, now, requests[u], accepted[u], cutoff[u]) {
        StillRemembers(limits, clock, requests[u], accepted[u], cutoff[u], now);
      }
      requests := requests[user := remembered];
      accepted, cutoff, clock := accepted[user := history], cutoff[user := now - DAY], now;
    }

    /** Whatever was asked so far: no window of a user holds more than its limit. */
    lemma NoWindowOverflows(user: string, end: int, width: int)
      requires Valid() && width in {MINUTE, HOUR, DAY}
      ensures InWindow(History(user), end, width) <= if LimitOf(limits, width) > 0 then LimitOf(limits, width) else 0
    {
      WindowsAreBounded(limits, History(user), end, width);
    }

    /** Forgets a user. */
    method Reset(user: string)
      requires Valid()
      modifies this
      ensures Valid() && clock == old(clock) && accepted == old(accepted) - {user}
    {
      requests, accepted, cutoff := requests - {user}, accepted - {user}, cutoff - {user};
    }
  }
}
