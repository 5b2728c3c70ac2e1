// The time budget of one request, in 64-bit nanoseconds.
module Timeouts {
  import opened Prelude

  newtype Duration = d: int | -0x8000_0000_0000_0000 <= d < 0x8000_0000_0000_0000

  const DEFAULT_TIMEOUT: Duration := 30_000_000_000
  const MARGIN: Duration := 500_000_000

  function Max(x: Duration, y: Duration): Duration {
    if x > y then x else y
  }

  function Min(x: Duration, y: Duration): Duration {
    if x < y then x else y
  }

  // d.Sub(now), which saturates: deadline and clock are instants, and may be far apart.
  function Remaining(deadline: int, now: int): Duration {
    var d := deadline - now;
    if d >= 0x8000_0000_0000_0000 then 0x7fff_ffff_ffff_ffff
    else if d < -0x8000_0000_0000_0000 then -0x8000_0000_0000_0000
    else d as Duration
  }

  // NatsTransport.timeout.
  method Timeout(configured: Duration, deadline: Option<int>, now: int) returns (timeout: Duration)
    ensures timeout == HubTimeout(configured, deadline, now)
    ensures InBudget(configured, deadline, now, timeout)
  {
    timeout := configured;
    if deadline.Some? {
      timeout := Min(timeout, Remaining(deadline.value, now));
    }
    if timeout > 0 {
      return timeout;
    }
    return DEFAULT_TIMEOUT;
  }

  function HubTimeout(configured: Duration, deadline: Option<int>, now: int): Duration {
    var least := match deadline
      case None => configured
      case Some(d) => if Remaining(d, now) < configured then Remaining(d, now) else configured;
    if least > 0 then least else DEFAULT_TIMEOUT
  }

  // The timeout put in the request envelope. The subtraction stays in 64 bits.
  function Shipped(timeout: Duration): Duration
    requires timeout > 0
  {
    Max(0, timeout - MARGIN)
  }

  // What the edge waits, given the shipped timeout.
  function EdgeTimeout(shipped: Duration): Duration {
    if shipped == 0 then DEFAULT_TIMEOUT else shipped
  }

  // t is positive; it is the smaller of configured timeout and remaining time when both are positive,
  // and the default when one of them is not.
  predicate InBudget(configured: Duration, deadline: Option<int>, now: int, t: Duration) {
    && t > 0
    && (deadline.None? && configured > 0 ==> t == configured)
    && (deadline.Some? && configured > 0 && deadline.value > now ==>
          t <= configured && (t == configured || t as int == deadline.value - now)
          && t as int <= deadline.value - now)
    && (configured <= 0 || (deadline.Some? && deadline.value <= now) ==> t == 30_000_000_000)
  }

  // That is the hub timeout, and no other value is.
  lemma HubTimeoutBudget(configured: Duration, deadline: Option<int>, now: int, t: Duration)
    ensures InBudget(configured, deadline, now, t) <==> t == HubTimeout(configured, deadline, now)
  {
  }

  // The edge gives up half a second before the hub when the hub has more than that; otherwise it
  // waits the default, which is longer than the hub does.
  lemma EdgeTimeoutBudget(hub: Duration)
    requires hub > 0
    ensures 0 <= Shipped(hub) <= hub
    ensures EdgeTimeout(Shipped(hub)) == if hub > 500_000_000 then hub - 500_000_000 else 30_000_000_000
    ensures EdgeTimeout(Shipped(hub)) < hub <==> hub > 500_000_000
  {
  }

  // What the documentation of timeout promises: the smaller of those that are set (a deadline counts
  // as set when the context has one, a configured timeout when it is positive), else the default.
  function Documented(configured: Duration, deadline: Option<int>, now: int): Duration {
    match deadline
    case None => if configured > 0 then configured else DEFAULT_TIMEOUT
    case Some(d) =>
      if configured > 0 && configured < Remaining(d, now) then configured else Remaining(d, now)
  }

  // The code departs from that exactly when there is a deadline and either it has passed or no timeout
  // is configured; except that a deadline 30 s off needs no timeout.
  lemma DocumentedExactly(configured: Duration, deadline: Option<int>, now: int)
    ensures HubTimeout(configured, deadline, now) == Documented(configured, deadline, now)
       <==> deadline.None? || deadline.value - now == DEFAULT_TIMEOUT as int
            || (deadline.value > now && configured > 0)
  {
  }
}
