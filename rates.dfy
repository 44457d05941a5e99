/** Network throughput derived from the cumulative byte counters (app.py, `stats`). */
module Rates {
  import opened Outcomes

  /** One reading of the cumulative counters (`psutil.net_io_counters()`) and of the clock. */
  datatype Reading = Reading(sent: nat, recv: nat, time: real)

  datatype Direction = Up | Down

  /** The counter a direction is measured on: bytes sent for upload, bytes received for download. */
  function Counter(r: Reading, d: Direction): nat
  {
    match d
    case Up => r.sent
    case Down => r.recv
  }

  /** Python's `delta / 1024 / elapsed`; a zero `elapsed` raises, which callers rule out. */
  function KBps(delta: int, elapsed: real): (r: real)
    requires elapsed != 0.0
    ensures elapsed > 0.0 ==> (r >= 0.0 <==> delta >= 0)
    ensures elapsed < 0.0 ==> (r >= 0.0 <==> delta <= 0)
  {
    delta as real / 1024.0 / elapsed
  }

  /** The rate reported for `d` when `cur` follows `prev`. */
  function Rate(prev: Reading, cur: Reading, d: Direction): (r: real)
    requires cur.time != prev.time
    ensures r * 1024.0 * (cur.time - prev.time) == (Counter(cur, d) - Counter(prev, d)) as real
  {
    KBpsRecoversDelta(Counter(cur, d) - Counter(prev, d), cur.time - prev.time);
    KBps(Counter(cur, d) - Counter(prev, d), cur.time - prev.time)
  }

  /** The pair of rates one successful call reports. */
  datatype Rates = Rates(upload: real, download: real)

  /** Each rate, times 1024 and the elapsed time, is the bytes counted in its direction. */
  function RatesBetween(prev: Reading, cur: Reading): (r: Rates)
    requires cur.time != prev.time
    ensures r.upload * 1024.0 * (cur.time - prev.time) == (cur.sent - prev.sent) as real
    ensures r.download * 1024.0 * (cur.time - prev.time) == (cur.recv - prev.recv) as real
  {
    Rates(Rate(prev, cur, Up), Rate(prev, cur, Down))
  }

  lemma KBpsNonNegative(delta: int, elapsed: real)
    requires elapsed > 0.0 && delta >= 0
    ensures KBps(delta, elapsed) >= 0.0
  {
  }

  /** With time moving forward, a counter going down gives a negative rate: nothing is clamped. */
  lemma KBpsNegativeOnDrop(delta: int, elapsed: real)
    requires elapsed > 0.0 && delta < 0
    ensures KBps(delta, elapsed) < 0.0
  {
  }

  lemma KBpsDoubles(delta: int, elapsed: real)
    requires elapsed != 0.0
    ensures KBps(2 * delta, elapsed) == 2.0 * KBps(delta, elapsed)
  {
  }

  /** Multiplying a rate back by 1024 and the elapsed time gives the byte delta. */
  lemma KBpsRecoversDelta(delta: int, elapsed: real)
    requires elapsed != 0.0
    ensures KBps(delta, elapsed) * 1024.0 * elapsed == delta as real
  {
  }

  /** Time moving forward and counters that did not go down give non-negative rates. */
  lemma RatesNonNegative(prev: Reading, cur: Reading)
    requires cur.time > prev.time
    requires cur.sent >= prev.sent && cur.recv >= prev.recv
    ensures RatesBetween(prev, cur).upload >= 0.0 && RatesBetween(prev, cur).download >= 0.0
  {
    KBpsNonNegative(cur.sent - prev.sent, cur.time - prev.time);
    KBpsNonNegative(cur.recv - prev.recv, cur.time - prev.time);
  }

  /** 10240 bytes sent and 2048 bytes received over ten seconds are 1.0 KB/s up and 0.2 KB/s down. */
  lemma TenSecondExample()
    ensures RatesBetween(Reading(1000, 2000, 0.0), Reading(11240, 4048, 10.0)) == Rates(1.0, 0.2)
  {
  }

  // ---------------------------------------------------------------------------
  // A run of consecutive calls

  /** Every step of a run of samples has a non-zero elapsed time. */
  ghost predicate ClockMoves(h: seq<Reading>)
  {
    forall i :: 0 < i < |h| ==> h[i].time != h[i - 1].time
  }

  /** Sum over the consecutive steps of `h` of rate * 1024 * elapsed. */
  ghost function Measured(h: seq<Reading>, d: Direction): real
    requires ClockMoves(h)
    decreases |h|
  {
    if |h| <= 1 then 0.0
    else
      var prev, cur := h[|h| - 2], h[|h| - 1];
      Measured(h[..|h| - 1], d) + Rate(prev, cur, d) * 1024.0 * (cur.time - prev.time)
  }

  /** The measured bytes telescope: they add up to the last counter minus the first one. */
  lemma {:induction false} MeasuredTelescopes(h: seq<Reading>, d: Direction)
    requires |h| >= 1 && ClockMoves(h)
    ensures Measured(h, d) == (Counter(h[|h| - 1], d) - Counter(h[0], d)) as real
  {
    if |h| > 1 {
      MeasuredTelescopes(h[..|h| - 1], d);
    }
  }

  // ---------------------------------------------------------------------------
  // The carried sample: the globals `last_net` and `last_time`

  class RateSampler {
    var prevSent: nat
    var prevRecv: nat
    var prevTime: real
    /** The startup reading followed by every reading a successful call stored. */
    ghost var history: seq<Reading>

    ghost function Stored(): Reading
      reads this
    {
      Reading(prevSent, prevRecv, prevTime)
    }

    ghost predicate Valid()
      reads this
    {
      |history| >= 1 && ClockMoves(history) && history[|history| - 1] == Stored()
    }

    /** The module-level initialisation: one reading taken at process start. */
    constructor (startup: Reading)
      ensures Valid() && Stored() == startup && history == [startup]
    {
      prevSent, prevRecv, prevTime := startup.sent, startup.recv, startup.time;
      history := [startup];
    }

    /** Rates from the stored reading to the current one, then the current one is stored.
        A zero elapsed time raises before the store, leaving the state as it was. */
    method Sample(curSent: nat, curRecv: nat, now: real) returns (r: Result<Rates>)
      requires Valid()
      modifies this
      ensures Valid()
      ensures now == old(prevTime) ==> r == Raised(ZeroDivisionError) && unchanged(this)
      ensures now != old(prevTime) ==>
        && r == Ok(RatesBetween(old(Stored()), Reading(curSent, curRecv, now)))
        && Stored() == Reading(curSent, curRecv, now)
        && history == old(history) + [Stored()]
    {
      var elapsed := now - prevTime;
      if elapsed == 0.0 {
        return Raised(ZeroDivisionError);
      }
      var rates := RatesBetween(Reading(prevSent, prevRecv, prevTime), Reading(curSent, curRecv, now));
      prevSent, prevRecv := curSent, curRecv;
      prevTime := now;
      history := history + [Reading(curSent, curRecv, now)];
      r := Ok(rates);
    }

    /** Over all calls so far, the reported rates account for every byte counted since startup. */
    lemma AccountsForAllBytes(d: Direction)
      requires Valid()
      ensures Measured(history, d) == (Counter(Stored(), d) - Counter(history[0], d)) as real
    {
      MeasuredTelescopes(history, d);
    }
  }
}
