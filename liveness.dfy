/** The liveness state shared by the poll loop (the only writer) and the HTTP
    probe (the only reader): the epoch minute of the last poll attempt, an
    AtomicI64 that starts at 0. */
module Liveness {
  import opened Wrappers
  import opened Types
  import opened Decimal

  /** The probe turns unhealthy once more minutes than this have passed. */
  const StaleAfter := 5
  const StatusOk := 200
  const StatusServiceUnavailable := 503

  /** The smallest and largest minute `timestamp() / 60` can give. */
  const MinMinute := -153722867280912930
  const MaxMinute := 153722867280912930

  /** `Utc::now().timestamp() / 60`: Rust's division of an i64 truncates
      toward zero, so a negative timestamp rounds up. */
  function EpochMinute(secs: i64): (m: i64)
    ensures MinMinute <= m as int <= MaxMinute
    ensures secs >= 0 ==> 0 <= 60 * m as int <= secs as int < 60 * m as int + 60
    ensures secs < 0 ==> 60 * m as int - 60 < secs as int <= 60 * m as int <= 0
  {
    if secs >= 0 then (secs as int / 60) as i64 else (-((-(secs as int)) / 60)) as i64
  }

  /** A later clock never gives an earlier minute. */
  lemma EpochMinuteMonotone(a: i64, b: i64)
    requires a <= b
    ensures EpochMinute(a) <= EpochMinute(b)
  {
  }

  /** The status code of the probe for a given number of elapsed minutes. */
  function Health(elapsed: int): (code: int)
    ensures code == StatusOk <==> elapsed <= StaleAfter
    ensures code == StatusServiceUnavailable <==> elapsed > StaleAfter
  {
    if elapsed > StaleAfter then StatusServiceUnavailable else StatusOk
  }

  class Tracker {
    /** Epoch minute of the last poll attempt. */
    var lastUpdate: i64

    /** Every value ever stored is a minute EpochMinute can give (or the
        initial 0), so the probe's subtraction cannot overflow. */
    ghost predicate Valid()
      reads this
    {
      MinMinute <= lastUpdate as int <= MaxMinute
    }

    /** `AtomicI64::new(0)`. */
    constructor ()
      ensures Valid() && lastUpdate == 0
    {
      lastUpdate := 0;
    }

    /** `last_update.store(Utc::now().timestamp() / 60)`. */
    method Record(nowSecs: i64)
      modifies this
      ensures Valid() && lastUpdate == EpochMinute(nowSecs)
    {
      lastUpdate := EpochMinute(nowSecs);
    }

    /** The probe's reply: 503 when more than five minutes have passed since
        the last poll attempt, 200 otherwise, and the elapsed minutes in
        decimal as the body in both cases. */
    method Probe(nowSecs: i64) returns (code: int, body: string)
      requires Valid()
      ensures var elapsed := EpochMinute(nowSecs) as int - lastUpdate as int;
        && (code == StatusOk <==> elapsed <= StaleAfter)
        && (code == StatusServiceUnavailable <==> elapsed > StaleAfter)
        && body == Format(elapsed)
        && ParseInt(body) == Some(elapsed)
    {
      var last := lastUpdate;
      var nowMinutes := EpochMinute(nowSecs);
      var elapsed: i64 := nowMinutes - last;
      code := Health(elapsed as int);
      body := Format(elapsed as int);
      FormatRoundTrip(elapsed as int);
    }
  }

  /** The probe at elapsed minutes 5 and 6: the first is still healthy. */
  lemma HealthBoundary()
    ensures Health(5) == StatusOk
    ensures Health(6) == StatusServiceUnavailable
  {
  }

  /** Before the first write the tracker holds 0, so any probe more than five
      minutes past the epoch answers 503. */
  method ProbeBeforeFirstWrite(nowSecs: i64) returns (code: int, body: string)
    ensures EpochMinute(nowSecs) as int > StaleAfter ==> code == StatusServiceUnavailable
    ensures body == Format(EpochMinute(nowSecs) as int)
    ensures ParseInt(body) == Some(EpochMinute(nowSecs) as int)
  {
    var tracker := new Tracker();
    code, body := tracker.Probe(nowSecs);
  }
}
