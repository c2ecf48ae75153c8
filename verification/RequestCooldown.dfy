// The request policy of the REST client (rate-limiter.ts): one global cooldown
// after an HTTP 429, and a few retries of transient failures.
module RequestCooldown {
  import opened Basics

  const DEFAULT_RATE_LIMIT_COOLDOWN_MS := 300000.0
  const MAX_TRANSIENT_RETRIES := 3
  const TRANSIENT_NETWORK_CODES := ["ETIMEDOUT", "ECONNRESET", "ECONNABORTED", "EAI_AGAIN", "ERR_NETWORK"]

  // A Retry-After header (section 10.2.3 of RFC 9110) as the client library hands
  // it over. For a text, `seconds` is what Number() makes of it when trimmed and
  // `date` what Date.parse() makes of it, where these are finite.
  datatype Header =
    | Missing
    | Numeric(value: Option<real>)
    | Text(seconds: Option<real>, date: Option<real>)
    | Other

  // `Repeated` is a header with several values.
  datatype RawHeader = Single(header: Header) | Repeated(headers: seq<Header>)

  datatype Failure =
    | CooldownError
    | Failure(status: Option<int>, isAxiosError: bool, code: Option<string>, retryAfter: RawHeader)

  datatype Admission = Admitted(resumed: bool) | Refused(retryAfterMs: real, cooldownUntil: real)

  datatype Decision =
    | RateLimited(cooldownStarted: bool, cooldownUntil: real, retryAfterMs: real)
    | Retry(retryAfterMs: real)
    | Fail

  function FirstHeader(raw: RawHeader): Header {
    match raw
    case Single(h) => h
    case Repeated(hs) => if hs == [] then Missing else hs[0]
  }

  /** The header asks for this many seconds, as a number or as a text. */
  predicate AsksSeconds(h: Header, seconds: real) {
    seconds >= 0.0 && (h == Numeric(Some(seconds)) || (h.Text? && h.seconds == Some(seconds)))
  }

  /** The header asks to wait until this later time, and for no number of seconds. */
  predicate AsksDate(h: Header, date: real, now: real) {
    h.Text? && h.date == Some(date) && date > now && (h.seconds.Some? ==> h.seconds.value < 0.0)
  }

  function ParseRetryAfterMs(raw: RawHeader, now: real): (ms: Option<real>)
    ensures ms.Some? ==> ms.value >= 0.0
    ensures forall seconds :: AsksSeconds(FirstHeader(raw), seconds) ==> ms.Some? && ms.value / 1000.0 == seconds
    ensures forall date :: AsksDate(FirstHeader(raw), date, now) ==> ms.Some? && now + ms.value == date
    ensures ms.Some? ==>
              AsksSeconds(FirstHeader(raw), ms.value / 1000.0) || AsksDate(FirstHeader(raw), now + ms.value, now)
  {
    match FirstHeader(raw)
    case Numeric(Some(v)) => if v >= 0.0 then Some(v * 1000.0) else None
    case Text(seconds, date) =>
      if seconds.Some? && seconds.value >= 0.0 then Some(seconds.value * 1000.0)
      else if date.Some? && date.value > now then Some(date.value - now)
      else None
    case _ => None
  }

  predicate IsRateLimit(f: Failure) {
    f.Failure? && f.status == Some(429)
  }

  predicate IsTransient(f: Failure) {
    && f.Failure?
    && match f.status
       case Some(status) => status == 408 || 500 <= status <= 599
       case None => f.isAxiosError && f.code.Some? && f.code.value in TRANSIENT_NETWORK_CODES
  }

  function Pow2(k: nat): nat {
    if k == 0 then 1 else 2 * Pow2(k - 1)
  }

  /** Up to a quarter of the delay, in whole milliseconds. */
  function Jitter(delay: real, random: real): real {
    (delay * 0.25 * random).Floor as real
  }

  /** The deadline that a 429 at `now` asks for. */
  function Deadline(f: Failure, now: real, defaultCooldownMs: real): real
    requires f.Failure?
  {
    match ParseRetryAfterMs(f.retryAfter, now)
    case Some(ms) => now + ms
    case None => now + defaultCooldownMs
  }

  class TwelveDataRequestPolicy {
    const defaultCooldownMs: real
    var nextAllowedRequestAt: real

    constructor (defaultCooldownMs: Option<real>)
      ensures nextAllowedRequestAt == 0.0
      ensures this.defaultCooldownMs
              == if defaultCooldownMs.Some? then defaultCooldownMs.value else DEFAULT_RATE_LIMIT_COOLDOWN_MS
    {
      this.defaultCooldownMs :=
        if defaultCooldownMs.Some? then defaultCooldownMs.value else DEFAULT_RATE_LIMIT_COOLDOWN_MS;
      nextAllowedRequestAt := 0.0;
    }

    method BeforeRequest(now: real) returns (a: Admission)
      modifies this
      ensures (nextAllowedRequestAt, a) == Admit(old(nextAllowedRequestAt), now)
    {
      if nextAllowedRequestAt > now {
        return Refused(nextAllowedRequestAt - now, nextAllowedRequestAt);
      }
      var resumed := nextAllowedRequestAt > 0.0;
      if resumed {
        nextAllowedRequestAt := 0.0;
      }
      a := Admitted(resumed);
    }

    method HandleFailure(error: Failure, retryCount: nat, now: real, random: real) returns (d: Decision)
      modifies this
      ensures (nextAllowedRequestAt, d)
           == Handle(old(nextAllowedRequestAt), error, retryCount, now, random, defaultCooldownMs)
    {
      if error.CooldownError? {
        return Fail;
      }
      if error.status == Some(429) {
        var parsed := ParseRetryAfterMs(error.retryAfter, now);
        var retryAfterMs := if parsed.Some? then parsed.value else defaultCooldownMs;
        var cooldownUntil := now + retryAfterMs;
        var cooldownStarted := nextAllowedRequestAt <= now;
        nextAllowedRequestAt := Max(nextAllowedRequestAt, cooldownUntil);
        return RateLimited(cooldownStarted, nextAllowedRequestAt, nextAllowedRequestAt - now);
      }
      if IsTransient(error) && retryCount < MAX_TRANSIENT_RETRIES {
        var baseDelayMs := 1000.0 * Pow2(retryCount) as real;
        return Retry(baseDelayMs + Jitter(baseDelayMs, random));
      }
      d := Fail;
    }
  }

  // ------------------------------------------------------------- specification

  function Admit(next: real, now: real): (real, Admission) {
    if next > now then (next, Refused(next - now, next))
    else (if next > 0.0 then 0.0 else next, Admitted(next > 0.0))
  }

  function Handle(next: real, error: Failure, retryCount: nat, now: real, random: real, defaultCooldownMs: real)
    : (real, Decision)
  {
    if IsRateLimit(error) then
      var next' := Max(next, Deadline(error, now, defaultCooldownMs));
      (next', RateLimited(next <= now, next', next' - now))
    else if IsTransient(error) && retryCount < MAX_TRANSIENT_RETRIES then
      var base := 1000.0 * Pow2(retryCount) as real;
      (next, Retry(base + Jitter(base, random)))
    else (next, Fail)
  }

  // -------------------------------------------------------------- whole traces

  datatype Event =
    | Request(now: real)
    | Failed(error: Failure, retryCount: nat, now: real, random: real)

  // The policy with how often it has reported a cooldown started and requests resumed.
  datatype Policy = Policy(next: real, starts: nat, resumes: nat)

  function After(p: Policy, e: Event, defaultCooldownMs: real): Policy {
    match e
    case Request(now) =>
      var (next, a) := Admit(p.next, now);
      Policy(next, p.starts, if a.Admitted? && a.resumed then p.resumes + 1 else p.resumes)
    case Failed(error, retryCount, now, random) =>
      var (next, d) := Handle(p.next, error, retryCount, now, random, defaultCooldownMs);
      Policy(next, if d.RateLimited? && d.cooldownStarted then p.starts + 1 else p.starts, p.resumes)
  }

  function Run(events: seq<Event>, defaultCooldownMs: real): Policy {
    if events == [] then Policy(0.0, 0, 0)
    else After(Run(events[..|events| - 1], defaultCooldownMs), events[|events| - 1], defaultCooldownMs)
  }

  /** What the i-th event, a request, is told. */
  function Answer(events: seq<Event>, i: nat, defaultCooldownMs: real): Admission
    requires i < |events| && events[i].Request?
  {
    Admit(Run(events[..i], defaultCooldownMs).next, events[i].now).1
  }

  /** The i-th event issues `deadline`. */
  predicate Issues(events: seq<Event>, i: nat, deadline: real, defaultCooldownMs: real) {
    && i < |events| && events[i].Failed? && IsRateLimit(events[i].error)
    && deadline == Deadline(events[i].error, events[i].now, defaultCooldownMs)
  }

  /** Request k came after event j and was admitted at or after `deadline`. */
  predicate Lifts(events: seq<Event>, j: nat, k: nat, deadline: real, defaultCooldownMs: real) {
    && j < k < |events| && events[k].Request? && Answer(events, k, defaultCooldownMs).Admitted?
    && events[k].now >= deadline
  }

  /** One of the first n events did. */
  ghost predicate Lifted(events: seq<Event>, j: nat, n: nat, deadline: real, defaultCooldownMs: real) {
    exists k: nat :: k < n && Lifts(events, j, k, deadline, defaultCooldownMs)
  }

  /** Whatever the clock does, an issued deadline binds until a request is admitted after it. */
  lemma {:induction false} DeadlineBinds(events: seq<Event>, defaultCooldownMs: real, j: nat, deadline: real, n: nat)
    requires j < n <= |events| && Issues(events, j, deadline, defaultCooldownMs)
    ensures Run(events[..n], defaultCooldownMs).next >= deadline
            || Lifted(events, j, n, deadline, defaultCooldownMs)
    decreases n
  {
    assert events[..n][..n - 1] == events[..n - 1];
    if j < n - 1 {
      DeadlineBinds(events, defaultCooldownMs, j, deadline, n - 1);
      var before, next := Run(events[..n - 1], defaultCooldownMs).next, Run(events[..n], defaultCooldownMs).next;
      if before >= deadline > next {
        assert Lifts(events, j, n - 1, deadline, defaultCooldownMs);
      }
    }
  }

  /**
   * A clock that never falls back below a deadline it has reached since the
   * deadline was issued. One that never goes back is such a clock.
   */
  ghost predicate ClockHolds(events: seq<Event>, defaultCooldownMs: real) {
    && (forall i :: 0 <= i < |events| ==> events[i].now >= 0.0)
    && (forall j: nat, k: nat, i: nat, deadline ::
          j < k < i < |events| && Issues(events, j, deadline, defaultCooldownMs) && Reaches(events, k, deadline)
          ==> Reaches(events, i, deadline))
  }

  predicate Reaches(events: seq<Event>, k: nat, deadline: real) {
    k < |events| && events[k].now >= deadline
  }

  lemma ForwardClockHolds(events: seq<Event>, defaultCooldownMs: real)
    requires forall i :: 0 <= i < |events| ==> events[i].now >= 0.0
    requires forall i, j :: 0 <= i < j < |events| ==> events[i].now <= events[j].now
    ensures ClockHolds(events, defaultCooldownMs)
  {
  }

  /** The policy waits for a deadline that was issued and has not been lifted, or for none. */
  lemma {:induction false} NextWasIssued(events: seq<Event>, defaultCooldownMs: real, n: nat) returns (i: nat)
    requires n <= |events|
    ensures var next := Run(events[..n], defaultCooldownMs).next;
      || next == 0.0
      || (next > 0.0 && i < n && Issues(events, i, next, defaultCooldownMs)
          && !Lifted(events, i, n, next, defaultCooldownMs))
    decreases n
  {
    i := 0;
    if n > 0 {
      assert events[..n][..n - 1] == events[..n - 1];
      i := NextWasIssued(events, defaultCooldownMs, n - 1);
      var before, next := Run(events[..n - 1], defaultCooldownMs).next, Run(events[..n], defaultCooldownMs).next;
      if next != before && events[n - 1].Failed? {
        i := n - 1;
      } else if next == before && next > 0.0 {
        StillNotLifted(events, defaultCooldownMs, i, next, n);
      }
    }
  }

  lemma StillNotLifted(events: seq<Event>, defaultCooldownMs: real, i: nat, deadline: real, n: nat)
    requires 0 < n <= |events| && !Lifted(events, i, n - 1, deadline, defaultCooldownMs)
    requires Run(events[..n - 1], defaultCooldownMs).next == Run(events[..n], defaultCooldownMs).next == deadline > 0.0
    ensures !Lifted(events, i, n, deadline, defaultCooldownMs)
  {
    assert events[..n][..n - 1] == events[..n - 1];
    assert !Lifts(events, i, n - 1, deadline, defaultCooldownMs);
  }

  // -------------------------------------------------------------- main results

  /** Every deadline issued before the i-th event has passed when that event happens, or has been lifted. */
  ghost predicate NothingPending(events: seq<Event>, i: nat, defaultCooldownMs: real)
    requires i < |events|
  {
    forall j: nat, deadline :: j < i && Issues(events, j, deadline, defaultCooldownMs) ==>
      deadline <= events[i].now || Lifted(events, j, i, deadline, defaultCooldownMs)
  }

  lemma WaitsForPending(events: seq<Event>, defaultCooldownMs: real, i: nat)
    requires i < |events| && events[i].now >= 0.0
    ensures Run(events[..i], defaultCooldownMs).next <= events[i].now <==> NothingPending(events, i, defaultCooldownMs)
  {
    var next := Run(events[..i], defaultCooldownMs).next;
    if next <= events[i].now {
      forall j: nat, deadline | j < i && Issues(events, j, deadline, defaultCooldownMs)
        ensures deadline <= events[i].now || Lifted(events, j, i, deadline, defaultCooldownMs)
      {
        DeadlineBinds(events, defaultCooldownMs, j, deadline, i);
      }
    } else {
      var j := NextWasIssued(events, defaultCooldownMs, i);
      assert Issues(events, j, next, defaultCooldownMs);
    }
  }

  /**
   * For any clock at all, a request is admitted exactly if every deadline issued
   * so far has passed or has been lifted by an earlier admission.
   */
  lemma AdmittedExactly(events: seq<Event>, defaultCooldownMs: real, i: nat)
    requires i < |events| && events[i].Request? && events[i].now >= 0.0
    ensures Answer(events, i, defaultCooldownMs).Admitted? <==> NothingPending(events, i, defaultCooldownMs)
  {
    WaitsForPending(events, defaultCooldownMs, i);
  }

  /**
   * So a request that comes before an issued deadline is admitted exactly if each
   * such deadline has been lifted, for which the clock must have been set back.
   */
  lemma AdmittedEarlyExactly(events: seq<Event>, defaultCooldownMs: real, j: nat, deadline: real, i: nat)
    requires j < i < |events| && events[i].Request? && events[i].now >= 0.0
    requires Issues(events, j, deadline, defaultCooldownMs) && events[i].now < deadline
    ensures Answer(events, i, defaultCooldownMs).Admitted? <==>
            forall j': nat, d :: j' < i && Issues(events, j', d, defaultCooldownMs) && events[i].now < d ==>
              Lifted(events, j', i, d, defaultCooldownMs)
    ensures Answer(events, i, defaultCooldownMs).Admitted? ==>
              exists k: nat :: j < k < i && events[k].now >= deadline > events[i].now
  {
    AdmittedExactly(events, defaultCooldownMs, i);
  }

  /** Every deadline issued before the i-th event has passed when that event happens. */
  ghost predicate DeadlinesPassed(events: seq<Event>, i: nat, defaultCooldownMs: real)
    requires i < |events|
  {
    forall j: nat, deadline :: j < i && Issues(events, j, deadline, defaultCooldownMs) ==> deadline <= events[i].now
  }

  /** With a clock that keeps the deadlines it has reached, no lifted deadline is ahead. */
  lemma LiftedHasPassed(events: seq<Event>, defaultCooldownMs: real, j: nat, deadline: real, i: nat)
    requires j < i < |events| && ClockHolds(events, defaultCooldownMs)
    requires Issues(events, j, deadline, defaultCooldownMs) && Lifted(events, j, i, deadline, defaultCooldownMs)
    ensures deadline <= events[i].now
  {
    var k: nat :| k < i && Lifts(events, j, k, deadline, defaultCooldownMs);
    assert Reaches(events, k, deadline);
    assert Reaches(events, i, deadline);
  }

  lemma WaitsForDeadlines(events: seq<Event>, defaultCooldownMs: real, i: nat)
    requires ClockHolds(events, defaultCooldownMs) && i < |events|
    ensures Run(events[..i], defaultCooldownMs).next <= events[i].now <==> DeadlinesPassed(events, i, defaultCooldownMs)
  {
    WaitsForPending(events, defaultCooldownMs, i);
    forall j: nat, deadline
      | j < i && Issues(events, j, deadline, defaultCooldownMs) && Lifted(events, j, i, deadline, defaultCooldownMs)
      ensures deadline <= events[i].now
    {
      LiftedHasPassed(events, defaultCooldownMs, j, deadline, i);
    }
  }

  /**
   * With a clock that keeps the deadlines it has reached, a request is admitted
   * exactly if every deadline issued so far has passed.
   */
  lemma AdmittedOnceDeadlinesPassed(events: seq<Event>, defaultCooldownMs: real, i: nat)
    requires ClockHolds(events, defaultCooldownMs) && i < |events| && events[i].Request?
    ensures Answer(events, i, defaultCooldownMs).Admitted? <==> DeadlinesPassed(events, i, defaultCooldownMs)
  {
    WaitsForDeadlines(events, defaultCooldownMs, i);
  }

  /** `until` was issued by one of the first `n` events, and none of them issued a later deadline. */
  ghost predicate LatestDeadline(events: seq<Event>, n: nat, until: real, defaultCooldownMs: real) {
    && (exists j: nat :: j < n && Issues(events, j, until, defaultCooldownMs))
    && (forall j: nat, deadline :: j < n && Issues(events, j, deadline, defaultCooldownMs) ==> deadline <= until)
  }

  /** While the policy waits, it waits for the latest deadline issued so far. */
  lemma WaitsForLatest(events: seq<Event>, defaultCooldownMs: real, i: nat)
    requires ClockHolds(events, defaultCooldownMs) && i < |events|
    requires Run(events[..i], defaultCooldownMs).next > events[i].now
    ensures LatestDeadline(events, i, Run(events[..i], defaultCooldownMs).next, defaultCooldownMs)
  {
    var next := Run(events[..i], defaultCooldownMs).next;
    var issuer := NextWasIssued(events, defaultCooldownMs, i);
    assert Issues(events, issuer, next, defaultCooldownMs);
    forall j: nat, deadline | j < i && Issues(events, j, deadline, defaultCooldownMs) ensures deadline <= next {
      DeadlineBinds(events, defaultCooldownMs, j, deadline, i);
      if Lifted(events, j, i, deadline, defaultCooldownMs) {
        LiftedHasPassed(events, defaultCooldownMs, j, deadline, i);
      }
    }
  }

  /** A refused request is told the latest deadline issued so far, and how long that is off. */
  lemma RefusalNamesLatestDeadline(events: seq<Event>, defaultCooldownMs: real, i: nat)
    requires ClockHolds(events, defaultCooldownMs) && i < |events| && events[i].Request?
    requires Answer(events, i, defaultCooldownMs).Refused?
    ensures var a := Answer(events, i, defaultCooldownMs);
      && a.cooldownUntil == events[i].now + a.retryAfterMs && a.retryAfterMs > 0.0
      && LatestDeadline(events, i, a.cooldownUntil, defaultCooldownMs)
  {
    WaitsForLatest(events, defaultCooldownMs, i);
  }

  /** What the i-th event, a failure, is answered. */
  function Verdict(events: seq<Event>, i: nat, defaultCooldownMs: real): Decision
    requires i < |events| && events[i].Failed?
  {
    var e := events[i];
    Handle(Run(events[..i], defaultCooldownMs).next, e.error, e.retryCount, e.now, e.random, defaultCooldownMs).1
  }

  /** A 429 starts a cooldown exactly if none is on, and never brings the end of one forward. */
  lemma RateLimitStartsOrExtends(events: seq<Event>, defaultCooldownMs: real, i: nat)
    requires ClockHolds(events, defaultCooldownMs) && i < |events| && events[i].Failed? && IsRateLimit(events[i].error)
    ensures var d := Verdict(events, i, defaultCooldownMs);
      && d.RateLimited?
      && (d.cooldownStarted <==> DeadlinesPassed(events, i, defaultCooldownMs))
      && (!d.cooldownStarted ==> LatestDeadline(events, i + 1, d.cooldownUntil, defaultCooldownMs))
      && d.cooldownUntil == events[i].now + d.retryAfterMs
  {
    var own := Deadline(events[i].error, events[i].now, defaultCooldownMs);
    assert Issues(events, i, own, defaultCooldownMs);
    WaitsForDeadlines(events, defaultCooldownMs, i);
    if Run(events[..i], defaultCooldownMs).next > events[i].now {
      WaitsForLatest(events, defaultCooldownMs, i);
    }
  }

  /** Requests are never reported resumed more often than cooldowns were reported started. */
  lemma {:induction false} ResumesMatchStarts(events: seq<Event>, defaultCooldownMs: real)
    requires forall i :: 0 <= i < |events| ==> events[i].now >= 0.0
    ensures var p := Run(events, defaultCooldownMs);
      p.next >= 0.0 && p.resumes + (if p.next > 0.0 then 1 else 0) <= p.starts
    decreases |events|
  {
    if events != [] {
      ResumesMatchStarts(events[..|events| - 1], defaultCooldownMs);
    }
  }

  // ------------------------------------------------------- what a 429 asks for

  /**
   * A 429 at `now` asks to wait until `until`: the number of seconds or the later
   * date that its header names, or the default cooldown if it names neither.
   */
  ghost predicate AsksUntil(f: Failure, now: real, until: real, defaultCooldownMs: real) {
    && IsRateLimit(f)
    && var h := FirstHeader(f.retryAfter);
      || AsksSeconds(h, (until - now) / 1000.0)
      || AsksDate(h, until, now)
      || (until == now + defaultCooldownMs && AsksNothing(h, now))
  }

  ghost predicate AsksNothing(h: Header, now: real) {
    (forall seconds :: !AsksSeconds(h, seconds)) && (forall date :: !AsksDate(h, date, now))
  }

  lemma DeadlineIsAsked(f: Failure, now: real, until: real, defaultCooldownMs: real)
    requires IsRateLimit(f)
    ensures AsksUntil(f, now, until, defaultCooldownMs) <==> until == Deadline(f, now, defaultCooldownMs)
  {
    var h := FirstHeader(f.retryAfter);
    var ms := ParseRetryAfterMs(f.retryAfter, now);
    if AsksSeconds(h, (until - now) / 1000.0) {
      assert ms.value / 1000.0 == (until - now) / 1000.0;
    } else if AsksDate(h, until, now) {
      assert now + ms.value == until;
    } else if ms == None {
      assert AsksNothing(h, now);
    }
  }

  /** Of a header with several values the first counts; one without any is as good as missing. */
  lemma FirstValueCounts(f: Failure, h: Header, rest: seq<Header>, now: real, defaultCooldownMs: real)
    requires IsRateLimit(f)
    ensures Deadline(f.(retryAfter := Repeated([h] + rest)), now, defaultCooldownMs)
            == Deadline(f.(retryAfter := Single(h)), now, defaultCooldownMs)
    ensures Deadline(f.(retryAfter := Repeated([])), now, defaultCooldownMs)
            == Deadline(f.(retryAfter := Single(Missing)), now, defaultCooldownMs) == now + defaultCooldownMs
  {
  }

  /** Without a header the wait is five minutes by default. */
  lemma DefaultWait()
    ensures var limited := Failure(Some(429), true, None, Single(Missing));
      Answer([Failed(limited, 0, 1000.0, 0.0), Request(1001.0)], 1, DEFAULT_RATE_LIMIT_COOLDOWN_MS)
      == Refused(299999.0, 301000.0)
  {
    var limited := Failure(Some(429), true, None, Single(Missing));
    var events := [Failed(limited, 0, 1000.0, 0.0), Request(1001.0)];
    assert events[..1] == [events[0]];
    assert [events[0]][..0] == [];
    assert Run([events[0]], DEFAULT_RATE_LIMIT_COOLDOWN_MS).next == 301000.0;
  }

  /**
   * After a 429 no request is admitted before the time that it asks for; that is
   * the end of the cooldown exactly, unless one was on that ends later.
   */
  lemma RateLimitIsHonoured(events: seq<Event>, defaultCooldownMs: real, j: nat, until: real)
    requires ClockHolds(events, defaultCooldownMs) && j < |events| && events[j].Failed?
    requires AsksUntil(events[j].error, events[j].now, until, defaultCooldownMs)
    ensures var before, d := Run(events[..j], defaultCooldownMs).next, Verdict(events, j, defaultCooldownMs);
      && d.RateLimited? && d.cooldownUntil == Run(events[..j + 1], defaultCooldownMs).next
      && d.cooldownUntil == if before > until then before else until
    ensures forall i :: j < i < |events| && events[i].Request? && events[i].now < until ==>
              && Answer(events, i, defaultCooldownMs).Refused?
              && Answer(events, i, defaultCooldownMs).cooldownUntil >= until
  {
    DeadlineIsAsked(events[j].error, events[j].now, until, defaultCooldownMs);
    assert Issues(events, j, until, defaultCooldownMs);
    assert events[..j + 1][..j] == events[..j];
    forall i | j < i < |events| && events[i].Request? && events[i].now < until
      ensures Answer(events, i, defaultCooldownMs).Refused?
              && Answer(events, i, defaultCooldownMs).cooldownUntil >= until
    {
      WaitsForDeadlines(events, defaultCooldownMs, i);
      WaitsForLatest(events, defaultCooldownMs, i);
    }
  }

  /** Event j issues a deadline, and none of the events between it and the n-th is an admitted request. */
  ghost predicate UnansweredSince(events: seq<Event>, j: nat, n: nat, defaultCooldownMs: real) {
    && j < n <= |events|
    && (exists deadline :: deadline > 0.0 && Issues(events, j, deadline, defaultCooldownMs))
    && forall k: nat :: j < k < n && events[k].Request? ==> Answer(events, k, defaultCooldownMs).Refused?
  }

  lemma StepWaits(next: real, e: Event, defaultCooldownMs: real)
    requires next >= 0.0
    ensures var next' := After(Policy(next, 0, 0), e, defaultCooldownMs).next;
      && next' >= 0.0
      && (next' > 0.0 <==>
            || (next > 0.0 && (e.Request? ==> Admit(next, e.now).1.Refused?))
            || (e.Failed? && IsRateLimit(e.error) && Deadline(e.error, e.now, defaultCooldownMs) > 0.0))
  {
  }

  /** The n-th event leaves the policy waiting: it was, and has refused that one, or is told to. */
  ghost predicate GoesOn(events: seq<Event>, n: nat, defaultCooldownMs: real)
    requires n < |events|
  {
    events[n].Request? ==> Answer(events, n, defaultCooldownMs).Refused?
  }

  ghost predicate Begins(events: seq<Event>, n: nat, defaultCooldownMs: real)
    requires n < |events|
  {
    exists deadline :: deadline > 0.0 && Issues(events, n, deadline, defaultCooldownMs)
  }

  lemma NextWaits(events: seq<Event>, defaultCooldownMs: real, n: nat)
    requires n < |events| && Run(events[..n], defaultCooldownMs).next >= 0.0
    ensures var next := Run(events[..n + 1], defaultCooldownMs).next;
      && next >= 0.0
      && (next > 0.0 <==>
            || (Run(events[..n], defaultCooldownMs).next > 0.0 && GoesOn(events, n, defaultCooldownMs))
            || Begins(events, n, defaultCooldownMs))
  {
    assert events[..n + 1][..n] == events[..n];
    StepWaits(Run(events[..n], defaultCooldownMs).next, events[n], defaultCooldownMs);
    if events[n].Failed? && IsRateLimit(events[n].error) {
      assert Issues(events, n, Deadline(events[n].error, events[n].now, defaultCooldownMs), defaultCooldownMs);
    }
  }

  lemma UnansweredMore(events: seq<Event>, j: nat, n: nat, defaultCooldownMs: real)
    requires n < |events|
    ensures UnansweredSince(events, j, n + 1, defaultCooldownMs) <==>
              || (UnansweredSince(events, j, n, defaultCooldownMs) && GoesOn(events, n, defaultCooldownMs))
              || (j == n && Begins(events, n, defaultCooldownMs))
  {
  }

  /** The first n events hold a 429 that no admitted request has followed. */
  ghost predicate Unanswered(events: seq<Event>, n: nat, defaultCooldownMs: real) {
    exists j: nat :: UnansweredSince(events, j, n, defaultCooldownMs)
  }

  lemma UnansweredStep(events: seq<Event>, n: nat, defaultCooldownMs: real)
    requires n < |events|
    ensures Unanswered(events, n + 1, defaultCooldownMs) <==>
              || (Unanswered(events, n, defaultCooldownMs) && GoesOn(events, n, defaultCooldownMs))
              || Begins(events, n, defaultCooldownMs)
  {
    var m := n + 1;
    UnansweredMore(events, n, n, defaultCooldownMs);
    if j: nat :| UnansweredSince(events, j, n, defaultCooldownMs) {
      UnansweredMore(events, j, n, defaultCooldownMs);
    }
    if j: nat :| UnansweredSince(events, j, m, defaultCooldownMs) {
      UnansweredMore(events, j, n, defaultCooldownMs);
    }
  }

  lemma {:induction false} WaitsWhileUnanswered(events: seq<Event>, defaultCooldownMs: real, n: nat)
    requires n <= |events|
    ensures Run(events[..n], defaultCooldownMs).next >= 0.0
    ensures Run(events[..n], defaultCooldownMs).next > 0.0 <==> Unanswered(events, n, defaultCooldownMs)
    decreases n
  {
    if n > 0 {
      WaitsWhileUnanswered(events, defaultCooldownMs, n - 1);
      NextWaits(events, defaultCooldownMs, n - 1);
      UnansweredStep(events, n - 1, defaultCooldownMs);
    }
  }

  /** An admitted request is reported as resumed exactly if it is the first since some 429. */
  lemma FirstAfterCooldownResumes(events: seq<Event>, defaultCooldownMs: real, i: nat)
    requires i < |events| && events[i].Request? && Answer(events, i, defaultCooldownMs).Admitted?
    ensures Answer(events, i, defaultCooldownMs).resumed <==>
              exists j: nat :: UnansweredSince(events, j, i, defaultCooldownMs)
  {
    WaitsWhileUnanswered(events, defaultCooldownMs, i);
  }

  /** A clock that is set back lets a request through before an issued deadline. */
  lemma ClockSetBackAdmitsEarly()
    ensures var limited := Failure(Some(429), true, None, Single(Numeric(Some(60.0))));
      var events := [Failed(limited, 0, 0.0, 0.0), Request(60000.0), Request(1000.0)];
      && Issues(events, 0, 60000.0, DEFAULT_RATE_LIMIT_COOLDOWN_MS)
      && Answer(events, 2, DEFAULT_RATE_LIMIT_COOLDOWN_MS).Admitted? && events[2].now < 60000.0
  {
    var limited := Failure(Some(429), true, None, Single(Numeric(Some(60.0))));
    var events := [Failed(limited, 0, 0.0, 0.0), Request(60000.0), Request(1000.0)];
    assert events[..2] == [events[0], events[1]];
    assert events[..2][..1] == [events[0]];
    assert [events[0]][..0] == [];
    assert Run([events[0]], DEFAULT_RATE_LIMIT_COOLDOWN_MS).next == 60000.0;
  }

  // ------------------------------------------------------------------- retries

  /** How often a job is attempted whose attempts fail one after the other with `failures`. */
  function Attempts(failures: seq<Failure>, retryCount: nat): nat {
    if failures == [] then 1
    else if IsTransient(failures[0]) && retryCount < MAX_TRANSIENT_RETRIES then
      1 + Attempts(failures[1..], retryCount + 1)
    else 1
  }

  /** A job is attempted at most four times, again after a transient failure and only then. */
  lemma {:induction false} AtMostFourAttempts(failures: seq<Failure>, retryCount: nat)
    requires retryCount <= MAX_TRANSIENT_RETRIES
    ensures retryCount + Attempts(failures, retryCount) <= MAX_TRANSIENT_RETRIES + 1
    ensures Attempts(failures, retryCount) <= |failures| + 1
    ensures forall i :: 0 <= i < Attempts(failures, retryCount) - 1 ==> IsTransient(failures[i])
    ensures var n := Attempts(failures, retryCount);
      n > 0 && (retryCount + n <= MAX_TRANSIENT_RETRIES && n <= |failures| ==> !IsTransient(failures[n - 1]))
    decreases |failures|
  {
    if failures != [] && IsTransient(failures[0]) && retryCount < MAX_TRANSIENT_RETRIES {
      AtMostFourAttempts(failures[1..], retryCount + 1);
      assert forall i :: 0 < i < |failures| ==> failures[i] == failures[1..][i - 1];
    }
  }

  /** Which failures are retried: two kinds of answer, and five network errors without an answer. */
  lemma RetriedFailures(next: real, error: Failure, retryCount: nat, now: real, random: real, defaultCooldownMs: real)
    ensures var d := Handle(next, error, retryCount, now, random, defaultCooldownMs).1;
      && (error == CooldownError || retryCount >= 3 ==> !d.Retry?)
      && (error.Failure? && retryCount < 3 ==>
            if error.status.Some? then d.Retry? <==> error.status.value == 408 || error.status.value / 100 == 5
            else d.Retry? <==> error.isAxiosError && error.code.Some? && IsNetworkCode(error.code.value))
  {
  }

  predicate IsNetworkCode(code: string) {
    || code == "ETIMEDOUT" || code == "ECONNRESET" || code == "ECONNABORTED" || code == "EAI_AGAIN"
    || code == "ERR_NETWORK"
  }

  /** A retry waits its exponential delay and up to a quarter more; a cooldown refusal is never retried. */
  lemma RetryDelays(next: real, error: Failure, retryCount: nat, now: real, random: real, defaultCooldownMs: real)
    requires 0.0 <= random < 1.0
    ensures var (next', d) := Handle(next, error, retryCount, now, random, defaultCooldownMs);
      && (d.Retry? <==> IsTransient(error) && retryCount < 3)
      && (d.Retry? ==>
            && (retryCount == 0 ==> 1000.0 <= d.retryAfterMs < 1250.0)
            && (retryCount == 1 ==> 2000.0 <= d.retryAfterMs < 2500.0)
            && (retryCount == 2 ==> 4000.0 <= d.retryAfterMs < 5000.0))
      && (next' != next ==> IsRateLimit(error) && next' > next)
      && (error == CooldownError ==> d == Fail)
  {
    if retryCount < 3 {
      assert Pow2(0) == 1 && Pow2(1) == 2 && Pow2(2) == 4;
      var base := 1000.0 * Pow2(retryCount) as real;
      assert 0.0 <= base * 0.25 * random < base * 0.25;
    }
  }
}
