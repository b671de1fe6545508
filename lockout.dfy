/**
 * The account-lockout rule of the authentication backend
 * (AuthManager.check_account_lockout in backend/auth.py): after too many
 * failed logins within a window, the account is locked until the window has
 * passed since the last failure. The database query is an input; times are
 * integer microseconds, the resolution of Python's `datetime`.
 */
module Lockout {

  /** Failed attempts from which the account locks. */
  const LockoutThreshold: int := 5

  const MicrosPerMinute: int := 60 * 1000000

  /** How long a lock lasts after the last failure: 15 minutes. */
  const LockoutWindow: int := 15 * MicrosPerMinute

  /**
   * One row of the query: the number of failed attempts for the user within
   * the last 15 minutes, and the time of the latest one (`NULL` when there
   * is none).
   */
  datatype AttemptSummary = AttemptSummary(failedCount: int, lastAttempt: LastAttempt)
  datatype LastAttempt = NoAttempt | At(time: int)

  /** What the query returns: its rows, or an exception from the database layer. */
  datatype QueryResult = Rows(rows: seq<AttemptSummary>) | QueryFailed

  /** `(is_locked, remaining_time_minutes)` */
  datatype LockStatus = LockStatus(locked: bool, minutes: int)

  /** The summary row the rule reads, if the query returned one. */
  function FirstRow(q: QueryResult): (r: AttemptSummary)
    requires q.Rows? && |q.rows| > 0
  {
    q.rows[0]
  }

  /**
   * The lock holds exactly when the query returned a row with at least five
   * failures and a last attempt less than 15 minutes before `now`.
   */
  predicate LockedAt(q: QueryResult, now: int)
  {
    && q.Rows? && |q.rows| > 0
    && FirstRow(q).failedCount >= LockoutThreshold
    && FirstRow(q).lastAttempt.At?
    && FirstRow(q).lastAttempt.time + LockoutWindow > now
  }

  /**
   * backend/auth.py, check_account_lockout: locked with the whole minutes
   * left, or `(False, 0)`; a failing query leaves the account unlocked.
   */
  function CheckAccountLockout(q: QueryResult, now: int): (r: LockStatus)
    ensures r.locked <==> LockedAt(q, now)
    ensures r.locked ==> r.minutes == (FirstRow(q).lastAttempt.time + LockoutWindow - now) / MicrosPerMinute
    ensures !r.locked ==> r.minutes == 0
  {
    match q
    case QueryFailed => LockStatus(false, 0)
    case Rows(rows) =>
      if |rows| > 0 && rows[0].failedCount >= LockoutThreshold && rows[0].lastAttempt.At? then
        var remaining := rows[0].lastAttempt.time + LockoutWindow - now;
        if remaining > 0 then LockStatus(true, remaining / MicrosPerMinute) else LockStatus(false, 0)
      else LockStatus(false, 0)
  }

  /** Fewer than five failures never lock. */
  lemma FewFailuresDoNotLock(count: int, last: LastAttempt, now: int)
    requires count < LockoutThreshold
    ensures CheckAccountLockout(Rows([AttemptSummary(count, last)]), now) == LockStatus(false, 0)
  {
  }

  /** Without a last attempt time there is no lock, however many failures are counted. */
  lemma NoLastAttemptDoesNotLock(count: int, now: int)
    ensures CheckAccountLockout(Rows([AttemptSummary(count, NoAttempt)]), now) == LockStatus(false, 0)
  {
  }

  /** An empty result or a failing query leaves the account unlocked (the rule fails open). */
  lemma NoAnswerDoesNotLock(now: int)
    ensures CheckAccountLockout(Rows([]), now) == LockStatus(false, 0)
    ensures CheckAccountLockout(QueryFailed, now) == LockStatus(false, 0)
  {
  }

  /** While locked after a past failure, the minutes reported lie between 0 and 15. */
  lemma MinutesWithinWindow(q: QueryResult, now: int)
    requires LockedAt(q, now) && FirstRow(q).lastAttempt.time <= now
    ensures 0 <= CheckAccountLockout(q, now).minutes <= 15
  {
    var remaining := FirstRow(q).lastAttempt.time + LockoutWindow - now;
    assert 0 < remaining <= LockoutWindow;
    WholeMinutesMonotonic(remaining, LockoutWindow);
  }

  /** Whole minutes are monotonic in the time left. */
  lemma WholeMinutesMonotonic(a: int, b: int)
    requires 0 <= a <= b
    ensures 0 <= a / MicrosPerMinute <= b / MicrosPerMinute
  {
  }

  /** In the last minute of a lock the account is locked yet reports 0 minutes. */
  lemma LockedWithZeroMinutes(count: int, last: int)
    requires count >= LockoutThreshold
    ensures var q := Rows([AttemptSummary(count, At(last))]);
      CheckAccountLockout(q, last + LockoutWindow - 1) == LockStatus(true, 0)
  {
  }

  /** Time only shortens a lock: a later `now` is never locked longer. */
  lemma LockOnlyShrinks(q: QueryResult, now: int, later: int)
    requires now <= later
    ensures CheckAccountLockout(q, later).locked ==> CheckAccountLockout(q, now).locked
    ensures CheckAccountLockout(q, later).minutes <= CheckAccountLockout(q, now).minutes
  {
    if LockedAt(q, later) {
      var t := FirstRow(q).lastAttempt.time + LockoutWindow;
      WholeMinutesMonotonic(t - later, t - now);
    }
  }

  /**
   * The query only counts failures from the last 15 minutes, so a row it
   * returns with five or more failures and a last attempt inside that window
   * always locks.
   */
  lemma WindowedFailuresLock(count: int, last: int, now: int)
    requires count >= LockoutThreshold && now - LockoutWindow < last
    ensures CheckAccountLockout(Rows([AttemptSummary(count, At(last))]), now).locked
  {
  }
}
