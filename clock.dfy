/**
  The cached time of day.  The firmware keeps the last clock reading in six
  integer globals; a reading comes from the C library as a `struct tm`, whose
  month counts from 0 and whose year counts from 1900.
 */
module Clock {
  import opened Wrappers

  /** The six cached globals: year, month (1-12), day, hour, minute, second. */
  datatype Stamp = Stamp(year: int, month: int, day: int, hour: int, minute: int, second: int)

  /** A broken-down time as the C library fills it in. */
  datatype Tm = Tm(sec: int, min: int, hour: int, mday: int, mon: int, yearsSince1900: int)

  /** The conversion the firmware applies when it copies a reading into its cache. */
  function FromTm(t: Tm): Stamp {
    Stamp(t.yearsSince1900 + 1900, t.mon + 1, t.mday, t.hour, t.min, t.sec)
  }

  /** The broken-down time a cached stamp was copied from. */
  function ToTm(s: Stamp): Tm {
    Tm(s.second, s.minute, s.hour, s.day, s.month - 1, s.year - 1900)
  }

  /**
    One call of the time-cache update: a failed read (`None`) leaves the cache
    as it was, a successful one replaces every field.
   */
  function Refresh(cache: Stamp, read: Option<Tm>): (r: Stamp)
    ensures read.None? ==> r == cache
    ensures read.Some? ==> ToTm(r) == read.value
    ensures read.Some? ==> r.month == read.value.mon + 1 && r.year == read.value.yearsSince1900 + 1900
  {
    match read
    case None => cache
    case Some(t) => FromTm(t)
  }

  /** The cache after a run of consecutive update calls. */
  function RefreshAll(cache: Stamp, answers: seq<Option<Tm>>): Stamp
    decreases |answers|
  {
    if answers == [] then cache
    else Refresh(RefreshAll(cache, answers[..|answers| - 1]), answers[|answers| - 1])
  }

  /** Whether the first `n` answers of the clock leave a cached year other than zero. */
  predicate Synced(cache: Stamp, answers: seq<Option<Tm>>, n: nat)
    requires n <= |answers|
  {
    RefreshAll(cache, answers[..n]).year != 0
  }

  /** Converting a cached stamp back and forth loses nothing, in both directions. */
  lemma TmRoundTrip(t: Tm, s: Stamp)
    ensures ToTm(FromTm(t)) == t
    ensures FromTm(ToTm(s)) == s
  {
  }

  /** Updating twice with the same reading is the same as updating once. */
  lemma RefreshIdempotent(cache: Stamp, read: Option<Tm>)
    ensures Refresh(Refresh(cache, read), read) == Refresh(cache, read)
  {
  }

  /** The cache holds the last successful reading, or its old value when every read failed. */
  lemma {:induction false} RefreshAllKeepsLast(cache: Stamp, answers: seq<Option<Tm>>, k: nat)
    requires k <= |answers|
    requires forall i :: k <= i < |answers| ==> answers[i].None?
    ensures RefreshAll(cache, answers) == RefreshAll(cache, answers[..k])
    decreases |answers|
  {
    if |answers| > k {
      var prefix := answers[..|answers| - 1];
      assert prefix[..k] == answers[..k];
      RefreshAllKeepsLast(cache, prefix, k);
    } else {
      assert answers[..k] == answers;
    }
  }

  /** The cache after a run whose last successful read is at index `k - 1`. */
  lemma LastGoodReading(cache: Stamp, answers: seq<Option<Tm>>, k: nat)
    requires 1 <= k <= |answers| && answers[k - 1].Some?
    requires forall i :: k <= i < |answers| ==> answers[i].None?
    ensures RefreshAll(cache, answers) == FromTm(answers[k - 1].value)
  {
    RefreshAllKeepsLast(cache, answers, k);
    assert answers[..k][k - 1] == answers[k - 1];
  }

  /** A clock that never answers leaves the cache untouched. */
  lemma ClockNeverAnswers(cache: Stamp, answers: seq<Option<Tm>>)
    requires forall i :: 0 <= i < |answers| ==> answers[i].None?
    ensures RefreshAll(cache, answers) == cache
  {
    RefreshAllKeepsLast(cache, answers, 0);
  }
}
