/** The session log of hooks/usePause.ts: every completed pause is appended to a
    history that keeps only the 100 most recent sessions, the trimmed history and
    the newest timestamp are written to storage, and the statistics are derived
    from the history on demand. */
module PauseLog {
  import opened Wrappers

  /** One completed press-to-release interaction (types.ts); a duration of 0 is a tap. */
  datatype PauseSession = PauseSession(timestamp: int, duration: int)

  /** How many sessions the log keeps. */
  const HistoryLimit: nat := 100

  /** `s.slice(-n)` for a positive `n`: the last `n` elements of `s`, or all of `s`
      when it is shorter. */
  function LastN<T>(s: seq<T>, n: nat): (r: seq<T>)
    requires n > 0
    ensures |r| == Min(|s|, n)
    ensures r == s[|s| - |r|..]
  {
    if |s| <= n then s else s[|s| - n..]
  }

  /** The argument of `pause`, whose parameter defaults to 0 when it is omitted. */
  function DurationOrZero(duration: Option<int>): (r: int)
    ensures duration == Some(r) || (duration == None && r == 0)
  {
    match duration
    case None => 0
    case Some(d) => d
  }

  /** The history `pause` builds: `[...prev, session].slice(-100)`. */
  function Appended(prev: seq<PauseSession>, session: PauseSession): (r: seq<PauseSession>)
    ensures |r| == Min(|prev| + 1, HistoryLimit)
    ensures r[|r| - 1] == session
  {
    LastN(prev + [session], HistoryLimit)
  }

  /** Below 100 the old history is kept whole; at 100 exactly the oldest session
      is evicted. */
  lemma AppendedEvictsOldest(prev: seq<PauseSession>, session: PauseSession)
    ensures var r := Appended(prev, session);
      (|prev| < HistoryLimit ==> r == prev + [session]) &&
      (|prev| >= HistoryLimit ==> r == prev[|prev| - HistoryLimit + 1..] + [session])
  {
    if |prev| >= HistoryLimit {
      var next := prev + [session];
      assert next[|next| - HistoryLimit..] == prev[|prev| - HistoryLimit + 1..] + [session];
    }
  }

  /** The history after pausing once for each of `sessions`, in order. */
  function AppendAll(h: seq<PauseSession>, sessions: seq<PauseSession>): seq<PauseSession>
    decreases |sessions|
  {
    if sessions == [] then h else AppendAll(Appended(h, sessions[0]), sessions[1..])
  }

  /** Trimming what was already trimmed, after appending more, is trimming once. */
  lemma LastNAfterLastN<T>(s: seq<T>, t: seq<T>, n: nat)
    requires n > 0
    ensures LastN(LastN(s, n) + t, n) == LastN(s + t, n)
  {
    if |s| > n {
      var st := s + t;
      var u := s[|s| - n..] + t;
      assert u == st[|s| - n..];
      assert LastN(u, n) == u[|t|..];
      assert u[|t|..] == st[|st| - n..];
    }
  }

  /** Any run of pauses leaves exactly the newest 100 sessions, in chronological order:
      only the oldest are evicted. */
  lemma {:induction false} AppendAllKeepsNewest(h: seq<PauseSession>, sessions: seq<PauseSession>)
    requires |h| <= HistoryLimit
    ensures AppendAll(h, sessions) == LastN(h + sessions, HistoryLimit)
    decreases |sessions|
  {
    if sessions == [] {
      assert h + sessions == h;
    } else {
      var h', rest := Appended(h, sessions[0]), sessions[1..];
      assert h' == LastN(h + [sessions[0]], HistoryLimit);
      assert AppendAll(h, sessions) == AppendAll(h', rest);
      AppendAllKeepsNewest(h', rest);
      LastNAfterLastN(h + [sessions[0]], rest, HistoryLimit);
      assert h + [sessions[0]] + rest == h + sessions;
    }
  }

  /** Appending 105 sessions to an empty log keeps the last 100; the 5 oldest are evicted. */
  lemma HundredAndFivePauses(sessions: seq<PauseSession>)
    requires |sessions| == 105
    ensures AppendAll([], sessions) == sessions[5..]
  {
    AppendAllKeepsNewest([], sessions);
    assert [] + sessions == sessions;
  }

  /** `lastPause`: the newest session's timestamp, or null for an empty history. */
  function LastPause(h: seq<PauseSession>): (r: Option<int>)
    ensures r == None <==> h == []
    ensures r.Some? ==> r.value == h[|h| - 1].timestamp
  {
    if |h| > 0 then Some(h[|h| - 1].timestamp) else None
  }

  /** After a pause, `lastPause` is the new session's timestamp. */
  lemma LastPauseAfterPause(prev: seq<PauseSession>, session: PauseSession)
    ensures LastPause(Appended(prev, session)) == Some(session.timestamp)
  {
  }

  /** The sum of all durations, zeros included: `history.reduce((acc, s) => acc + s.duration, 0)`. */
  function TotalDuration(h: seq<PauseSession>): (r: int)
    ensures (forall i :: 0 <= i < |h| ==> h[i].duration >= 0) ==> r >= 0
    ensures (forall i :: 0 <= i < |h| ==> h[i].duration == 0) ==> r == 0
  {
    if h == [] then 0 else TotalDuration(h[..|h| - 1]) + h[|h| - 1].duration
  }

  lemma {:induction false} TotalDurationConcat(a: seq<PauseSession>, b: seq<PauseSession>)
    ensures TotalDuration(a + b) == TotalDuration(a) + TotalDuration(b)
    decreases |b|
  {
    if b == [] {
      assert a + b == a;
    } else {
      assert (a + b)[..|a + b| - 1] == a + b[..|b| - 1];
      TotalDurationConcat(a, b[..|b| - 1]);
    }
  }

  /** A tap (duration 0) leaves the total unchanged. */
  lemma TapAddsNothing(h: seq<PauseSession>, timestamp: int)
    ensures TotalDuration(h + [PauseSession(timestamp, 0)]) == TotalDuration(h)
  {
    assert (h + [PauseSession(timestamp, 0)])[..|h|] == h;
  }

  /** A pause adds its duration to the total and takes away the durations of the
      sessions it evicts. */
  lemma AppendedTotalDuration(prev: seq<PauseSession>, session: PauseSession)
    ensures var evicted := |prev| + 1 - |Appended(prev, session)|;
      0 <= evicted <= |prev| &&
      TotalDuration(Appended(prev, session)) + TotalDuration(prev[..evicted])
        == TotalDuration(prev) + session.duration
  {
    var r := Appended(prev, session);
    var evicted := |prev| + 1 - |r|;
    AppendedEvictsOldest(prev, session);
    assert prev + [session] == prev[..evicted] + r;
    TotalDurationConcat(prev[..evicted], r);
    assert TotalDuration(prev + [session]) == TotalDuration(prev) + session.duration by {
      assert (prev + [session])[..|prev|] == prev;
    }
  }

  /** How many sessions fall on the day `today`, under the calendar `dayOf`. */
  function TodayCount(h: seq<PauseSession>, today: int, dayOf: int -> int): (r: nat)
    ensures r <= |h|
  {
    if h == [] then 0
    else TodayCount(h[..|h| - 1], today, dayOf) + (if dayOf(h[|h| - 1].timestamp) == today then 1 else 0)
  }

  /** The positions of the sessions that fall on `today`. */
  ghost function TodayIndices(h: seq<PauseSession>, today: int, dayOf: int -> int): set<int>
  {
    set i | 0 <= i < |h| && dayOf(h[i].timestamp) == today
  }

  /** `todayCount` counts exactly the sessions whose day is `today`. */
  lemma {:induction false} TodayCountIsExact(h: seq<PauseSession>, today: int, dayOf: int -> int)
    ensures TodayCount(h, today, dayOf) == |TodayIndices(h, today, dayOf)|
    decreases |h|
  {
    if h != [] {
      var n := |h| - 1;
      var init := h[..n];
      TodayCountIsExact(init, today, dayOf);
      var rest := TodayIndices(init, today, dayOf);
      if dayOf(h[n].timestamp) == today {
        assert TodayIndices(h, today, dayOf) == rest + {n};
        assert n !in rest;
      } else {
        assert TodayIndices(h, today, dayOf) == rest;
      }
    }
  }

  /** The counters of the stats drawer. */
  datatype Stats = Stats(totalCount: nat, totalDuration: int, todayCount: nat)

  /** `stats`, where today is the calendar day of `now`. The source memoises
      `stats` on the history, so `now` is the time the history last changed, not
      the time the drawer is read: past midnight the drawer keeps the previous
      day's count until the next pause. */
  function StatsOf(h: seq<PauseSession>, now: int, dayOf: int -> int): (r: Stats)
    ensures r.totalCount == |h|
    ensures r.todayCount <= r.totalCount
    ensures r.totalDuration == TotalDuration(h)
    ensures r.todayCount == TodayCount(h, dayOf(now), dayOf)
  {
    Stats(|h|, TotalDuration(h), TodayCount(h, dayOf(now), dayOf))
  }

  /** The text stored under 'pause_history', abstracted: the JSON serialisation of a
      session list, or any text `JSON.parse` rejects (the empty string included). */
  datatype StoredHistory = Serialized(sessions: seq<PauseSession>) | Unparsable

  /** The history the log starts with: the stored list, or empty when nothing is
      stored or it does not parse. */
  function InitialHistory(stored: Option<StoredHistory>): (r: seq<PauseSession>)
    ensures stored.None? || stored == Some(Unparsable) ==> r == []
    ensures forall h :: stored == Some(Serialized(h)) ==> r == h
  {
    match stored
    case Some(Serialized(h)) => h
    case _ => []
  }

  /** The log of one app session, with the two storage cells it writes. */
  class SessionLog {
    var history: seq<PauseSession>
    /** The storage cell 'pause_history'. */
    var storedHistory: Option<StoredHistory>
    /** The storage cell 'pause_timestamp'. */
    var storedTimestamp: Option<int>

    /** Starts from what storage holds. */
    constructor (storedHistory: Option<StoredHistory>, storedTimestamp: Option<int>)
      ensures history == InitialHistory(storedHistory)
      ensures this.storedHistory == storedHistory && this.storedTimestamp == storedTimestamp
    {
      history := InitialHistory(storedHistory);
      this.storedHistory := storedHistory;
      this.storedTimestamp := storedTimestamp;
    }

    /** `pause(duration)` at time `now`: appends, trims to 100 and persists both the
        trimmed history and the new timestamp. */
    method Pause(now: int, duration: Option<int>)
      modifies this`history, this`storedHistory, this`storedTimestamp
      ensures history == Appended(old(history), PauseSession(now, DurationOrZero(duration)))
      ensures |history| <= HistoryLimit
      ensures storedHistory == Some(Serialized(history)) && storedTimestamp == Some(now)
      ensures InitialHistory(storedHistory) == history
    {
      var session := PauseSession(now, DurationOrZero(duration));
      var trimmed := Appended(history, session);
      storedHistory := Some(Serialized(trimmed));
      storedTimestamp := Some(session.timestamp);
      history := trimmed;
    }
  }
}
