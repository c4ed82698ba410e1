/** The history list of the stats drawer in App.tsx: the five newest sessions,
    newest first, each labelled "Tap" or with its duration, or a placeholder when
    the history is empty. */
module HistoryView {
  import opened Wrappers
  import opened PauseLog

  /** How many sessions the drawer lists. */
  const RecentLimit: nat := 5

  /** The right-hand cell of a row: "Tap", or the held duration in ms. */
  datatype DurationLabel = Tap | Held(ms: int)

  datatype HistoryRow = HistoryRow(timestamp: int, shown: DurationLabel)

  /** The drawer's history section: "A blank canvas..." or the rows. */
  datatype HistoryPanel = BlankCanvas | Rows(rows: seq<HistoryRow>)

  /** A duration that is not positive reads as a tap, zeros and negatives alike. */
  function Label(duration: int): (r: DurationLabel)
    ensures r == Tap <==> !(duration > 0)
    ensures r.Held? ==> r.ms == duration && r.ms > 0
  {
    if duration > 0 then Held(duration) else Tap
  }

  /** A history row: the session's time, and its duration or "Tap". */
  function RowOf(s: PauseSession): (r: HistoryRow)
    ensures r.timestamp == s.timestamp
    ensures r.shown == Tap <==> s.duration <= 0
    ensures r.shown.Held? ==> r.shown.ms == s.duration
  {
    HistoryRow(s.timestamp, Label(s.duration))
  }

  /** `[...s].reverse()`. */
  function Reversed<T>(s: seq<T>): (r: seq<T>)
    ensures |r| == |s|
    ensures forall i :: 0 <= i < |s| ==> r[i] == s[|s| - 1 - i]
  {
    if s == [] then [] else [s[|s| - 1]] + Reversed(s[..|s| - 1])
  }

  /** `[...h].reverse().slice(0, 5)`: at most five sessions, newest first. */
  function Recent(h: seq<PauseSession>): (r: seq<PauseSession>)
    ensures |r| == Min(|h|, RecentLimit)
    ensures forall i :: 0 <= i < |r| ==> r[i] == h[|h| - 1 - i]
  {
    Reversed(h)[..Min(|h|, RecentLimit)]
  }

  /** The history section for `h`. */
  function Panel(h: seq<PauseSession>): (r: HistoryPanel)
    ensures r == BlankCanvas <==> h == []
    ensures r.Rows? ==> |r.rows| == Min(|h|, RecentLimit)
    ensures r.Rows? ==> forall i :: 0 <= i < |r.rows| ==> r.rows[i] == RowOf(h[|h| - 1 - i])
  {
    if |h| == 0 then BlankCanvas
    else
      var recent := Recent(h);
      Rows(seq(|recent|, i requires 0 <= i < |recent| => RowOf(recent[i])))
  }

  /** Right after a pause the list opens with that session, and the rest are the
      sessions that opened it before, shifted down by one. */
  lemma {:induction false} RecentAfterPause(prev: seq<PauseSession>, session: PauseSession)
    ensures var r := Recent(Appended(prev, session));
      |r| >= 1 && r[0] == session &&
      r[1..] == Recent(prev)[..|r| - 1]
  {
    var h := Appended(prev, session);
    AppendedEvictsOldest(prev, session);
    var r := Recent(h);
    var old5 := Recent(prev);
    assert |r| - 1 <= |old5|;
    forall k | 0 <= k < |r| - 1
      ensures r[1..][k] == old5[k]
    {
      assert r[k + 1] == h[|h| - 2 - k];
      assert h[|h| - 2 - k] == prev[|prev| - 1 - k];
    }
  }
}
