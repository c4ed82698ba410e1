/** The press/hold/release machine of App.tsx. A press arms a 300 ms one-shot
    timer; if it fires while the pointer is still down the app enters long-press
    mode and starts a 37 ms tick that shows the elapsed time; a release clears the
    timers it holds, records a session, and in long-press mode chooses the message
    of the card that a 5000 ms timer later hides. Time is the `now` each event
    carries; the environment fires the armed timers. */
module Interaction {
  import opened Wrappers
  import opened PauseLog
  import opened Sound
  import opened Koan

  /** The one-shot delay before long-press mode, in ms. */
  const LongPressDelay: nat := 300

  /** The period of the elapsed-time tick, in ms. */
  const TickPeriod: nat := 37

  /** The phases of an interaction, as the fields encode them. */
  datatype Phase = Idle | Pressed | HoldTimed

  class PauseButton {
    const log: SessionLog
    const sound: SoundEngine

    var statsOpen: bool
    var msgVisible: bool
    var comfortMsg: Option<string>
    var showResult: bool
    var isZen: bool
    /** `isLongPressMode`. */
    var longPress: bool
    var isGenerating: bool
    var elapsed: int
    /** `isPointerDownRef`. */
    var pointerDown: bool
    /** `startTimeRef`. */
    var startTime: int
    /** The timeout `longPressTimeoutRef` holds is armed and has not fired. */
    var timeoutPending: bool
    /** The interval `timerIntervalRef` holds is running. */
    var intervalPending: bool
    /** Armed long-press timeouts that no ref holds any more. */
    var leakedTimeouts: nat
    /** Running tick intervals that no ref holds any more. */
    var leakedIntervals: nat
    /** Generation requests in flight. */
    var pendingKoans: nat
    /** Armed 5000 ms card timers. */
    var hideTimers: nat
    /** Armed 1000 ms message-clearing timers. */
    var clearTimers: nat

    ghost predicate Valid()
      reads this`longPress, this`pointerDown, this`timeoutPending, this`intervalPending,
        sound`ctx, sound`contextsCreated
    {
      sound.Valid() &&
      (longPress ==> pointerDown) &&
      (!pointerDown ==> !timeoutPending && !intervalPending)
    }

    /** Every timer still running is one a ref holds, so that a release cancels
        it, and the long-press timeout and the tick are never armed together. */
    ghost predicate NoLeaks()
      reads this`timeoutPending, this`intervalPending, this`leakedTimeouts, this`leakedIntervals
    {
      leakedTimeouts == 0 && leakedIntervals == 0 && !(timeoutPending && intervalPending)
    }

    ghost function PhaseOf(): Phase
      reads this`pointerDown, this`longPress
    {
      if !pointerDown then Idle else if longPress then HoldTimed else Pressed
    }

    constructor (log: SessionLog, sound: SoundEngine)
      requires sound.Valid()
      ensures this.log == log && this.sound == sound
      ensures Valid() && NoLeaks() && PhaseOf() == Idle
      ensures !statsOpen && !msgVisible && comfortMsg == None && !showResult && !isZen
      ensures !isGenerating && elapsed == 0 && startTime == 0
      ensures !timeoutPending && !intervalPending && leakedTimeouts == 0 && leakedIntervals == 0
      ensures pendingKoans == 0 && hideTimers == 0 && clearTimers == 0
    {
      this.log := log;
      this.sound := sound;
      statsOpen, msgVisible, comfortMsg, showResult, isZen := false, false, None, false, false;
      longPress, isGenerating, elapsed, pointerDown, startTime := false, false, 0, false, 0;
      timeoutPending, intervalPending, leakedTimeouts, leakedIntervals := false, false, 0, 0;
      pendingKoans, hideTimers, clearTimers := 0, 0, 0;
    }

    /** `handlePointerDown` at wall time `now` and audio-context time `audioTime`.
        Refused while the stats drawer or the card is open; otherwise it marks
        the pointer down, plays the press cue, records the start and arms a new
        long-press timeout. It does not refuse a press while the pointer is
        already down, and it overwrites the timeout ref without clearing the
        timeout it held. */
    method Press(now: int, audioTime: real) returns (accepted: bool, cue: Cue)
      requires Valid()
      modifies this`pointerDown, this`startTime, this`elapsed, this`showResult,
        this`timeoutPending, this`leakedTimeouts, sound`ctx, sound`contextsCreated
      ensures Valid()
      ensures accepted == (!statsOpen && !msgVisible)
      ensures pointerDown == (accepted || old(pointerDown))
      ensures startTime == (if accepted then now else old(startTime))
      ensures elapsed == (if accepted then 0 else old(elapsed))
      ensures showResult == (!accepted && old(showResult))
      ensures timeoutPending == (accepted || old(timeoutPending))
      ensures leakedTimeouts == old(leakedTimeouts) + (if accepted && old(timeoutPending) then 1 else 0)
      ensures cue == (if accepted then Dispatch(sound.soundEnabled, sound.useCustomIfAvailable, sound.samples, audioTime) else Silence)
      ensures !accepted ==> unchanged(sound`ctx, sound`contextsCreated)
      ensures old(NoLeaks()) && !old(pointerDown) ==> NoLeaks()
    {
      if statsOpen || msgVisible {
        return false, Silence;
      }
      accepted := true;
      pointerDown := true;
      cue := sound.PlayOink(audioTime);
      startTime := now;
      elapsed := 0;
      showResult := false;
      if timeoutPending {
        leakedTimeouts := leakedTimeouts + 1;
      }
      timeoutPending := true;
    }

    /** A long-press timeout fires: the one the ref holds, or when `leaked` one
        an earlier press left armed. It enters long-press mode and starts the tick
        only if the pointer is still down, overwriting the interval ref; otherwise
        nothing changes but the timeout being spent. */
    method FireLongPress(leaked: bool)
      requires Valid()
      requires if leaked then leakedTimeouts > 0 else timeoutPending
      modifies this`timeoutPending, this`leakedTimeouts, this`longPress, this`isZen,
        this`intervalPending, this`leakedIntervals
      ensures Valid()
      ensures leakedTimeouts == old(leakedTimeouts) - (if leaked then 1 else 0)
      ensures timeoutPending == (leaked && old(timeoutPending))
      ensures longPress == (pointerDown || old(longPress)) && isZen == (pointerDown || old(isZen))
      ensures intervalPending == (pointerDown || old(intervalPending))
      ensures leakedIntervals == old(leakedIntervals) + (if pointerDown && old(intervalPending) then 1 else 0)
      ensures old(NoLeaks()) ==> NoLeaks()
    {
      if leaked {
        leakedTimeouts := leakedTimeouts - 1;
      } else {
        timeoutPending := false;
      }
      if pointerDown {
        longPress := true;
        isZen := true;
        if intervalPending {
          leakedIntervals := leakedIntervals + 1;
        }
        intervalPending := true;
      }
    }

    /** A tick interval fires at `now`, the one the ref holds or a leaked one: the
        elapsed time is recomputed from the start, never accumulated from ticks. */
    method Tick(now: int)
      requires intervalPending || leakedIntervals > 0
      modifies this`elapsed
      ensures elapsed == now - startTime
    {
      elapsed := now - startTime;
    }

    /** `handlePointerUp` at `now`, the local hour `hour`, with `pick` the random
        fallback index. Ignored unless the pointer is down. Otherwise it clears the
        timers the refs hold and records a session: a tap of duration 0 outside
        long-press mode, or the held time in it. A hold of at least three whole
        seconds returns the generation request whose answer `KoanSettled` delivers;
        a shorter hold shows a fallback message at once. */
    method Release(now: int, hour: int, pick: Pick) returns (request: Option<KoanRequest>)
      requires Valid()
      modifies this`pointerDown, this`timeoutPending, this`intervalPending, this`longPress,
        this`showResult, this`isZen, this`isGenerating,
        this`pendingKoans, this`comfortMsg, this`msgVisible, this`hideTimers,
        log`history, log`storedHistory, log`storedTimestamp
      ensures Valid() && PhaseOf() == Idle && !timeoutPending && !intervalPending
      ensures unchanged(this`leakedTimeouts, this`leakedIntervals)
      ensures log.history == (if !old(pointerDown) then old(log.history) else
        Appended(old(log.history), PauseSession(now, if old(longPress) then now - old(startTime) else 0)))
      ensures old(pointerDown) ==> log.storedHistory == Some(Serialized(log.history)) && log.storedTimestamp == Some(now)
      ensures !old(pointerDown) ==> unchanged(log`storedHistory, log`storedTimestamp)
      ensures var held := old(pointerDown) && old(longPress);
        var s := WholeSeconds(now - old(startTime));
        var koan, fallback := held && s >= 3, held && s < 3;
        request == (if koan then Some(KoanRequest(s, Bucket(hour))) else None) &&
        showResult == (held || old(showResult)) &&
        isZen == (if old(pointerDown) && !old(longPress) then false else old(isZen)) &&
        isGenerating == (koan || old(isGenerating)) &&
        pendingKoans == old(pendingKoans) + (if koan then 1 else 0) &&
        comfortMsg == (if fallback then Some(Fallback(pick)) else old(comfortMsg)) &&
        msgVisible == (fallback || old(msgVisible)) &&
        hideTimers == old(hideTimers) + (if fallback then 1 else 0)
      ensures old(NoLeaks()) ==> NoLeaks()
    {
      if !pointerDown {
        return None;
      }
      if longPress {
        request := ReleaseHold(now, hour, pick);
      } else {
        ReleaseTap(now);
        request := None;
      }
    }

    /** The long-press branch of a release, after a hold of `now - startTime` ms:
        the `clearTimeout`/`clearInterval` calls cancel whatever the refs hold. */
    method ReleaseHold(now: int, hour: int, pick: Pick) returns (request: Option<KoanRequest>)
      requires Valid() && longPress
      modifies this`pointerDown, this`timeoutPending, this`intervalPending, this`longPress,
        this`showResult, this`isGenerating, this`pendingKoans, this`comfortMsg, this`msgVisible,
        this`hideTimers, log`history, log`storedHistory, log`storedTimestamp
      ensures Valid()
      ensures !pointerDown && !longPress && !timeoutPending && !intervalPending && showResult
      ensures log.history == Appended(old(log.history), PauseSession(now, now - old(startTime)))
      ensures log.storedHistory == Some(Serialized(log.history)) && log.storedTimestamp == Some(now)
      ensures var s := WholeSeconds(now - old(startTime)); var koan := s >= 3;
        request == (if koan then Some(KoanRequest(s, Bucket(hour))) else None) &&
        isGenerating == (koan || old(isGenerating)) &&
        pendingKoans == old(pendingKoans) + (if koan then 1 else 0) &&
        comfortMsg == (if koan then old(comfortMsg) else Some(Fallback(pick))) &&
        msgVisible == (!koan || old(msgVisible)) &&
        hideTimers == old(hideTimers) + (if koan then 0 else 1)
    {
      timeoutPending, intervalPending := false, false;
      var finalDuration := now - startTime;
      assert finalDuration == now - old(startTime);
      RecordHold(now, finalDuration);
      assert Valid() && !timeoutPending && !intervalPending;
      request := ChooseMessage(finalDuration, hour, pick);
    }

    /** What a long-press release records once the timers are cancelled: a
        session of `finalDuration` ms, the end of long-press mode, and the result
        styling. */
    method RecordHold(now: int, finalDuration: int)
      requires Valid() && !timeoutPending && !intervalPending
      modifies this`pointerDown, this`longPress, this`showResult,
        log`history, log`storedHistory, log`storedTimestamp
      ensures log.history == Appended(old(log.history), PauseSession(now, finalDuration))
      ensures log.storedHistory == Some(Serialized(log.history)) && log.storedTimestamp == Some(now)
      ensures Valid()
      ensures !pointerDown && !longPress && showResult
    {
      pointerDown := false;
      log.Pause(now, Some(finalDuration));
      assert DurationOrZero(Some(finalDuration)) == finalDuration;
      longPress, showResult := false, true;
    }

    /** The message of a hold of `finalDuration` ms: a generation request when it
        lasted at least three whole seconds, and otherwise the fallback at `pick`
        on a card whose timer is armed at once. */
    method ChooseMessage(finalDuration: int, hour: int, pick: Pick) returns (request: Option<KoanRequest>)
      modifies this`isGenerating, this`pendingKoans, this`comfortMsg, this`msgVisible, this`hideTimers
      ensures var koan := WholeSeconds(finalDuration) >= 3;
        request == (if koan then Some(KoanRequest(WholeSeconds(finalDuration), Bucket(hour))) else None) &&
        isGenerating == (koan || old(isGenerating)) &&
        pendingKoans == old(pendingKoans) + (if koan then 1 else 0) &&
        comfortMsg == (if koan then old(comfortMsg) else Some(Fallback(pick))) &&
        msgVisible == (!koan || old(msgVisible)) &&
        hideTimers == old(hideTimers) + (if koan then 0 else 1)
    {
      var durationSec := WholeSeconds(finalDuration);
      if durationSec >= 3 {
        isGenerating := true;
        pendingKoans := pendingKoans + 1;
        request := Some(KoanRequest(durationSec, Bucket(hour)));
      } else {
        request := None;
        comfortMsg := Some(Fallback(pick));
        msgVisible := true;
        hideTimers := hideTimers + 1;
      }
    }

    /** The tap branch of a release: the timers the refs hold are cancelled and a
        session of duration 0 is recorded. */
    method ReleaseTap(now: int)
      requires Valid() && pointerDown && !longPress
      modifies this`pointerDown, this`timeoutPending, this`intervalPending, this`isZen,
        log`history, log`storedHistory, log`storedTimestamp
      ensures Valid()
      ensures !pointerDown && !timeoutPending && !intervalPending && !isZen
      ensures log.history == Appended(old(log.history), PauseSession(now, 0))
      ensures log.storedHistory == Some(Serialized(log.history)) && log.storedTimestamp == Some(now)
    {
      timeoutPending, intervalPending := false, false;
      pointerDown := false;
      assert Valid();
      log.Pause(now, Some(0));
      assert DurationOrZero(Some(0)) == 0;
      isZen := false;
    }

    /** A generation request settles: the card shows `KoanText` and its 5000 ms
        timer is armed. */
    method KoanSettled(outcome: KoanOutcome, pick: Pick)
      requires pendingKoans > 0
      modifies this`pendingKoans, this`isGenerating, this`comfortMsg, this`msgVisible, this`hideTimers
      ensures pendingKoans == old(pendingKoans) - 1 && !isGenerating
      ensures comfortMsg == Some(KoanText(outcome, pick)) && msgVisible
      ensures hideTimers == old(hideTimers) + 1
    {
      pendingKoans := pendingKoans - 1;
      isGenerating := false;
      comfortMsg := Some(KoanText(outcome, pick));
      msgVisible := true;
      hideTimers := hideTimers + 1;
    }

    /** A 5000 ms card timer fires: the card and the hold styling go, and the text
        is cleared 1000 ms later. */
    method FireHide()
      requires hideTimers > 0
      modifies this`msgVisible, this`showResult, this`isZen, this`hideTimers, this`clearTimers
      ensures !msgVisible && !showResult && !isZen
      ensures hideTimers == old(hideTimers) - 1 && clearTimers == old(clearTimers) + 1
    {
      msgVisible, showResult, isZen := false, false, false;
      hideTimers := hideTimers - 1;
      clearTimers := clearTimers + 1;
    }

    /** A 1000 ms clearing timer fires. */
    method FireClear()
      requires clearTimers > 0
      modifies this`comfortMsg, this`clearTimers
      ensures comfortMsg == None && clearTimers == old(clearTimers) - 1
    {
      comfortMsg := None;
      clearTimers := clearTimers - 1;
    }

    /** The drawer button opens the stats drawer. */
    method OpenStats()
      modifies this`statsOpen
      ensures statsOpen
    {
      statsOpen := true;
    }

    /** The backdrop and the Close button close it. */
    method CloseStats()
      modifies this`statsOpen
      ensures !statsOpen
    {
      statsOpen := false;
    }
  }

  /** A pointer-leave followed by the pointer-up of the same tap: the leave
      records the session and the up finds the pointer released, so the log
      gains one entry, not two. */
  method LeaveThenUp(b: PauseButton, t0: int, t1: int, t2: int, hour: int, pick: Pick)
    requires b.Valid() && !b.pointerDown && !b.statsOpen && !b.msgVisible
    modifies b, b.sound, b.log
    ensures b.log.history == Appended(old(b.log.history), PauseSession(t1, 0))
    ensures b.PhaseOf() == Idle
  {
    var accepted, cue := b.Press(t0, 0.0);
    assert accepted && b.Valid() && b.pointerDown && !b.longPress;
    var r1 := b.Release(t1, hour, pick);
    assert b.Valid() && !b.pointerDown && b.log.history == Appended(old(b.log.history), PauseSession(t1, 0));
    var r2 := b.Release(t2, hour, pick);
  }

  /** A second press while the pointer is still down overwrites the timeout ref:
      the first timeout stays armed with no ref to cancel it and survives the
      release. */
  method DoublePress(b: PauseButton, t0: int, t1: int, t2: int, hour: int, pick: Pick)
    requires b.Valid() && b.NoLeaks() && !b.pointerDown && !b.statsOpen && !b.msgVisible
    modifies b, b.sound, b.log
    ensures b.leakedTimeouts == 1 && !b.timeoutPending && !b.NoLeaks() && b.PhaseOf() == Idle
  {
    var a1, c1 := b.Press(t0, 0.0);
    assert a1 && b.Valid() && b.pointerDown && b.timeoutPending && b.leakedTimeouts == 0;
    var a2, c2 := b.Press(t1, 0.0);
    assert a2 && b.Valid() && b.pointerDown && !b.longPress && b.leakedTimeouts == 1;
    var request := b.Release(t2, hour, pick);
  }

  /** The leaked timeout fires after the release: the pointer is up, so it only
      spends itself, and no long-press mode follows. */
  method StrayTimeout(b: PauseButton)
    requires b.Valid() && !b.pointerDown && b.leakedTimeouts == 1
    modifies b
    ensures b.leakedTimeouts == 0 && b.PhaseOf() == Idle && b.isZen == old(b.isZen)
  {
    b.FireLongPress(true);
  }

  /** A press at `t0` whose long-press timeout fires while the pointer is down,
      followed by the first tick: long-press mode is on, the tick shows the time
      since the press, and nothing has leaked. */
  method HoldPastDelay(b: PauseButton, t0: int)
    requires b.Valid() && b.NoLeaks() && !b.pointerDown && !b.statsOpen && !b.msgVisible
    modifies b, b.sound
    ensures b.Valid() && b.NoLeaks() && b.PhaseOf() == HoldTimed && b.isZen
    ensures b.startTime == t0 && !b.timeoutPending && b.intervalPending
    ensures b.elapsed == LongPressDelay + TickPeriod
  {
    var accepted, cue := b.Press(t0, 0.0);
    assert accepted && b.pointerDown && !b.longPress && b.startTime == t0 && b.NoLeaks();
    b.FireLongPress(false);
    b.Tick(t0 + LongPressDelay + TickPeriod);
  }

  /** A hold of 3.5 s: the timeout fires, the tick runs, and the release records
      3500 ms and asks for a koan seeded with 3 seconds. */
  method LongHold(b: PauseButton, t0: int, hour: int, pick: Pick) returns (request: Option<KoanRequest>)
    requires b.Valid() && b.NoLeaks() && !b.pointerDown && !b.statsOpen && !b.msgVisible
    modifies b, b.sound, b.log
    ensures b.log.history == Appended(old(b.log.history), PauseSession(t0 + 3500, 3500))
    ensures request == Some(KoanRequest(3, Bucket(hour))) && b.isGenerating
    ensures b.NoLeaks() && !b.timeoutPending && !b.intervalPending && b.PhaseOf() == Idle
  {
    ghost var h0 := b.log.history;
    HoldPastDelay(b, t0);
    assert b.log.history == h0;
    assert WholeSeconds(3500) == 3;
    request := b.Release(t0 + 3500, hour, pick);
    assert b.log.history == Appended(h0, PauseSession(t0 + 3500, 3500));
  }

  /** A hold of 1.2 s shows a fallback message at once; while that card is up
      `Press` refuses any new press. */
  method ShortHold(b: PauseButton, t0: int, hour: int, pick: Pick)
    requires b.Valid() && b.NoLeaks() && !b.pointerDown && !b.statsOpen && !b.msgVisible
    modifies b, b.sound, b.log
    ensures b.log.history == Appended(old(b.log.history), PauseSession(t0 + 1200, 1200))
    ensures b.msgVisible && b.comfortMsg == Some(Fallback(pick))
    ensures b.PhaseOf() == Idle
  {
    ghost var h0 := b.log.history;
    HoldPastDelay(b, t0);
    assert b.log.history == h0;
    assert WholeSeconds(1200) == 1;
    var request := b.Release(t0 + 1200, hour, pick);
  }

  /** A koan settles and its card runs its course: the card timer hides the card
      and the hold styling, and the clearing timer then empties the text. */
  method CardExpires(b: PauseButton, outcome: KoanOutcome, pick: Pick)
    requires b.pendingKoans > 0
    modifies b`pendingKoans, b`isGenerating, b`comfortMsg, b`msgVisible, b`hideTimers,
      b`showResult, b`isZen, b`clearTimers
    ensures b.comfortMsg == None && !b.msgVisible && !b.isZen && !b.showResult && !b.isGenerating
    ensures b.hideTimers == old(b.hideTimers) && b.clearTimers == old(b.clearTimers)
    ensures b.pendingKoans == old(b.pendingKoans) - 1
  {
    ghost var pending0, hide0, clear0 := b.pendingKoans, b.hideTimers, b.clearTimers;
    b.KoanSettled(outcome, pick);
    assert b.pendingKoans == pending0 - 1 && b.hideTimers == hide0 + 1 && b.clearTimers == clear0;
    b.FireHide();
    assert b.pendingKoans == pending0 - 1 && b.hideTimers == hide0 && b.clearTimers == clear0 + 1;
    b.FireClear();
  }

  /** Once the card has expired, presses are accepted again. */
  method CardLifecycle(b: PauseButton, outcome: KoanOutcome, pick: Pick, t: int)
    requires b.Valid() && b.pendingKoans > 0 && !b.statsOpen && !b.pointerDown
    modifies b, b.sound
    ensures b.comfortMsg == None && !b.msgVisible && !b.isZen
    ensures b.pointerDown && b.timeoutPending
  {
    CardExpires(b, outcome, pick);
    assert b.Valid() && !b.statsOpen && !b.msgVisible;
    var accepted, cue := b.Press(t, 0.0);
  }
}
