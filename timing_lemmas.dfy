/** Properties of the tooltip visibility state machine: the timer invariant
    over every event sequence, what a leave does and does not do, the shared
    "recently open" window, and what unmounting leaves behind. */
module TooltipProperties {
  import opened TooltipModel

  // ---------------------------------------------------------------------
  // Advancing time when few timers are pending
  // ---------------------------------------------------------------------

  /** The shared state after time `t`, with no open in between. */
  function LapseBy(sh: Shared, t: nat): Shared
  {
    if sh.expiry.Some? && sh.expiry.value <= t then Shared(false, None) else sh
  }

  /** When neither instance timer is due, advancing only moves the clock and
      lets the shared expiry lapse. */
  lemma {:induction false} AdvanceWithoutInstanceTimerDue(cfg: Config, s: State, t: nat)
    requires s.now <= t
    requires DueBy(s.enterTimer, t).None? && DueBy(s.leaveTimer, t).None?
    ensures AdvanceTo(cfg, s, t) == s.(now := t, shared := LapseBy(s.shared, t))
    decreases TimerWeight(s)
  {
    match NextDue(s, t)
    case None =>
    case Some(due) =>
      AdvanceWithoutInstanceTimerDue(cfg, Fire(cfg, s, due), t);
  }

  /** With only the leave timer (and perhaps the shared expiry) pending, the
      close happens exactly when the leave deadline is reached. */
  lemma {:induction false} AdvanceWithLeavePending(cfg: Config, s: State, t: nat)
    requires s.now <= t && s.enterTimer.None? && s.leaveTimer.Some?
    ensures var r := AdvanceTo(cfg, s, t);
      if s.leaveTimer.value <= t then
        r.log == s.log + [Closed] && !r.openState && r.enterTimer.None? && r.leaveTimer.None?
      else
        r.log == s.log && r.openState == s.openState && r.enterTimer.None? && r.leaveTimer == s.leaveTimer
    decreases TimerWeight(s)
  {
    match NextDue(s, t)
    case None =>
    case Some(due) =>
      var next := Fire(cfg, s, due);
      if due.ExpiryDue? {
        AdvanceWithLeavePending(cfg, next, t);
      } else {
        AdvanceWithoutInstanceTimerDue(cfg, next, t);
      }
  }

  /** With only the enter timer (and perhaps the shared expiry) pending, the
      open happens exactly when the enter deadline is reached. */
  lemma {:induction false} AdvanceWithEnterPending(cfg: Config, s: State, t: nat)
    requires s.now <= t && s.leaveTimer.None? && s.enterTimer.Some?
    ensures var r := AdvanceTo(cfg, s, t);
      if s.enterTimer.value <= t then
        r.log == s.log + [Opened] && r.openState && r.shared == Shared(true, None) &&
        r.enterTimer.None? && r.leaveTimer.None?
      else
        r.log == s.log && r.openState == s.openState && r.enterTimer == s.enterTimer && r.leaveTimer.None?
    decreases TimerWeight(s)
  {
    match NextDue(s, t)
    case None =>
    case Some(due) =>
      var next := Fire(cfg, s, due);
      if due.ExpiryDue? {
        AdvanceWithEnterPending(cfg, next, t);
      } else {
        AdvanceWithoutInstanceTimerDue(cfg, next, t);
      }
  }

  // ---------------------------------------------------------------------
  // The timer invariant
  // ---------------------------------------------------------------------

  lemma {:induction false} AdvancePreservesTimers(cfg: Config, s: State, t: nat)
    requires s.now <= t && WellFormedTimers(s.now, s.enterTimer, s.leaveTimer)
    ensures var r := AdvanceTo(cfg, s, t); WellFormedTimers(r.now, r.enterTimer, r.leaveTimer)
    decreases TimerWeight(s)
  {
    match NextDue(s, t)
    case None =>
    case Some(due) =>
      AdvancePreservesTimers(cfg, Fire(cfg, s, due), t);
  }

  lemma StepPreservesTimers(cfg: Config, s: State, e: Event)
    requires WellFormedTimers(s.now, s.enterTimer, s.leaveTimer)
    ensures var r := Step(cfg, s, e); WellFormedTimers(r.now, r.enterTimer, r.leaveTimer)
  {
    if e.Wait? {
      AdvancePreservesTimers(cfg, s, s.now + e.ms);
    }
  }

  /** At most one of the enter and leave timers is pending, whatever the
      events. */
  lemma {:induction false} RunPreservesTimers(cfg: Config, s: State, events: seq<Event>)
    requires WellFormedTimers(s.now, s.enterTimer, s.leaveTimer)
    ensures var r := Run(cfg, s, events); WellFormedTimers(r.now, r.enterTimer, r.leaveTimer)
    decreases |events|
  {
    if events != [] {
      StepPreservesTimers(cfg, s, events[0]);
      RunPreservesTimers(cfg, Step(cfg, s, events[0]), events[1..]);
    }
  }

  // ---------------------------------------------------------------------
  // Leave
  // ---------------------------------------------------------------------

  /** A leave followed only by waiting closes when, and only when, its timer
      reaches `leaveDelay`, and calls onClose once. */
  lemma LeaveClosesOnlyAfterDelay(cfg: Config, s: State, t: nat)
    requires s.now <= t
    ensures var r := AdvanceTo(cfg, HandleLeave(cfg, s), t);
      (t < s.now + cfg.leaveDelay ==> r.log == s.log && r.openState == s.openState) &&
      (s.now + cfg.leaveDelay <= t ==> r.log == s.log + [Closed] && !r.openState)
  {
    AdvanceWithLeavePending(cfg, HandleLeave(cfg, s), t);
  }

  /** A leave that comes before a deferred enter fires cancels the open:
      onOpen is never called and the tooltip does not open. */
  lemma LeaveCancelsPendingEnter(cfg: Config, s: State, t1: nat, t2: nat)
    requires s.now <= t1 <= t2
    requires HandleEnter(cfg, s).enterTimer.Some?
    requires t1 < HandleEnter(cfg, s).enterTimer.value
    ensures var entered := AdvanceTo(cfg, HandleEnter(cfg, s), t1);
            var r := AdvanceTo(cfg, HandleLeave(cfg, entered), t2);
            (r.log == s.log || r.log == s.log + [Closed]) && (r.openState ==> s.openState)
  {
    var entered := AdvanceTo(cfg, HandleEnter(cfg, s), t1);
    AdvanceWithEnterPending(cfg, HandleEnter(cfg, s), t1);
    LeaveClosesOnlyAfterDelay(cfg, entered, t2);
  }

  // ---------------------------------------------------------------------
  // The shared "recently open" window
  // ---------------------------------------------------------------------

  /** After a close with no instance timer pending, the shared flag stays as
      it was for `800 + leaveDelay` ms and is false from then on. */
  lemma RecentlyOpenLapsesAfterClose(cfg: Config, s: State, t: nat)
    requires s.now <= t && s.enterTimer.None? && s.leaveTimer.None?
    ensures AdvanceTo(cfg, HandleClose(cfg, s), t).shared.recentlyOpen <==>
            s.shared.recentlyOpen && t < s.now + RecentlyOpenGrace + cfg.leaveDelay
  {
    AdvanceWithoutInstanceTimerDue(cfg, HandleClose(cfg, s), t);
  }

  /** An open cancels the shared expiry: with no close after it, the flag
      stays set however long time passes. */
  lemma OpenHoldsRecentlyOpen(s: State, cfg: Config, t: nat)
    requires s.now <= t && s.enterTimer.None? && s.leaveTimer.None?
    ensures AdvanceTo(cfg, HandleOpen(s), t).shared == Shared(true, None)
  {
    AdvanceWithoutInstanceTimerDue(cfg, HandleOpen(s), t);
  }

  /** An enter within `800 + leaveDelay` ms of a close uses enterNextDelay,
      but only when the shared flag was still set at the close: a close never
      sets the flag itself.  A later enter, or one after a close with the flag
      already cleared, uses enterDelay. */
  lemma EnterDelayAfterClose(cfg: Config, s: State, t: nat)
    requires s.now <= t && s.enterTimer.None? && s.leaveTimer.None?
    ensures var r := HandleEnter(cfg, AdvanceTo(cfg, HandleClose(cfg, s), t));
      (s.shared.recentlyOpen && t < s.now + RecentlyOpenGrace + cfg.leaveDelay ==>
         r.enterTimer == if cfg.enterDelay == 0 && cfg.enterNextDelay == 0 then None
                         else Some(t + cfg.enterNextDelay)) &&
      (!s.shared.recentlyOpen || s.now + RecentlyOpenGrace + cfg.leaveDelay <= t ==>
         r.enterTimer == if cfg.enterDelay == 0 then None else Some(t + cfg.enterDelay))
  {
    RecentlyOpenLapsesAfterClose(cfg, s, t);
  }

  /** Another tooltip's expiry can clear the shared flag while this one is
      open; the open tooltip keeps showing and the flag stays clear. */
  lemma ExpiryClearsFlagWhileOpen(cfg: Config, s: State, t: nat)
    requires s.now <= t && s.enterTimer.None? && s.leaveTimer.None? && s.openState
    requires s.shared.expiry.Some? && s.shared.expiry.value <= t
    ensures var r := AdvanceTo(cfg, s, t);
            r.openState && r.log == s.log && r.shared == Shared(false, None)
  {
    AdvanceWithoutInstanceTimerDue(cfg, s, t);
  }

  // ---------------------------------------------------------------------
  // Ties
  // ---------------------------------------------------------------------

  /** When the shared expiry and the enter timer fall due together, firing
      the expiry first (as the model does) ends in the same state as firing
      only the enter timer, whose handleOpen cancels the expiry. */
  lemma EnterExpiryTieCommutes(cfg: Config, s: State, d: nat)
    requires s.shared.expiry == Some(d) && s.enterTimer == Some(d)
    ensures Fire(cfg, Fire(cfg, s, ExpiryDue(d)), EnterDue(d)) == Fire(cfg, s, EnterDue(d))
  {
  }

  // ---------------------------------------------------------------------
  // Escape
  // ---------------------------------------------------------------------

  /** Escape closes an open tooltip at once; a pending leave timer still
      fires later and calls onClose a second time. */
  lemma EscapeKeepsPendingLeave(cfg: Config, s: State, t: nat)
    requires ListenerAttached(cfg, s) && s.enterTimer.None? && s.leaveTimer.Some?
    requires s.now <= s.leaveTimer.value <= t
    ensures OnKeyDown(cfg, s, EscapeKey).log == s.log + [Closed]
    ensures AdvanceTo(cfg, OnKeyDown(cfg, s, EscapeKey), t).log == s.log + [Closed, Closed]
  {
    AdvanceWithLeavePending(cfg, OnKeyDown(cfg, s, EscapeKey), t);
  }

  /** Escape does not cancel a deferred open either: the tooltip closes at
      once and reopens, calling onOpen, when the enter deadline passes. */
  lemma EscapeKeepsPendingEnter(cfg: Config, s: State, t: nat)
    requires ListenerAttached(cfg, s) && s.leaveTimer.None? && s.enterTimer.Some?
    requires s.now <= s.enterTimer.value <= t
    ensures var r := AdvanceTo(cfg, OnKeyDown(cfg, s, EscapeKey), t);
            r.log == s.log + [Closed, Opened] && r.openState && r.shared == Shared(true, None)
  {
    AdvanceWithEnterPending(cfg, OnKeyDown(cfg, s, EscapeKey), t);
  }

  // ---------------------------------------------------------------------
  // No content
  // ---------------------------------------------------------------------

  /** handleOpen never looks at the content: without a title or render
      callback an open still calls onOpen and holds the shared flag, while
      the rendered tooltip stays closed. */
  lemma OpenWithoutContent(cfg: Config, s: State)
    requires !HasContent(cfg)
    ensures var r := HandleOpen(s);
            r.log == s.log + [Opened] && r.shared.recentlyOpen && !DisplayedOpen(cfg, r) &&
            !Render(cfg, r, true).popperOpen
  {
  }

  /** The same through a focus with no enter delay: the tooltip is never
      shown, yet onOpen runs. */
  lemma FocusWithoutContentStillOpens(cfg: Config, s: State)
    requires !HasContent(cfg) && !cfg.disableFocusListener && cfg.enterDelay == 0
    requires !(s.shared.recentlyOpen && cfg.enterNextDelay != 0)
    ensures var r := OnTrigger(cfg, s, Focus);
            r.log == s.log + [Opened, ChildHandler(Focus)] && r.shared == Shared(true, None) &&
            !DisplayedOpen(cfg, r)
  {
    assert HandleEnter(cfg, s).log == s.log + [Opened];
  }

  // ---------------------------------------------------------------------
  // Unmounting
  // ---------------------------------------------------------------------

  /** As written, unmounting while an open is deferred still calls onOpen
      once its deadline passes. */
  lemma UnmountAsWrittenStillOpens(cfg: Config, s: State, t: nat)
    requires s.leaveTimer.None? && s.enterTimer.Some?
    requires s.now <= s.enterTimer.value <= t
    ensures AdvanceTo(cfg, UnmountAsWritten(cfg, s), t).log == s.log + [Opened]
  {
    AdvanceWithEnterPending(cfg, UnmountAsWritten(cfg, s), t);
  }

  /** The concrete case: default delays, pointer enters at 0, the component
      unmounts at 50, onOpen runs at 100. */
  lemma UnmountAsWrittenExample()
    ensures var cfg := DefaultConfig("Save", "tip-1");
            var entered := OnTrigger(cfg, Initial(0, None, Shared(false, None)), MouseEnter);
            var unmounted := UnmountAsWritten(cfg, AdvanceTo(cfg, entered, 50));
            Opened in AdvanceTo(cfg, unmounted, 100).log
  {
    var cfg := DefaultConfig("Save", "tip-1");
    var entered := OnTrigger(cfg, Initial(0, None, Shared(false, None)), MouseEnter);
    AdvanceWithEnterPending(cfg, entered, 50);
    var unmounted := UnmountAsWritten(cfg, AdvanceTo(cfg, entered, 50));
    AdvanceWithEnterPending(cfg, unmounted, 100);
    assert AdvanceTo(cfg, unmounted, 100).log[|unmounted.log|] == Opened;
  }

  /** Unmounting removes the keydown listener, whichever version: Escape on
      an unmounted tooltip changes nothing. */
  lemma UnmountIgnoresKeys(cfg: Config, s: State, key: string)
    ensures OnKeyDown(cfg, UnmountAsWritten(cfg, s), key) == UnmountAsWritten(cfg, s)
    ensures OnKeyDown(cfg, Unmount(cfg, s), key) == Unmount(cfg, s)
  {
  }

  /** With both timers cancelled on unmount, no callback ever runs again. */
  lemma UnmountSilencesTimers(cfg: Config, s: State, t: nat)
    requires s.now <= t
    ensures AdvanceTo(cfg, Unmount(cfg, s), t).log == s.log
    ensures !AdvanceTo(cfg, Unmount(cfg, s), t).openState || s.openState
  {
    AdvanceWithoutInstanceTimerDue(cfg, Unmount(cfg, s), t);
  }
}
