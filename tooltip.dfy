/** The tooltip as the component runs it: one `SuppressionWindow` object
    standing for the module-level `uncontrolledOpen`/`visibleTimer` pair,
    shared by any number of `TooltipInstance` objects, each with its own
    enter and leave timers and open state.  Every event method is proved to
    move the instance exactly as the matching TooltipModel function does. */
module Tooltip {
  import opened TooltipModel
  import opened TooltipProperties

  /** The module-level state of Tooltip.tsx. */
  class SuppressionWindow {
    var recentlyOpen: bool     // uncontrolledOpen
    var expiry: Option<nat>    // deadline of the pending visibleTimer

    function Value(): Shared
      reads this
    {
      Shared(recentlyOpen, expiry)
    }

    /** Both start unset when the module loads. */
    constructor ()
      ensures !recentlyOpen && expiry.None?
    {
      recentlyOpen := false;
      expiry := None;
    }

    /** What handleOpen does to the shared state: cancel the expiry, set the flag. */
    method Hold()
      modifies this
      ensures recentlyOpen && expiry.None?
    {
      expiry := None;
      recentlyOpen := true;
    }

    /** What handleClose does to it: cancel the expiry and start a new one. */
    method Restart(deadline: nat)
      modifies this
      ensures recentlyOpen == old(recentlyOpen) && expiry == Some(deadline)
    {
      expiry := Some(deadline);
    }

    /** The expiry callback. */
    method Lapse()
      modifies this
      ensures !recentlyOpen && expiry.None?
    {
      recentlyOpen := false;
      expiry := None;
    }
  }

  class TooltipInstance {
    const cfg: Config
    const window: SuppressionWindow
    var now: nat
    var mounted: bool
    var openProp: Option<bool>
    var openState: bool
    var enterTimer: Option<nat>
    var leaveTimer: Option<nat>
    var log: seq<Notification>

    function Model(): State
      reads this, window
    {
      State(now, mounted, openProp, openState, enterTimer, leaveTimer, log, window.Value())
    }

    predicate Valid()
      reads this
    {
      WellFormedTimers(now, enterTimer, leaveTimer)
    }

    /** The `open` value of the current render. */
    function IsOpen(): bool
      reads this, window
    {
      DisplayedOpen(cfg, Model())
    }

    constructor (cfg: Config, window: SuppressionWindow, now: nat, openProp: Option<bool>)
      ensures this.cfg == cfg && this.window == window && Valid()
      ensures Model() == Initial(now, openProp, window.Value())
    {
      this.cfg := cfg;
      this.window := window;
      this.now := now;
      mounted := true;
      this.openProp := openProp;
      openState := false;
      enterTimer := None;
      leaveTimer := None;
      log := [];
    }

    /** handleOpen: cancels the shared expiry, sets the shared flag, opens,
        calls onOpen once, and changes nothing else. */
    method Open()
      modifies this, window
      ensures window.recentlyOpen && window.expiry.None?
      ensures openState && log == old(log) + [Opened]
      ensures now == old(now) && openProp == old(openProp)
      ensures enterTimer == old(enterTimer) && leaveTimer == old(leaveTimer)
      ensures Model() == HandleOpen(old(Model()))
    {
      window.Hold();
      openState := true;
      log := log + [Opened];
    }

    /** handleClose: closes, calls onClose once, and restarts the shared
        expiry `800 + leaveDelay` ms from now. */
    method Close()
      modifies this, window
      ensures window.recentlyOpen == old(window.recentlyOpen)
      ensures window.expiry == Some(now + RecentlyOpenGrace + cfg.leaveDelay)
      ensures !openState && log == old(log) + [Closed]
      ensures now == old(now) && openProp == old(openProp)
      ensures enterTimer == old(enterTimer) && leaveTimer == old(leaveTimer)
      ensures Model() == HandleClose(cfg, old(Model()))
    {
      window.Restart(now + RecentlyOpenGrace + cfg.leaveDelay);
      openState := false;
      log := log + [Closed];
    }

    /** handleEnter. */
    method Enter()
      requires Valid()
      modifies this, window
      ensures Valid() && Model() == HandleEnter(cfg, old(Model()))
    {
      enterTimer := None;
      leaveTimer := None;
      if cfg.enterDelay != 0 || (window.recentlyOpen && cfg.enterNextDelay != 0) {
        enterTimer := Some(now + if window.recentlyOpen then cfg.enterNextDelay else cfg.enterDelay);
      } else {
        Open();
      }
    }

    /** handleLeave. */
    method Leave()
      requires Valid()
      modifies this
      ensures Valid() && Model() == HandleLeave(cfg, old(Model()))
    {
      enterTimer := None;
      leaveTimer := Some(now + cfg.leaveDelay);
    }

    method HandleMouseEnter()
      requires Valid()
      modifies this, window
      ensures Valid() && Model() == OnTrigger(cfg, old(Model()), MouseEnter)
    {
      if !cfg.disableHoverListener {
        var announceAt := now + cfg.enterDelay;
        Enter();
        log := log + [AnnounceScheduled(announceAt)];
      }
      log := log + [ChildHandler(MouseEnter)];
    }

    method HandleMouseLeave()
      requires Valid()
      modifies this
      ensures Valid() && Model() == OnTrigger(cfg, old(Model()), MouseLeave)
    {
      if !cfg.disableHoverListener {
        Leave();
      }
      log := log + [ChildHandler(MouseLeave)];
    }

    method HandleFocus()
      requires Valid()
      modifies this, window
      ensures Valid() && Model() == OnTrigger(cfg, old(Model()), Focus)
    {
      if !cfg.disableFocusListener {
        Enter();
      }
      log := log + [ChildHandler(Focus)];
    }

    method HandleBlur()
      requires Valid()
      modifies this
      ensures Valid() && Model() == OnTrigger(cfg, old(Model()), Blur)
    {
      if !cfg.disableFocusListener {
        Leave();
      }
      log := log + [ChildHandler(Blur)];
    }

    /** A keydown on the document; the listener is attached only while
        mounted and open. */
    method KeyDown(key: string)
      requires Valid()
      modifies this, window
      ensures Valid() && Model() == OnKeyDown(cfg, old(Model()), key)
    {
      if key == EscapeKey && mounted && IsOpen() {
        Close();
      }
    }

    /** The parent re-renders with a new `open` prop. */
    method Rerender(openProp: Option<bool>)
      modifies this
      ensures Valid() == old(Valid())
      ensures Model() == old(Model()).(openProp := openProp)
    {
      this.openProp := openProp;
    }

    /** Unmount: remove the keydown listener and cancel both instance timers. */
    method Dispose()
      requires Valid()
      modifies this
      ensures Valid() && Model() == Unmount(cfg, old(Model()))
    {
      mounted := false;
      enterTimer := None;
      leaveTimer := None;
    }

    /** Let time pass until `t`, running due timers one at a time. */
    method Advance(t: nat)
      requires Valid() && now <= t
      modifies this, window
      ensures Valid() && Model() == AdvanceTo(cfg, old(Model()), t)
    {
      var due := NextDue(Model(), t);
      while due.Some?
        invariant Valid() && now <= t
        invariant due == NextDue(Model(), t)
        invariant AdvanceTo(cfg, Model(), t) == AdvanceTo(cfg, old(Model()), t)
        decreases TimerWeight(Model())
      {
        ghost var before := Model();
        match due.value {
          case ExpiryDue(_) =>
            window.Lapse();
          case EnterDue(d) =>
            enterTimer := None;
            now := d;
            Open();
          case LeaveDue(d) =>
            leaveTimer := None;
            now := d;
            Close();
        }
        assert Model() == Fire(cfg, before, due.value);
        due := NextDue(Model(), t);
      }
      now := t;
    }
  }

  /** A hover on a fresh tooltip with the default delays opens it after
      100 ms; leaving at once closes it and starts the shared window. */
  method HoverThenLeave(a: TooltipInstance)
    requires a.Valid() && a.cfg == DefaultConfig("Save", "tip")
    requires a.Model() == Initial(0, None, Shared(false, None))
    modifies a, a.window
    ensures !a.IsOpen() && a.window.recentlyOpen && a.window.expiry == Some(900)
  {
    a.HandleMouseEnter();
    assert a.enterTimer == Some(100) && !a.IsOpen();
    ghost var before := a.Model();
    a.Advance(100);
    AdvanceWithEnterPending(a.cfg, before, 100);
    assert a.IsOpen() && a.window.recentlyOpen;
    a.HandleMouseLeave();
    before := a.Model();
    a.Advance(100);
    AdvanceWithLeavePending(a.cfg, before, 100);
  }

  /** Inside the window, a hover on another tooltip schedules its open with
      enterNextDelay (0 ms), not enterDelay; its close restarts the window. */
  method HoverWithinWindow(b: TooltipInstance)
    requires b.Valid() && b.cfg == DefaultConfig("Save", "tip")
    requires b.now == 0 && b.enterTimer.None? && b.leaveTimer.None? && b.openProp.None? && !b.openState
    requires b.window.recentlyOpen && b.window.expiry == Some(900)
    modifies b, b.window
    ensures b.window.recentlyOpen && b.window.expiry == Some(1300)
  {
    ghost var before := b.Model();
    b.Advance(500);
    AdvanceWithoutInstanceTimerDue(b.cfg, before, 500);
    assert b.window.recentlyOpen;
    b.HandleMouseEnter();
    assert b.enterTimer == Some(500) && !b.openState;
    before := b.Model();
    b.Advance(500);
    AdvanceWithEnterPending(b.cfg, before, 500);
    assert b.IsOpen();
    b.HandleMouseLeave();
    before := b.Model();
    b.Advance(500);
    AdvanceWithLeavePending(b.cfg, before, 500);
  }

  /** After the window has lapsed, a hover waits the full enterDelay. */
  method HoverAfterWindow(c: TooltipInstance)
    requires c.Valid() && c.cfg == DefaultConfig("Save", "tip")
    requires c.Model() == Initial(0, None, Shared(true, Some(1300)))
    modifies c, c.window
    ensures c.IsOpen() && c.log == [AnnounceScheduled(1500), ChildHandler(MouseEnter), Opened]
    ensures c.window.recentlyOpen && c.window.expiry.None?
  {
    ghost var before := c.Model();
    c.Advance(1400);
    AdvanceWithoutInstanceTimerDue(c.cfg, before, 1400);
    assert !c.window.recentlyOpen;
    c.HandleMouseEnter();
    assert c.enterTimer == Some(1500);
    before := c.Model();
    c.Advance(1499);
    AdvanceWithEnterPending(c.cfg, before, 1499);
    assert !c.IsOpen();
    before := c.Model();
    c.Advance(1500);
    AdvanceWithEnterPending(c.cfg, before, 1500);
  }

  /** Three tooltips share one window, one after the other: the third,
      hovered after the window lapsed, ends open and holding the window. */
  method SharedWindowScenario() returns (window: SuppressionWindow, c: TooltipInstance)
    ensures c.window == window && c.IsOpen()
    ensures c.log == [AnnounceScheduled(1500), ChildHandler(MouseEnter), Opened]
    ensures window.recentlyOpen && window.expiry.None?
  {
    window := new SuppressionWindow();
    var cfg := DefaultConfig("Save", "tip");
    var a := new TooltipInstance(cfg, window, 0, None);
    var b := new TooltipInstance(cfg, window, 0, None);
    c := new TooltipInstance(cfg, window, 0, None);
    HoverThenLeave(a);
    HoverWithinWindow(b);
    HoverAfterWindow(c);
  }
}
