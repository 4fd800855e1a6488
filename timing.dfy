/** Value-level model of the tooltip visibility state machine of
    packages/lab/src/tooltip/Tooltip.tsx.

    Wall-clock time is an abstract millisecond counter `now`; every
    `window.setTimeout` becomes an optional deadline.  One `State` holds the
    fields of one tooltip instance together with the module-level pair
    (`uncontrolledOpen`, `visibleTimer`) that every instance shares.
    Callbacks (`onOpen`, `onClose`, the child's own handlers, the announcer
    timer) are recorded, in call order, in a notification log. */
module TooltipModel {

  datatype Option<T> = None | Some(value: T)

  /** Milliseconds, on top of `leaveDelay`, for which a closed tooltip keeps
      the shared "recently open" flag set. */
  const RecentlyOpenGrace: nat := 800

  /** The `KeyboardEvent.key` value that closes an open tooltip. */
  const EscapeKey: string := "Escape"

  /** The props that drive behaviour.  An absent `title` is the empty string
      (both are falsy); `hasRender` says whether a `render` callback is given;
      `tooltipId` is the id `useId` settled on. */
  datatype Config = Config(
    enterDelay: nat,
    enterNextDelay: nat,
    leaveDelay: nat,
    title: string,
    hasRender: bool,
    disableHoverListener: bool,
    disableFocusListener: bool,
    tooltipId: string)

  /** The component's defaults: `enterDelay` 100, `enterNextDelay` 0,
      `leaveDelay` 0, both listeners enabled, no render callback. */
  function DefaultConfig(title: string, tooltipId: string): Config
  {
    Config(100, 0, 0, title, false, false, false, tooltipId)
  }

  predicate HasContent(cfg: Config)
  {
    cfg.title != "" || cfg.hasRender
  }

  /** The four child events the tooltip intercepts (on the anchor and on the
      popper alike). */
  datatype Trigger = MouseEnter | MouseLeave | Focus | Blur

  /** What the state machine calls out to, in order. */
  datatype Notification =
    | Opened                    // onOpen(event)
    | Closed                    // onClose(event)
    | AnnounceScheduled(at: nat) // the announcer timer, due at `at`
    | ChildHandler(trigger: Trigger) // the child's own handler for `trigger`

  /** The module-level state shared by every tooltip: `uncontrolledOpen`
      and the deadline of the pending `visibleTimer`, if any. */
  datatype Shared = Shared(recentlyOpen: bool, expiry: Option<nat>)

  /** One tooltip instance plus the shared state it sees.  `mounted` is
      false once the component has unmounted, `openProp` is the controlled
      `open` prop (None when uncontrolled), `openState` the internal state,
      `enterTimer`/`leaveTimer` the pending deadlines. */
  datatype State = State(
    now: nat,
    mounted: bool,
    openProp: Option<bool>,
    openState: bool,
    enterTimer: Option<nat>,
    leaveTimer: Option<nat>,
    log: seq<Notification>,
    shared: Shared)

  /** A fresh instance at time `now` (both timer refs start at -1, i.e. none). */
  function Initial(now: nat, openProp: Option<bool>, shared: Shared): State
  {
    State(now, true, openProp, false, None, None, [], shared)
  }

  /** The per-instance timer invariant: at most one of the two timers is
      pending, and a pending one is not overdue. */
  predicate WellFormedTimers(now: nat, enterTimer: Option<nat>, leaveTimer: Option<nat>)
  {
    !(enterTimer.Some? && leaveTimer.Some?) &&
    (enterTimer.Some? ==> now <= enterTimer.value) &&
    (leaveTimer.Some? ==> now <= leaveTimer.value)
  }

  // ---------------------------------------------------------------------
  // Derived outputs
  // ---------------------------------------------------------------------

  /** The `open` value the component renders with: the controlled prop when
      given, the internal state otherwise, forced false without content. */
  function DisplayedOpen(cfg: Config, s: State): (r: bool)
    ensures r ==> HasContent(cfg)
    ensures s.openProp.Some? ==> (r <==> HasContent(cfg) && s.openProp.value)
    ensures s.openProp.None? ==> (r <==> HasContent(cfg) && s.openState)
  {
    var open := if s.openProp.Some? then s.openProp.value else s.openState;
    if !HasContent(cfg) then false else open
  }

  /** The attributes and the popper flag a render produces. */
  datatype View = View(
    open: bool,
    ariaOwns: Option<string>,
    ariaDescribedBy: Option<string>,
    popperOpen: bool)

  function AriaLink(open: bool, tooltipId: string): Option<string>
  {
    if open then Some(tooltipId) else None
  }

  /** `anchorMounted` says whether the child's DOM node (`childNode`) exists. */
  function Render(cfg: Config, s: State, anchorMounted: bool): (v: View)
    ensures v.open == DisplayedOpen(cfg, s)
    ensures !HasContent(cfg) ==> !v.open && !v.popperOpen && v.ariaOwns.None? && v.ariaDescribedBy.None?
    ensures v.ariaOwns == v.ariaDescribedBy
    ensures v.ariaOwns == Some(cfg.tooltipId) <==> v.open
    ensures v.ariaOwns.None? <==> !v.open
    ensures v.popperOpen <==> anchorMounted && v.open
  {
    var open := DisplayedOpen(cfg, s);
    View(open, AriaLink(open, cfg.tooltipId), AriaLink(open, cfg.tooltipId),
         if anchorMounted then open else false)
  }

  // ---------------------------------------------------------------------
  // Transitions
  // ---------------------------------------------------------------------

  /** handleOpen: hold the shared flag, open, notify. */
  function HandleOpen(s: State): (r: State)
    ensures r.shared == Shared(true, None)
    ensures r.openState && r.log == s.log + [Opened]
    ensures r.now == s.now && r.mounted == s.mounted && r.openProp == s.openProp
    ensures r.enterTimer == s.enterTimer && r.leaveTimer == s.leaveTimer
  {
    s.(shared := Shared(true, None), openState := true, log := s.log + [Opened])
  }

  /** handleClose at time `s.now`: restart the shared expiry, close, notify. */
  function HandleClose(cfg: Config, s: State): (r: State)
    ensures r.shared == Shared(s.shared.recentlyOpen, Some(s.now + RecentlyOpenGrace + cfg.leaveDelay))
    ensures !r.openState && r.log == s.log + [Closed]
    ensures r.now == s.now && r.mounted == s.mounted && r.openProp == s.openProp
    ensures r.enterTimer == s.enterTimer && r.leaveTimer == s.leaveTimer
  {
    s.(shared := s.shared.(expiry := Some(s.now + RecentlyOpenGrace + cfg.leaveDelay)),
       openState := false,
       log := s.log + [Closed])
  }

  /** handleEnter: cancel both timers, then open now or schedule the open. */
  function HandleEnter(cfg: Config, s: State): (r: State)
    ensures r.leaveTimer.None?
    ensures r.now == s.now && r.mounted == s.mounted && r.openProp == s.openProp
    // opens synchronously exactly when enterDelay is 0 and not (recently
    // open and enterNextDelay is not 0)
    ensures r.log == s.log + [Opened] <==>
            cfg.enterDelay == 0 && !(s.shared.recentlyOpen && cfg.enterNextDelay != 0)
    ensures r.log == s.log + [Opened] ==>
            r.openState && r.enterTimer.None? && r.shared == Shared(true, None)
    // otherwise exactly one open is scheduled, after enterNextDelay while
    // recently open and after enterDelay otherwise, and nothing else moves
    ensures r.log != s.log + [Opened] ==>
            r.log == s.log && r.openState == s.openState && r.shared == s.shared &&
            r.enterTimer == Some(s.now + if s.shared.recentlyOpen then cfg.enterNextDelay else cfg.enterDelay)
  {
    var cleared := s.(enterTimer := None, leaveTimer := None);
    if cfg.enterDelay != 0 || (s.shared.recentlyOpen && cfg.enterNextDelay != 0) then
      cleared.(enterTimer := Some(s.now + if s.shared.recentlyOpen then cfg.enterNextDelay else cfg.enterDelay))
    else
      HandleOpen(cleared)
  }

  /** handleLeave: cancel both timers, schedule the close. */
  function HandleLeave(cfg: Config, s: State): (r: State)
    ensures r.enterTimer.None? && r.leaveTimer == Some(s.now + cfg.leaveDelay)
    // never closes synchronously
    ensures r.openState == s.openState && r.log == s.log && r.shared == s.shared
    ensures r.now == s.now && r.mounted == s.mounted && r.openProp == s.openProp
  {
    s.(enterTimer := None, leaveTimer := Some(s.now + cfg.leaveDelay))
  }

  /** The effect registers the document keydown listener after a render
      with `open` true and its cleanup removes it, on the next render or on
      unmount: it is attached exactly while mounted and displayed open. */
  predicate ListenerAttached(cfg: Config, s: State)
  {
    s.mounted && DisplayedOpen(cfg, s)
  }

  /** A keydown on the document. */
  function OnKeyDown(cfg: Config, s: State, key: string): (r: State)
    ensures key == EscapeKey && ListenerAttached(cfg, s) ==>
            !r.openState && r.log == s.log + [Closed] &&
            r.enterTimer == s.enterTimer && r.leaveTimer == s.leaveTimer &&
            r.shared.recentlyOpen == s.shared.recentlyOpen &&
            r.shared.expiry == Some(s.now + RecentlyOpenGrace + cfg.leaveDelay) &&
            r.now == s.now && r.mounted && r.openProp == s.openProp
    ensures !(key == EscapeKey && ListenerAttached(cfg, s)) ==> r == s
  {
    if key == EscapeKey && ListenerAttached(cfg, s) then HandleClose(cfg, s) else s
  }

  /** Whether the listener for `t` is enabled. */
  predicate Listening(cfg: Config, t: Trigger)
  {
    if t.MouseEnter? || t.MouseLeave? then !cfg.disableHoverListener else !cfg.disableFocusListener
  }

  /** handleMouseEnter, handleMouseLeave, handleFocus and handleBlur: the
      enabled listener drives handleEnter or handleLeave (mouse enter also
      arms the announcer timer), then the child's own handler runs. */
  function OnTrigger(cfg: Config, s: State, t: Trigger): (r: State)
    ensures |r.log| > 0 && r.log[|r.log| - 1] == ChildHandler(t)
    ensures !Listening(cfg, t) ==> r == s.(log := s.log + [ChildHandler(t)])
    ensures Listening(cfg, t) && t == Focus ==>
            r == HandleEnter(cfg, s).(log := HandleEnter(cfg, s).log + [ChildHandler(t)])
    ensures Listening(cfg, t) && t == MouseEnter ==>
            r == HandleEnter(cfg, s).(log := HandleEnter(cfg, s).log +
                                             [AnnounceScheduled(s.now + cfg.enterDelay), ChildHandler(t)])
    ensures Listening(cfg, t) && (t == MouseLeave || t == Blur) ==>
            r == HandleLeave(cfg, s).(log := s.log + [ChildHandler(t)])
  {
    var handled :=
      if !Listening(cfg, t) then s
      else if t == MouseEnter then
        var entered := HandleEnter(cfg, s);
        entered.(log := entered.log + [AnnounceScheduled(s.now + cfg.enterDelay)])
      else if t == Focus then HandleEnter(cfg, s)
      else HandleLeave(cfg, s);
    handled.(log := handled.log + [ChildHandler(t)])
  }

  // ---------------------------------------------------------------------
  // Time
  // ---------------------------------------------------------------------

  /** A pending timer and its deadline. */
  datatype Due = ExpiryDue(at: nat) | EnterDue(at: nat) | LeaveDue(at: nat)

  predicate Pending(s: State, due: Due)
  {
    match due
    case ExpiryDue(d) => s.shared.expiry == Some(d)
    case EnterDue(d) => s.enterTimer == Some(d)
    case LeaveDue(d) => s.leaveTimer == Some(d)
  }

  function DueBy(timer: Option<nat>, t: nat): Option<nat>
  {
    if timer.Some? && timer.value <= t then timer else None
  }

  /** No timer of `s` is due at or before `t`. */
  predicate Quiet(s: State, t: nat)
  {
    DueBy(s.shared.expiry, t).None? && DueBy(s.enterTimer, t).None? && DueBy(s.leaveTimer, t).None?
  }

  /** The timer that fires next before `t` ends: the one with the earliest
      deadline, the shared expiry first on a tie. */
  function NextDue(s: State, t: nat): (r: Option<Due>)
    ensures r.None? <==> Quiet(s, t)
    ensures r.Some? ==> Pending(s, r.value) && r.value.at <= t
    ensures r.Some? ==> forall due :: Pending(s, due) ==> r.value.at <= due.at
    ensures r.Some? && s.shared.expiry == Some(r.value.at) ==> r.value.ExpiryDue?
  {
    var e := DueBy(s.shared.expiry, t);
    var n := DueBy(s.enterTimer, t);
    var l := DueBy(s.leaveTimer, t);
    if e.Some? && (n.None? || e.value <= n.value) && (l.None? || e.value <= l.value) then
      Some(ExpiryDue(e.value))
    else if n.Some? && (l.None? || n.value <= l.value) then
      Some(EnterDue(n.value))
    else if l.Some? then
      Some(LeaveDue(l.value))
    else
      None
  }

  /** Run the callback of a due timer at its deadline: the enter timer
      opens, the leave timer closes, the shared expiry only clears the
      shared flag.  Each instance timer is spent once it has fired. */
  function Fire(cfg: Config, s: State, due: Due): (r: State)
    ensures r.mounted == s.mounted && r.openProp == s.openProp
    ensures due.ExpiryDue? ==> r == s.(shared := Shared(false, None))
    ensures due.EnterDue? ==>
            r.now == due.at && r.openState && r.log == s.log + [Opened] &&
            r.enterTimer.None? && r.leaveTimer == s.leaveTimer && r.shared == Shared(true, None)
    ensures due.LeaveDue? ==>
            r.now == due.at && !r.openState && r.log == s.log + [Closed] &&
            r.enterTimer == s.enterTimer && r.leaveTimer.None? &&
            r.shared == Shared(s.shared.recentlyOpen, Some(due.at + RecentlyOpenGrace + cfg.leaveDelay))
  {
    match due
    case ExpiryDue(_) => s.(shared := Shared(false, None))
    case EnterDue(d) => HandleOpen(s.(now := d, enterTimer := None))
    case LeaveDue(d) => HandleClose(cfg, s.(now := d, leaveTimer := None))
  }

  /** Pending timers, an instance timer weighing more than the expiry it may
      start when it fires. */
  function TimerWeight(s: State): nat
  {
    (if s.enterTimer.Some? then 2 else 0) +
    (if s.leaveTimer.Some? then 2 else 0) +
    (if s.shared.expiry.Some? then 1 else 0)
  }

  /** Let time pass until `t`, firing due timers one at a time. */
  function AdvanceTo(cfg: Config, s: State, t: nat): (r: State)
    requires s.now <= t
    ensures r.now == t && Quiet(r, t)
    ensures s.log <= r.log
    ensures r.openProp == s.openProp
    decreases TimerWeight(s)
  {
    match NextDue(s, t)
    case None => s.(now := t)
    case Some(due) => AdvanceTo(cfg, Fire(cfg, s, due), t)
  }

  // ---------------------------------------------------------------------
  // Unmounting
  // ---------------------------------------------------------------------

  /** Unmounting as the component is written: the only effect cleanup
      removes the keydown listener; the enter and leave timers stay armed. */
  function UnmountAsWritten(cfg: Config, s: State): (r: State)
    ensures !ListenerAttached(cfg, r)
    ensures r.enterTimer == s.enterTimer && r.leaveTimer == s.leaveTimer
    ensures r.log == s.log && r.shared == s.shared && r.now == s.now && r.openState == s.openState
  {
    s.(mounted := false)
  }

  /** Unmounting that also cancels both instance timers. */
  function Unmount(cfg: Config, s: State): (r: State)
    ensures !ListenerAttached(cfg, r)
    ensures r.enterTimer.None? && r.leaveTimer.None?
    ensures r.log == s.log && r.shared == s.shared && r.now == s.now && r.openState == s.openState
  {
    s.(mounted := false, enterTimer := None, leaveTimer := None)
  }

  // ---------------------------------------------------------------------
  // Event sequences
  // ---------------------------------------------------------------------

  datatype Event =
    | Pointer(trigger: Trigger)      // a mouse or focus event on anchor or popper
    | KeyPress(key: string)          // a keydown on the document
    | Wait(ms: nat)                  // time passes
    | Rerender(openProp: Option<bool>) // the parent passes a new `open` prop

  function Step(cfg: Config, s: State, e: Event): State
  {
    match e
    case Pointer(t) => OnTrigger(cfg, s, t)
    case KeyPress(k) => OnKeyDown(cfg, s, k)
    case Wait(ms) => AdvanceTo(cfg, s, s.now + ms)
    case Rerender(p) => s.(openProp := p)
  }

  function Run(cfg: Config, s: State, events: seq<Event>): (r: State)
    ensures s.log <= r.log
    ensures s.now <= r.now
    decreases |events|
  {
    if events == [] then s else Run(cfg, Step(cfg, s, events[0]), events[1..])
  }
}
