# Tooltip visibility state machine

A Dafny model of the behaviour behind the `Tooltip` component of the lab
package (`packages/lab/src/tooltip/Tooltip.tsx`). It covers when a tooltip
opens and closes, not how it is drawn.

- Each tooltip instance keeps an enter timer, a leave timer and an open
  state.
- All instances share a module-level "recently open" flag
  (`uncontrolledOpen`) and that flag's expiry timer (`visibleTimer`).
- While the flag is set, a new hover uses `enterNextDelay` instead of
  `enterDelay`.
- A close restarts the flag's expiry, `800 + leaveDelay` ms later.
- Escape closes an open tooltip.
- A tooltip with no `title` and no `render` is never shown open.

Time is an abstract millisecond counter. Each `window.setTimeout` is an
optional deadline. Each callback the component makes is appended to a
notification log:

- `onOpen` becomes `Opened`;
- `onClose` becomes `Closed`;
- the announcer timer becomes `AnnounceScheduled(at)`;
- the child element's own handlers become `ChildHandler(trigger)`.

An absent optional callback behaves like a no-op callback, so every call is
logged.

The project has three files:

- `timing.dfy` (module `TooltipModel`): the state as a value and every
  transition as a function. Time passes through `AdvanceTo`, which fires due
  timers one at a time, earliest deadline first.
- `timing_lemmas.dfy` (module `TooltipProperties`): what those transitions
  guarantee, over single calls and over whole event sequences.
- `tooltip.dfy` (module `Tooltip`): the component as it runs. There is a
  `SuppressionWindow` object for the shared module-level state, and any
  number of `TooltipInstance` objects referring to it. Each event method
  is proved to change the instance (and the shared window) exactly as the
  matching `TooltipModel` function says. Three scenario methods replay one
  hover sequence across three tooltips that share a window.

Six behaviours of the code may look unintended. The model follows
the code in all six:

- When the window is active, `enterNextDelay` is 0 and `enterDelay` is
  not 0, a hover does not open the tooltip at once. It schedules a 0 ms
  timer, so the open still happens asynchronously (`HandleEnter`,
  `HoverWithinWindow`).
- Escape does not cancel a pending leave timer. If a leave is pending when
  Escape closes the tooltip, the leave timer later calls `onClose` a second
  time (`EscapeKeepsPendingLeave`).
- Escape does not cancel a pending enter timer either. The tooltip closes,
  then reopens and calls `onOpen` when the enter deadline passes
  (`EscapeKeepsPendingEnter`).
- Without a title or render callback the tooltip is never shown, but a
  hover or focus still calls `onOpen` and sets the shared flag; only the
  rendered `open` is forced false (`OpenWithoutContent`,
  `FocusWithoutContentStillOpens`).
- A close does not set the shared flag; only an open does. Another
  tooltip's expiry can clear the flag while this tooltip is still open
  (`ExpiryClearsFlagWhileOpen`). When this tooltip then closes, no window
  opens, and the next hover waits the full `enterDelay`
  (`EnterDelayAfterClose`).
- Nothing clears the instance timers when the component unmounts. See
  "Findings" below.

## Model

| member | source | states |
|---|---|---|
| `TooltipModel.DisplayedOpen` | packages/lab/src/tooltip/Tooltip.tsx:243-245 | the rendered `open` is the controlled prop when given, else the internal state; without a title or render callback it is false whatever the state |
| `TooltipModel.Render` | packages/lab/src/tooltip/Tooltip.tsx:337-346 | `aria-owns` and `aria-describedby` are equal, and equal the tooltip id exactly when the rendered `open` is true (otherwise absent); the popper is open exactly when the anchor node exists and `open` is true; with no content every output is closed |
| `TooltipModel.HandleOpen` | packages/lab/src/tooltip/Tooltip.tsx:180-187 | cancels the shared expiry and sets the shared flag, opens and calls onOpen once; the clock, the mounted flag, the controlled prop and both instance timers are unchanged |
| `TooltipModel.HandleClose` | packages/lab/src/tooltip/Tooltip.tsx:189-200 | closes and calls onClose once; replaces the shared expiry with one `800 + leaveDelay` ms from now and leaves the shared flag as it was; the clock, the controlled prop and both instance timers are unchanged |
| `TooltipModel.HandleEnter` | packages/lab/src/tooltip/Tooltip.tsx:202-215 | clears both timers; opens synchronously (onOpen once, shared flag held) exactly when `enterDelay` is 0 and not (recently open and `enterNextDelay` ≠ 0); otherwise it changes nothing but one open scheduled after `enterNextDelay` if recently open, else after `enterDelay` |
| `TooltipModel.HandleLeave` | packages/lab/src/tooltip/Tooltip.tsx:217-223 | clears the enter timer and schedules the close `leaveDelay` later; it never closes, calls back or touches the shared state itself |
| `TooltipModel.OnKeyDown` | packages/lab/src/tooltip/Tooltip.tsx:225-241 | the listener is attached exactly while the tooltip is mounted and displayed open; Escape then closes at once, calls onClose once and restarts the shared expiry, leaving the timers, the shared flag, the clock and the controlled prop alone; any other key, or any key while closed or unmounted, changes nothing |
| `TooltipModel.OnTrigger` | packages/lab/src/tooltip/Tooltip.tsx:286-320 | hover events drive enter/leave only without `disableHoverListener`, focus events only without `disableFocusListener`; mouse enter also arms the announcer `enterDelay` later; the child's own handler always runs, last |
| `TooltipModel.NextDue` | packages/lab/src/tooltip/Tooltip.tsx:192-222 | the next timer to fire is a pending one with the earliest deadline at or before the given time, the shared expiry first on a tie; none exactly when nothing is due |
| `TooltipModel.Fire` | packages/lab/src/tooltip/Tooltip.tsx:192-222 | a due enter timer opens at its deadline (onOpen once, shared flag held, no expiry) and is spent; a due leave timer closes at its deadline (onClose once, expiry restarted `800 + leaveDelay` later, flag kept) and is spent; the shared expiry only clears the flag; the other instance timer, the controlled prop and the mounted flag never change |
| `TooltipModel.AdvanceTo` | packages/lab/src/tooltip/Tooltip.tsx:192-222 | after time passes to `t`, the clock reads `t`, no timer is due any more, the notification log has only grown and the controlled prop is unchanged |
| `TooltipModel.UnmountAsWritten` | packages/lab/src/tooltip/Tooltip.tsx:164-165 | unmounting as written removes the keydown listener but leaves both instance timers armed; the log, the shared state and the open state are unchanged |
| `TooltipModel.Unmount` | packages/lab/src/tooltip/Tooltip.tsx:164-165 | unmounting with cleanup removes the keydown listener and cancels both instance timers; the log, the shared state and the open state are unchanged |
| `TooltipModel.Run` | packages/lab/src/tooltip/Tooltip.tsx:202-241 | over any event sequence the notification log only grows and the clock never goes back |
| `TooltipProperties.AdvanceWithoutInstanceTimerDue` | packages/lab/src/tooltip/Tooltip.tsx:192-194 | when no instance timer is due, passing time only moves the clock and lets the shared expiry lapse |
| `TooltipProperties.AdvanceWithLeavePending` | packages/lab/src/tooltip/Tooltip.tsx:217-223 | with only a leave pending, the tooltip closes and onClose runs once exactly when the leave deadline is reached; before that nothing observable changes |
| `TooltipProperties.AdvanceWithEnterPending` | packages/lab/src/tooltip/Tooltip.tsx:205-211 | with only an enter pending, the tooltip opens, holds the shared flag and onOpen runs once exactly when the enter deadline is reached; before that nothing observable changes |
| `TooltipProperties.AdvancePreservesTimers` | packages/lab/src/tooltip/Tooltip.tsx:202-223 | passing time keeps at most one instance timer pending and none overdue |
| `TooltipProperties.StepPreservesTimers` | packages/lab/src/tooltip/Tooltip.tsx:202-223 | every single event keeps at most one instance timer pending and none overdue |
| `TooltipProperties.RunPreservesTimers` | packages/lab/src/tooltip/Tooltip.tsx:202-223 | after any event sequence at most one of the enter and leave timers is pending, and none is overdue |
| `TooltipProperties.LeaveClosesOnlyAfterDelay` | packages/lab/src/tooltip/Tooltip.tsx:217-223 | a leave followed only by waiting closes (onClose once) exactly when `leaveDelay` has passed, and before that the open state and log are unchanged |
| `TooltipProperties.LeaveCancelsPendingEnter` | packages/lab/src/tooltip/Tooltip.tsx:202-223 | a leave before a deferred enter fires means onOpen is never called and the tooltip does not become open, however long one waits |
| `TooltipProperties.RecentlyOpenLapsesAfterClose` | packages/lab/src/tooltip/Tooltip.tsx:189-200 | after a close with no later open, the shared flag keeps its value for `800 + leaveDelay` ms and is false from then on |
| `TooltipProperties.OpenHoldsRecentlyOpen` | packages/lab/src/tooltip/Tooltip.tsx:180-187 | an open cancels the shared expiry, so with no later close the flag stays set forever |
| `TooltipProperties.EnterDelayAfterClose` | packages/lab/src/tooltip/Tooltip.tsx:189-215 | an enter within `800 + leaveDelay` ms of a close is scheduled after `enterNextDelay` when the shared flag was still set at the close; a later enter, or any enter after a close with the flag already cleared, is scheduled after `enterDelay` (no timer when the chosen rule opens at once) |
| `TooltipProperties.ExpiryClearsFlagWhileOpen` | packages/lab/src/tooltip/Tooltip.tsx:192-194 | another tooltip's expiry falling due clears the shared flag while this tooltip stays open, with no callback |
| `TooltipProperties.EnterExpiryTieCommutes` | packages/lab/src/tooltip/Tooltip.tsx:180-194 | when the shared expiry and the enter timer fall due together, firing the expiry first ends in the same state as firing only the enter timer, whose open cancels the expiry |
| `TooltipProperties.EscapeKeepsPendingLeave` | packages/lab/src/tooltip/Tooltip.tsx:225-241 | Escape closes an open tooltip with one onClose, and a leave timer pending at the time still fires and calls onClose again |
| `TooltipProperties.EscapeKeepsPendingEnter` | packages/lab/src/tooltip/Tooltip.tsx:225-241 | Escape closes an open tooltip with one onClose, and an enter timer pending at the time still fires: the tooltip reopens, onOpen runs and the shared flag is held |
| `TooltipProperties.OpenWithoutContent` | packages/lab/src/tooltip/Tooltip.tsx:180-187 | without a title or render callback an open still calls onOpen and sets the shared flag, while the rendered `open` and the popper stay closed |
| `TooltipProperties.FocusWithoutContentStillOpens` | packages/lab/src/tooltip/Tooltip.tsx:308-313 | without content, a focus with no enter delay logs onOpen and the child's handler and holds the shared flag, yet the tooltip is not displayed |
| `TooltipProperties.UnmountAsWrittenStillOpens` | packages/lab/src/tooltip/Tooltip.tsx:164-165 | as written, unmounting while an open is deferred still calls onOpen once the deadline passes |
| `TooltipProperties.UnmountAsWrittenExample` | packages/lab/src/tooltip/Tooltip.tsx:154-165 | with the default delays, a hover at 0 and an unmount at 50 still lead to onOpen at 100 |
| `TooltipProperties.UnmountIgnoresKeys` | packages/lab/src/tooltip/Tooltip.tsx:238-240 | once unmounted, with or without the timer cleanup, Escape and every other key leave the tooltip unchanged |
| `TooltipProperties.UnmountSilencesTimers` | packages/lab/src/tooltip/Tooltip.tsx:164-165 | once both timers are cancelled on unmount, no callback runs again and the tooltip never opens |
| `Tooltip.SuppressionWindow.constructor` | packages/lab/src/tooltip/Tooltip.tsx:132-133 | the shared flag starts unset, with no expiry pending |
| `Tooltip.SuppressionWindow.Hold` | packages/lab/src/tooltip/Tooltip.tsx:181-182 | cancels the pending expiry and sets the shared flag |
| `Tooltip.SuppressionWindow.Restart` | packages/lab/src/tooltip/Tooltip.tsx:191-194 | replaces any pending expiry with one at the given deadline; the flag is unchanged |
| `Tooltip.SuppressionWindow.Lapse` | packages/lab/src/tooltip/Tooltip.tsx:192-194 | the expiry callback clears the flag |
| `Tooltip.TooltipInstance.constructor` | packages/lab/src/tooltip/Tooltip.tsx:162-176 | a new instance is closed, with no timer pending and an empty log |
| `Tooltip.TooltipInstance.Open` | packages/lab/src/tooltip/Tooltip.tsx:180-187 | cancels the shared expiry, sets the shared flag, opens and calls onOpen once, and changes nothing else |
| `Tooltip.TooltipInstance.Close` | packages/lab/src/tooltip/Tooltip.tsx:189-200 | closes, calls onClose once and restarts the shared expiry `800 + leaveDelay` ms from now, and changes nothing else |
| `Tooltip.TooltipInstance.Enter` | packages/lab/src/tooltip/Tooltip.tsx:202-215 | moves the instance and shared window exactly as `HandleEnter`, keeping the timer invariant |
| `Tooltip.TooltipInstance.Leave` | packages/lab/src/tooltip/Tooltip.tsx:217-223 | moves the instance exactly as `HandleLeave`, keeping the timer invariant |
| `Tooltip.TooltipInstance.HandleMouseEnter` | packages/lab/src/tooltip/Tooltip.tsx:286-299 | moves the instance exactly as `OnTrigger` for a mouse enter |
| `Tooltip.TooltipInstance.HandleMouseLeave` | packages/lab/src/tooltip/Tooltip.tsx:301-306 | moves the instance exactly as `OnTrigger` for a mouse leave |
| `Tooltip.TooltipInstance.HandleFocus` | packages/lab/src/tooltip/Tooltip.tsx:308-313 | moves the instance exactly as `OnTrigger` for a focus |
| `Tooltip.TooltipInstance.HandleBlur` | packages/lab/src/tooltip/Tooltip.tsx:315-320 | moves the instance exactly as `OnTrigger` for a blur |
| `Tooltip.TooltipInstance.KeyDown` | packages/lab/src/tooltip/Tooltip.tsx:225-241 | moves the instance exactly as `OnKeyDown`, so a disposed tooltip ignores Escape |
| `Tooltip.TooltipInstance.Rerender` | packages/lab/src/tooltip/Tooltip.tsx:171-176 | a new controlled `open` prop replaces the old one and nothing else changes |
| `Tooltip.TooltipInstance.Dispose` | packages/lab/src/tooltip/Tooltip.tsx:164-165 | unmounting removes the keydown listener and cancels both instance timers, as `Unmount` |
| `Tooltip.TooltipInstance.Advance` | packages/lab/src/tooltip/Tooltip.tsx:192-222 | firing due timers one at a time moves the instance and shared window exactly as `AdvanceTo`, keeping the timer invariant |
| `Tooltip.HoverThenLeave` | packages/lab/src/tooltip/Tooltip.tsx:202-223 | with default delays, a hover opens after 100 ms and an immediate leave closes and starts the shared window, due at 900 |
| `Tooltip.HoverWithinWindow` | packages/lab/src/tooltip/Tooltip.tsx:205-211 | inside the window, another tooltip's hover schedules its open after `enterNextDelay` (0 ms); its close restarts the window |
| `Tooltip.HoverAfterWindow` | packages/lab/src/tooltip/Tooltip.tsx:205-211 | after the window lapses, a hover waits the full `enterDelay` of 100 ms before onOpen, and the open holds the window again |
| `Tooltip.SharedWindowScenario` | packages/lab/src/tooltip/Tooltip.tsx:180-223 | three fresh tooltips on one new window, hovered in turn as above: the third ends open, its log is the announcer, its child handler and one onOpen, and it holds the window with no expiry pending |

## Findings

| source | as written | input that shows it | evidently intended | confidence | as-written member | corrected member |
|---|---|---|---|---|---|---|
| packages/lab/src/tooltip/Tooltip.tsx:164-165 | no effect cleanup clears `enterTimer` or `leaveTimer` when the component unmounts | default delays; the pointer enters at 0 and the tooltip unmounts at 50; `onOpen` is still called at 100 | unmounting cancels both pending timers, so no callback reaches a disposed tooltip | medium, not executed | `TooltipProperties.UnmountAsWrittenStillOpens` | `TooltipProperties.UnmountSilencesTimers` |

`TooltipModel.UnmountAsWritten` and `TooltipProperties.UnmountAsWrittenExample`
also describe the code as written. `TooltipModel.Unmount` is the corrected
definition, and `Tooltip.TooltipInstance.Dispose` uses it.

## Left out

- Rendering is not modelled: `cloneElement`, `getIcon`, `getTitleProps`, class names and CSS (lines 247-269, 333-405). They are presentation only.
- The floating-ui middleware and the arrow style update are not modelled (lines 322-332, 352-368). They are calls into a positioning library over DOM measurements.
- The announcer is modelled only as the `AnnounceScheduled(at)` entry, logged when a hover is handled. Reading the DOM text at `at`, and skipping the announcement when that text is empty, are not modelled.
- `useControlled`, `useId` and `useForkRef` are not part of this model. Controlled mode is "the `open` prop overrides the rendered state". The internal flag keeps being updated while controlled. The tooltip id is a configuration value. The anchor node is the `anchorMounted` argument of `Render`.
- There is no global event loop. Each instance has its own clock. A caller is expected to deliver events and clock advances to the instances in global time order; the model does not interleave timers of different instances by itself.
- When the shared expiry and an instance timer fall due at the same time, the expiry fires first. At a tie with a leave timer this is the browser's order whenever all tooltips use the same `leaveDelay`, because the expiry was then scheduled earlier; with different `leaveDelay` values the real order may differ. At a tie with an enter timer the browser may fire the enter timer first, but the resulting state is the same either way (`EnterExpiryTieCommutes`).
- Only the `open` prop can change after an instance is created (`Rerender`). A re-render with new delays, title or listener flags is not modelled.
- Delays are natural numbers of milliseconds. Negative, fractional or non-numeric delays are not modelled, and neither is browser timer clamping.
- Event objects are not modelled. The log records which callback ran, not the event it was given.
- React's commit timing is not modelled. The Escape listener is taken to be attached exactly while the tooltip is mounted and rendered open; the short gap between a state change and the effect that re-registers the listener is ignored.
- `interactive` is never read by the component. It stays in `rest` and is spread onto the tooltip element (lines 158, 379). With the default `PopperProps`, the popper receives the same hover and focus handlers as the anchor (lines 348-351), so hovering the tooltip itself cancels a pending leave, whatever `interactive` says. The model follows the code: a `Trigger` on the popper is handled exactly like one on the anchor.
- `placement`, `hideArrow`, `hideIcon` and `state` are not modelled. They only affect presentation or are forwarded to the popper.
- TooltipModel.Render: takes `PopperComponent` and `PopperProps` at their defaults, the stock `Popper` and `{}` (lines 138-139). `PopperProps` is spread last (line 369), so a caller can override the popper's `open` (line 346) and its four handlers (lines 348-351); the model does not cover that.
- Pointer and focus events after unmount are not modelled. React does not deliver them, and `OnTrigger` does not check `mounted`.
- The combo box, form-field context, icon and story files are not part of this model. They hold no tooltip behaviour.
