/** The input-activity monitor (mirulog/activity.py). The UTC clock is read by the caller and
    passed in as an instant in microseconds; the mouse and keyboard listeners are reduced to
    whether each is present. */
module Activity {

  class InputActivityMonitor {
    /** `_idle_threshold`, in microseconds. */
    const idleThreshold: int
    /** `_last_activity`: the instant of the last mouse or keyboard event. */
    var lastActivity: int
    /** Whether `_mouse_listener` / `_keyboard_listener` is set. */
    var mouseListener: bool
    var keyboardListener: bool

    /** A new monitor: the last activity is the moment of construction, and no listener runs. */
    constructor (threshold: int, now: int)
      ensures idleThreshold == threshold && lastActivity == now
      ensures !mouseListener && !keyboardListener
    {
      idleThreshold := threshold;
      lastActivity := now;
      mouseListener := false;
      keyboardListener := false;
    }

    /** `start`: a monitor with either listener set is left as it is; otherwise both are created. */
    method Start()
      modifies this
      ensures old(mouseListener || keyboardListener) ==>
                mouseListener == old(mouseListener) && keyboardListener == old(keyboardListener)
      ensures !old(mouseListener || keyboardListener) ==> mouseListener && keyboardListener
      ensures lastActivity == old(lastActivity)
    {
      if mouseListener || keyboardListener {
        return;
      }
      mouseListener := true;
      keyboardListener := true;
    }

    /** `stop`: both listeners are stopped and cleared. */
    method Stop()
      modifies this
      ensures !mouseListener && !keyboardListener
      ensures lastActivity == old(lastActivity)
    {
      if mouseListener {
        mouseListener := false;
      }
      if keyboardListener {
        keyboardListener := false;
      }
    }

    /** `_update_activity`: the last activity becomes the current instant. */
    method UpdateActivity(now: int)
      modifies this
      ensures lastActivity == now
      ensures mouseListener == old(mouseListener) && keyboardListener == old(keyboardListener)
    {
      lastActivity := now;
    }

    /** `_on_mouse`: any mouse move, click or scroll counts as activity. */
    method OnMouse(now: int)
      modifies this
      ensures lastActivity == now
      ensures mouseListener == old(mouseListener) && keyboardListener == old(keyboardListener)
    {
      UpdateActivity(now);
    }

    /** `_on_keyboard`: any key press counts as activity. */
    method OnKeyboard(now: int)
      modifies this
      ensures lastActivity == now
      ensures mouseListener == old(mouseListener) && keyboardListener == old(keyboardListener)
    {
      UpdateActivity(now);
    }

    /** `is_idle`: more than the threshold has passed since the last activity (strictly), or the
        session is locked (`locked` is `is_session_locked()`'s answer). */
    method IsIdle(now: int, locked: bool) returns (idle: bool)
      ensures idle <==> Idle(lastActivity, idleThreshold, now, locked)
    {
      var quiet := now - lastActivity > idleThreshold;
      idle := quiet || locked;
    }

    /** `last_activity`: the recorded instant, unchanged. */
    method LastActivity() returns (t: int)
      ensures t == lastActivity
    {
      t := lastActivity;
    }
  }

  /** The idle test on values: the time since the last activity exceeds the threshold, or the
      session is locked. */
  predicate Idle(last: int, threshold: int, now: int, locked: bool) {
    now - last > threshold || locked
  }

  /** Idleness is kept as time passes without activity. */
  lemma IdleStaysIdle(last: int, threshold: int, now: int, later: int, locked: bool)
    requires now <= later && Idle(last, threshold, now, false)
    ensures Idle(last, threshold, later, locked)
  {
  }

  /** Right after activity the monitor is idle only when the session is locked (with a
      non-negative threshold); exactly at the threshold it is not yet idle. */
  lemma ActivityResetsIdle(now: int, threshold: int, locked: bool)
    requires threshold >= 0
    ensures Idle(now, threshold, now, locked) <==> locked
    ensures Idle(now, threshold, now + threshold, locked) <==> locked
    ensures Idle(now, threshold, now + threshold + 1, locked)
  {
  }
}
