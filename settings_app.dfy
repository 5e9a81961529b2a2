/** The settings screen: an exit button, buttons that adjust the time and the date and change
    the password, and two switches (metric system, low power mode) whose label and colour
    follow their flag. Every action ends by calling the matching callback when one is bound;
    here a call becomes a Notice appended to the screen's outbox. The screen is given first as
    functions on SettingsState; class Settings keeps the fields and proves its methods against
    them. */
module SettingsApp {
  import opened Ui

  // ---------------------------------------------------------------------------------------
  // Callbacks and what they are told
  // ---------------------------------------------------------------------------------------

  /** The five callback slots the owner of the screen may bind. */
  datatype Hook = TimeHook | DateHook | MetricHook | LowPowerHook | PasswordHook

  const AllHooks: set<Hook> := {TimeHook, DateHook, MetricHook, LowPowerHook, PasswordHook}

  /** One callback call and its argument. Times are whole seconds. */
  datatype Notice =
    | TimeChanged(seconds: nat)
    | DateChanged(seconds: nat)
    | MetricChanged(metric: bool)
    | LowPowerChanged(lowPower: bool)
    | PasswordChanged(password: string)

  function HookOf(n: Notice): Hook
  {
    match n
    case TimeChanged(_) => TimeHook
    case DateChanged(_) => DateHook
    case MetricChanged(_) => MetricHook
    case LowPowerChanged(_) => LowPowerHook
    case PasswordChanged(_) => PasswordHook
  }

  /** The fixed values the three buttons hand out: 12:30:00, a fixed timestamp and a fixed
      password. */
  const NewTime: nat := 12 * 3600 + 30 * 60
  const NewDate: nat := 1234567890
  const NewPassword: string := "newpassword"

  // ---------------------------------------------------------------------------------------
  // Labels and colours of the two switches
  // ---------------------------------------------------------------------------------------

  function OnOff(on: bool): string { if on then "ON" else "OFF" }

  /** A switch is green when on and red when off. */
  function SwitchColour(on: bool): Colour { if on then Green else Red }

  function MetricLabel(metric: bool): string { "Metric System: " + OnOff(metric) }

  function LowPowerLabel(lowPower: bool): string { "Low Power Mode: " + OnOff(lowPower) }

  /** Each label reads ON exactly when its flag is set, so a label determines its flag; the
      colour does too. */
  lemma LabelsShowFlags(a: bool, b: bool)
    ensures MetricLabel(a) == "Metric System: ON" <==> a
    ensures LowPowerLabel(a) == "Low Power Mode: ON" <==> a
    ensures MetricLabel(a) == MetricLabel(b) <==> a == b
    ensures LowPowerLabel(a) == LowPowerLabel(b) <==> a == b
    ensures SwitchColour(a) == SwitchColour(b) <==> a == b
  {
    if a != b {
      assert |MetricLabel(a)| != |MetricLabel(b)|;
      assert |LowPowerLabel(a)| != |LowPowerLabel(b)|;
    }
    if !a {
      assert |MetricLabel(a)| != |"Metric System: ON"|;
      assert |LowPowerLabel(a)| != |"Low Power Mode: ON"|;
    }
  }

  // ---------------------------------------------------------------------------------------
  // The screen's state machine
  // ---------------------------------------------------------------------------------------

  /** The screen's observable state: the two flags, the password, the two labels and switch
      colours, the bound callbacks, the callback calls made so far and the console output. */
  datatype SettingsState = SettingsState(
    metric: bool,
    lowPower: bool,
    password: string,
    metricLabel: string,
    metricColour: Colour,
    lowPowerLabel: string,
    lowPowerColour: Colour,
    hooks: set<Hook>,
    notices: seq<Notice>,
    log: seq<string>)

  /** The labels and switch colours agree with the flags. */
  predicate Inv(s: SettingsState)
  {
    && s.metricLabel == MetricLabel(s.metric) && s.metricColour == SwitchColour(s.metric)
    && s.lowPowerLabel == LowPowerLabel(s.lowPower) && s.lowPowerColour == SwitchColour(s.lowPower)
  }

  /** Call a callback: recorded only when it is bound. */
  function Notify(s: SettingsState, n: Notice): SettingsState
  {
    if HookOf(n) in s.hooks then s.(notices := s.notices + [n]) else s
  }

  /** The constructor's state: metric on, low power off, empty password, nothing bound. */
  function Initial(): SettingsState
  {
    SettingsState(true, false, [], "Metric System: ON", Green, "Low Power Mode: OFF", Red, {}, [], [])
  }

  /** The metric switch flips, its label and colour follow, and a bound metric callback hears
      the new value; nothing else changes. */
  function MetricToggled(s: SettingsState): (r: SettingsState)
    ensures r.metric == !s.metric && r.lowPower == s.lowPower && r.password == s.password
    ensures Inv(s) ==> Inv(r)
    ensures MetricHook in s.hooks ==> r.notices == s.notices + [MetricChanged(r.metric)]
    ensures MetricHook !in s.hooks ==> r.notices == s.notices
  {
    var on := !s.metric;
    Notify(s.(metric := on, metricLabel := MetricLabel(on), metricColour := SwitchColour(on)), MetricChanged(on))
  }

  /** The low-power switch flips, its label and colour follow, and a bound low-power callback
      hears the new value; nothing else changes. */
  function LowPowerToggled(s: SettingsState): (r: SettingsState)
    ensures r.lowPower == !s.lowPower && r.metric == s.metric && r.password == s.password
    ensures Inv(s) ==> Inv(r)
    ensures LowPowerHook in s.hooks ==> r.notices == s.notices + [LowPowerChanged(r.lowPower)]
    ensures LowPowerHook !in s.hooks ==> r.notices == s.notices
  {
    var on := !s.lowPower;
    Notify(s.(lowPower := on, lowPowerLabel := LowPowerLabel(on), lowPowerColour := SwitchColour(on)), LowPowerChanged(on))
  }

  /** The stored password becomes the fixed new one, whether or not a callback is bound. */
  function PasswordReplaced(s: SettingsState): (r: SettingsState)
    ensures r.password == NewPassword && r.metric == s.metric && r.lowPower == s.lowPower
    ensures Inv(s) ==> Inv(r)
    ensures PasswordHook !in s.hooks ==> r.notices == s.notices
  {
    Notify(s.(password := NewPassword), PasswordChanged(NewPassword))
  }

  /** The time button changes nothing on the screen: it only calls the time callback. */
  function TimeAdjusted(s: SettingsState): (r: SettingsState)
    ensures r.(notices := s.notices) == s
    ensures TimeHook in s.hooks <==> r.notices == s.notices + [TimeChanged(NewTime)]
  {
    Notify(s, TimeChanged(NewTime))
  }

  /** The date button changes nothing on the screen: it only calls the date callback. */
  function DateAdjusted(s: SettingsState): (r: SettingsState)
    ensures r.(notices := s.notices) == s
    ensures DateHook in s.hooks <==> r.notices == s.notices + [DateChanged(NewDate)]
  {
    Notify(s, DateChanged(NewDate))
  }

  // ---------------------------------------------------------------------------------------
  // Click dispatch
  // ---------------------------------------------------------------------------------------

  datatype SettingsControl =
    ExitControl | TimeControl | DateControl | MetricControl | LowPowerControl | PasswordControl | NoControl

  /** The global bounds of each control: the buttons have a 2 pixel outline, the switches none. */
  function Bounds(c: SettingsControl): Rect
    requires c != NoControl
  {
    match c
    case ExitControl => ShapeBounds(10.0, 10.0, 50.0, 50.0, 2.0)
    case TimeControl => ShapeBounds(300.0, 100.0, 200.0, 50.0, 2.0)
    case DateControl => ShapeBounds(300.0, 200.0, 200.0, 50.0, 2.0)
    case MetricControl => Rect(400.0, 300.0, 100.0, 50.0)
    case LowPowerControl => Rect(400.0, 400.0, 100.0, 50.0)
    case PasswordControl => ShapeBounds(300.0, 500.0, 200.0, 50.0, 2.0)
  }

  /** The control a left click at p acts on: the first in the order exit, time, date, metric,
      low power, password whose bounds contain p. */
  function ControlAt(p: Point): SettingsControl
  {
    if Bounds(ExitControl).Contains(p) then ExitControl
    else if Bounds(TimeControl).Contains(p) then TimeControl
    else if Bounds(DateControl).Contains(p) then DateControl
    else if Bounds(MetricControl).Contains(p) then MetricControl
    else if Bounds(LowPowerControl).Contains(p) then LowPowerControl
    else if Bounds(PasswordControl).Contains(p) then PasswordControl
    else NoControl
  }

  /** The controls do not overlap, so the priority order never decides anything: a click acts
      on a control exactly when it lies inside that control's bounds. */
  lemma ControlsExclusive(p: Point, c: SettingsControl)
    requires c != NoControl
    ensures ControlAt(p) == c <==> Bounds(c).Contains(p)
    ensures ControlAt(p) == NoControl <==> forall d :: d != NoControl ==> !Bounds(d).Contains(p)
  {
  }

  /** The action of one control: at most one callback call, appended after the earlier ones. */
  function ControlApplied(s: SettingsState, c: SettingsControl): (r: SettingsState)
    ensures |s.notices| <= |r.notices| <= |s.notices| + 1
    ensures r.notices[..|s.notices|] == s.notices
    ensures r.hooks == s.hooks
  {
    match c
    case ExitControl => s.(log := s.log + ["Exiting Settings"])
    case TimeControl => TimeAdjusted(s)
    case DateControl => DateAdjusted(s)
    case MetricControl => MetricToggled(s)
    case LowPowerControl => LowPowerToggled(s)
    case PasswordControl => PasswordReplaced(s)
    case NoControl => s
  }

  /** Settings::handleEvent: only left clicks do anything. A step appends at most one
      notice and keeps the ones before. */
  function SettingsStep(s: SettingsState, ev: Event): (r: SettingsState)
    ensures |s.notices| <= |r.notices| <= |s.notices| + 1
    ensures r.notices[..|s.notices|] == s.notices
    ensures r.hooks == s.hooks
  {
    match ev
    case MousePressed(button, p) => if button == LeftButton then ControlApplied(s, ControlAt(p)) else s
    case _ => s
  }

  // ---------------------------------------------------------------------------------------
  // Properties of the state machine
  // ---------------------------------------------------------------------------------------

  /** The constructor's state keeps the invariant and shows "Metric System: ON" and
      "Low Power Mode: OFF". */
  lemma InitialState()
    ensures Inv(Initial())
    ensures Initial().metric && !Initial().lowPower && Initial().password == []
    ensures Initial().notices == [] && Initial().hooks == {}
  {
  }

  /** Every step keeps the labels and colours in agreement with the flags. */
  lemma StepKeepsInv(s: SettingsState, ev: Event)
    requires Inv(s)
    ensures Inv(SettingsStep(s, ev))
  {
  }

  /** Toggling a switch flips exactly its flag, and tells the bound callback the new value. */
  lemma ToggleOutcome(s: SettingsState)
    ensures MetricToggled(s).metric == !s.metric && MetricToggled(s).lowPower == s.lowPower
    ensures LowPowerToggled(s).lowPower == !s.lowPower && LowPowerToggled(s).metric == s.metric
    ensures MetricToggled(s).password == s.password && LowPowerToggled(s).password == s.password
    ensures MetricToggled(s).notices == s.notices + (if MetricHook in s.hooks then [MetricChanged(!s.metric)] else [])
    ensures LowPowerToggled(s).notices == s.notices + (if LowPowerHook in s.hooks then [LowPowerChanged(!s.lowPower)] else [])
  {
  }

  /** Toggling a switch twice restores its flag, label and colour; only the two callback calls
      remain. */
  lemma ToggleTwice(s: SettingsState)
    requires Inv(s)
    ensures MetricToggled(MetricToggled(s)).(notices := s.notices) == s
    ensures LowPowerToggled(LowPowerToggled(s)).(notices := s.notices) == s
  {
  }

  /** The three buttons hand out 45000 seconds (12:30:00), the timestamp 1234567890 and the
      password "newpassword", each only to a bound callback; the password changes even when
      no callback is bound. */
  lemma ButtonOutcomes(s: SettingsState)
    ensures NewTime == 45000
    ensures TimeAdjusted(s).notices == s.notices + (if TimeHook in s.hooks then [TimeChanged(45000)] else [])
    ensures DateAdjusted(s).notices == s.notices + (if DateHook in s.hooks then [DateChanged(1234567890)] else [])
    ensures PasswordReplaced(s).password == "newpassword"
    ensures PasswordReplaced(s).notices == s.notices + (if PasswordHook in s.hooks then [PasswordChanged("newpassword")] else [])
    ensures TimeAdjusted(s).(notices := s.notices) == s && DateAdjusted(s).(notices := s.notices) == s
  {
  }

  /** A click performs at most one action: the one of the control under the pointer. */
  lemma ClickActsOnce(s: SettingsState, p: Point, c: SettingsControl)
    requires c != NoControl && Bounds(c).Contains(p)
    ensures SettingsStep(s, MousePressed(LeftButton, p)) == ControlApplied(s, c)
  {
    ControlsExclusive(p, c);
  }

  /** A step tells a callback something only when that callback is bound. */
  lemma NoticesOnlyWhenBound(s: SettingsState, ev: Event)
    ensures forall j :: |s.notices| <= j < |SettingsStep(s, ev).notices| ==>
      HookOf(SettingsStep(s, ev).notices[j]) in s.hooks
  {
  }

  // ---------------------------------------------------------------------------------------
  // The screen object
  // ---------------------------------------------------------------------------------------

  class Settings {
    var isMetricSystem: bool
    var isLowPowerMode: bool
    var password: string
    var metricSystemText: string
    var metricSystemColour: Colour
    var lowPowerModeText: string
    var lowPowerModeColour: Colour
    /** The callbacks bound by the owner of the screen. */
    var hooks: set<Hook>
    /** The callback calls made, oldest first. */
    var notices: seq<Notice>
    var log: seq<string>

    function State(): SettingsState
      reads this
    {
      SettingsState(isMetricSystem, isLowPowerMode, password, metricSystemText, metricSystemColour,
                    lowPowerModeText, lowPowerModeColour, hooks, notices, log)
    }

    ghost predicate Valid()
      reads this
    {
      Inv(State())
    }

    constructor ()
      ensures Valid() && State() == Initial()
    {
      isMetricSystem, isLowPowerMode, password := true, false, [];
      metricSystemText, metricSystemColour := "Metric System: ON", Green;
      lowPowerModeText, lowPowerModeColour := "Low Power Mode: OFF", Red;
      hooks, notices, log := {}, [], [];
    }

    method ToggleMetricSystem()
      requires Valid()
      modifies this
      ensures Valid() && State() == MetricToggled(old(State()))
    {
      isMetricSystem := !isMetricSystem;
      metricSystemText := "Metric System: " + (if isMetricSystem then "ON" else "OFF");
      metricSystemColour := if isMetricSystem then Green else Red;
      if MetricHook in hooks {
        notices := notices + [MetricChanged(isMetricSystem)];
      }
    }

    method ToggleLowPowerMode()
      requires Valid()
      modifies this
      ensures Valid() && State() == LowPowerToggled(old(State()))
    {
      isLowPowerMode := !isLowPowerMode;
      lowPowerModeText := "Low Power Mode: " + (if isLowPowerMode then "ON" else "OFF");
      lowPowerModeColour := if isLowPowerMode then Green else Red;
      if LowPowerHook in hooks {
        notices := notices + [LowPowerChanged(isLowPowerMode)];
      }
    }

    method ChangePassword()
      requires Valid()
      modifies this
      ensures Valid() && State() == PasswordReplaced(old(State()))
    {
      password := NewPassword;
      if PasswordHook in hooks {
        notices := notices + [PasswordChanged(password)];
      }
    }

    method AdjustTime()
      requires Valid()
      modifies this
      ensures Valid() && State() == TimeAdjusted(old(State()))
    {
      var newTime := 12 * 3600 + 30 * 60;
      if TimeHook in hooks {
        notices := notices + [TimeChanged(newTime)];
      }
    }

    method AdjustDate()
      requires Valid()
      modifies this
      ensures Valid() && State() == DateAdjusted(old(State()))
    {
      var newDate := 1234567890;
      if DateHook in hooks {
        notices := notices + [DateChanged(newDate)];
      }
    }

    /** Settings::handleEvent; the pointer position is the one the event carries. */
    method HandleEvent(ev: Event)
      requires Valid()
      modifies this
      ensures Valid() && State() == SettingsStep(old(State()), ev)
    {
      if ev.MousePressed? && ev.button == LeftButton {
        var p := ev.at;
        if Bounds(ExitControl).Contains(p) {
          log := log + ["Exiting Settings"];
        } else if Bounds(TimeControl).Contains(p) {
          AdjustTime();
        } else if Bounds(DateControl).Contains(p) {
          AdjustDate();
        } else if Bounds(MetricControl).Contains(p) {
          ToggleMetricSystem();
        } else if Bounds(LowPowerControl).Contains(p) {
          ToggleLowPowerMode();
        } else if Bounds(PasswordControl).Contains(p) {
          ChangePassword();
        }
      }
    }
  }
}
