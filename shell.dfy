/** The main window: a column of five app buttons that choose the active screen, a password
    gate that, while locked, takes every event for the password prompt, and the routing of
    each event to the active screen. The settings screen's callbacks are bound to the window,
    which logs time, date, metric and low-power changes and re-locks itself when the password
    changes. The window is given first as functions on SystemState; class MainWindow owns the
    three modelled screens and proves its methods against those functions. */
module Shell {
  import opened Ui
  import TextEntry
  import MapApp
  import ChatbotApp
  import SettingsApp

  // ---------------------------------------------------------------------------------------
  // Apps and their buttons
  // ---------------------------------------------------------------------------------------

  /** The screens, in declaration order; NoApp is the start screen with only the buttons. */
  datatype ActiveApp = NoApp | Map | Chatbot | Database | Camera | Settings

  function AppOrdinal(a: ActiveApp): (i: nat)
    ensures i < 6
    ensures i == 0 <==> a == NoApp
  {
    match a
    case NoApp => 0
    case Map => 1
    case Chatbot => 2
    case Database => 3
    case Camera => 4
    case Settings => 5
  }

  /** static_cast<ActiveApp>(i + 1): the app of button i. */
  function AppOfButton(i: nat): (a: ActiveApp)
    requires i < 5
    ensures AppOrdinal(a) == i + 1 && a != NoApp
  {
    if i == 0 then Map else if i == 1 then Chatbot else if i == 2 then Database
    else if i == 3 then Camera else Settings
  }

  /** The global bounds of the five app buttons: 150 by 50 at (10, 100 + 60 i), 2 pixel
      outline. */
  function AppButtons(): (rects: seq<Rect>)
    ensures |rects| == 5
  {
    seq(5, i => ShapeBounds(10.0, 100.0 + i as real * 60.0, 150.0, 50.0, 2.0))
  }

  /** No point lies on two app buttons, so "the first match wins" picks the only match. */
  lemma AppButtonsDisjoint(p: Point, i: nat, j: nat)
    requires i < j < 5
    ensures !(AppButtons()[i].Contains(p) && AppButtons()[j].Contains(p))
  {
    var rects := AppButtons();
    assert rects[i].top == 98.0 + i as real * 60.0;
    assert rects[j].top == 98.0 + j as real * 60.0;
    assert (j - i) as real * 60.0 >= 60.0;
  }

  // ---------------------------------------------------------------------------------------
  // The window's own state
  // ---------------------------------------------------------------------------------------

  /** The active app, the password gate (protected, entered, stored password, typed input)
      and the console output of the window itself. */
  datatype ShellState = ShellState(
    active: ActiveApp,
    protected: bool,
    entered: bool,
    password: string,
    input: string,
    log: seq<string>)

  /** The gate is closed: the window is protected and the password not yet entered. */
  predicate Locked(sh: ShellState) { sh.protected && !sh.entered }

  /** checkPassword: the typed input is the stored password. */
  function CheckPassword(input: string, password: string): bool { input == password }

  /** handlePasswordInput: Enter unlocks when the input matches and clears it when not; other
      text events edit the input; everything else is ignored. */
  function PasswordTyped(sh: ShellState, ev: Event): (r: ShellState)
    ensures r.active == sh.active && r.protected == sh.protected && r.password == sh.password
    ensures r.log == sh.log
    ensures r.entered != sh.entered ==> r.entered && sh.input == sh.password
    ensures !ev.TextEntered? ==> r == sh
  {
    match ev
    case TextEntered(code) =>
      if code == TextEntry.EnterKey then
        if CheckPassword(sh.input, sh.password) then sh.(entered := true) else sh.(input := [])
      else sh.(input := TextEntry.Edit(sh.input, code))
    case _ => sh
  }

  /** promptPassword: back to the prompt with an empty input. */
  function Prompted(sh: ShellState): ShellState
  {
    sh.(entered := false, input := [])
  }

  /** onPasswordChanged: store the password; the window is protected exactly when it is
      non-empty, and a non-empty one sends the user back to the prompt. */
  function PasswordChangedTo(sh: ShellState, password: string): (r: ShellState)
    ensures r.password == password && (r.protected <==> password != [])
    ensures r.protected ==> Locked(r) && r.input == []
    ensures r.active == sh.active && r.log == sh.log
  {
    var s1 := sh.(password := password, protected := password != []);
    if s1.protected then Prompted(s1) else s1
  }

  function Abled(on: bool): string { if on then "enabled" else "disabled" }

  /** The window's response to one call of a settings callback. */
  function OnNotice(sh: ShellState, n: SettingsApp.Notice): ShellState
  {
    match n
    case TimeChanged(t) => sh.(log := sh.log + ["Time changed to: " + NatToString(t) + " seconds since epoch"])
    case DateChanged(t) => sh.(log := sh.log + ["Date changed to: " + NatToString(t) + " seconds since epoch"])
    case MetricChanged(on) => sh.(log := sh.log + ["Metric system " + Abled(on)])
    case LowPowerChanged(on) => sh.(log := sh.log + ["Low power mode " + Abled(on)])
    case PasswordChanged(password) => PasswordChangedTo(sh, password)
  }

  /** handleAppButtonClick: the first app button under the pointer chooses the active app. */
  function AppButtonClick(sh: ShellState, p: Point): (r: ShellState)
    ensures r == sh.(active := r.active)
    ensures r.active != sh.active ==> r.active != NoApp
  {
    match FirstHit(AppButtons(), p)
    case Some(i) => sh.(active := AppOfButton(i))
    case None => sh
  }

  // ---------------------------------------------------------------------------------------
  // The whole dashboard
  // ---------------------------------------------------------------------------------------

  /** The window and the three modelled screens. The database and camera screens are not part
      of this model. */
  datatype SystemState = SystemState(
    shell: ShellState,
    mapScreen: MapApp.MapState,
    chat: ChatbotApp.ChatState,
    settings: SettingsApp.SettingsState)

  /** The event handed to the active screen. A settings callback called during the step is
      answered by the window right after it, as the callback is the screen's last action. */
  function Forward(sys: SystemState, files: MapApp.Files, width: nat, height: nat, ev: Event): (r: SystemState)
    requires height < ChatbotApp.U32
    ensures r.shell.active == sys.shell.active
    ensures sys.shell.active != Map ==> r.mapScreen == sys.mapScreen
    ensures sys.shell.active != Chatbot ==> r.chat == sys.chat
    ensures sys.shell.active != Settings ==> r.settings == sys.settings && r.shell == sys.shell
  {
    match sys.shell.active
    case Map => sys.(mapScreen := MapApp.MapStep(sys.mapScreen, files, width, height, ev))
    case Chatbot => sys.(chat := ChatbotApp.ChatStep(sys.chat, height, ev))
    case Settings =>
      var st := SettingsApp.SettingsStep(sys.settings, ev);
      var k := |sys.settings.notices|;
      sys.(settings := st, shell := if |st.notices| > k then OnNotice(sys.shell, st.notices[k]) else sys.shell)
    case _ => sys
  }

  /** MainWindow::handleEvent. */
  function Step(sys: SystemState, files: MapApp.Files, width: nat, height: nat, ev: Event): (r: SystemState)
    requires height < ChatbotApp.U32
    ensures Locked(sys.shell) ==>
      r.shell.active == sys.shell.active && r.mapScreen == sys.mapScreen && r.chat == sys.chat
      && r.settings == sys.settings
  {
    if Locked(sys.shell) then sys.(shell := PasswordTyped(sys.shell, ev))
    else
      var sh := if ev.MousePressed? && ev.button == LeftButton then AppButtonClick(sys.shell, ev.at) else sys.shell;
      Forward(sys.(shell := sh), files, width, height, ev)
  }

  /** The events of a session, handled in order. */
  function Run(sys: SystemState, files: MapApp.Files, width: nat, height: nat, evs: seq<Event>): SystemState
    requires height < ChatbotApp.U32
    decreases |evs|
  {
    if |evs| == 0 then sys else Run(Step(sys, files, width, height, evs[0]), files, width, height, evs[1..])
  }

  /** The constructor's state: no app, unprotected, every settings callback bound. */
  function Initial(files: MapApp.Files): SystemState
  {
    SystemState(ShellState(NoApp, false, false, [], [], []), MapApp.Initial(files),
                ChatbotApp.ChatState([], [], []), SettingsApp.Initial().(hooks := SettingsApp.AllHooks))
  }

  /** What every reachable state keeps: each screen's own invariant, all settings callbacks
      bound, protection exactly when a password is set, and the window's password equal to
      the one the settings screen last set. */
  predicate Inv(sys: SystemState, files: MapApp.Files)
  {
    && MapApp.Inv(sys.mapScreen, files)
    && SettingsApp.Inv(sys.settings) && sys.settings.hooks == SettingsApp.AllHooks
    && sys.shell.protected == (sys.shell.password != [])
    && sys.settings.password == sys.shell.password
  }

  // ---------------------------------------------------------------------------------------
  // Properties
  // ---------------------------------------------------------------------------------------

  /** The constructor's state: no app, not protected, not entered, and the invariant holds. */
  lemma InitialState(files: MapApp.Files)
    ensures var sh := Initial(files).shell; sh.active == NoApp && !sh.protected && !sh.entered && !Locked(sh)
    ensures Inv(Initial(files), files)
  {
    MapApp.InitialState(files);
    SettingsApp.InitialState();
  }

  /** While locked, an event reaches only the password prompt: no app switch, no screen
      sees it, and the window's log does not change. */
  lemma LockedGate(sys: SystemState, files: MapApp.Files, width: nat, height: nat, ev: Event)
    requires height < ChatbotApp.U32 && Locked(sys.shell)
    ensures Step(sys, files, width, height, ev) == sys.(shell := PasswordTyped(sys.shell, ev))
    ensures var sh := PasswordTyped(sys.shell, ev);
      sh.active == sys.shell.active && sh.password == sys.shell.password && sh.log == sys.shell.log
  {
  }

  /** At the prompt, Enter unlocks exactly when the input equals the stored password; a wrong
      password clears the input and stays locked. Other text edits the input with the shared
      rule; other events change nothing. */
  lemma PasswordEntry(sh: ShellState, ev: Event)
    requires Locked(sh)
    ensures ev == TextEntered(TextEntry.EnterKey) ==>
      (!Locked(PasswordTyped(sh, ev)) <==> sh.input == sh.password)
    ensures ev == TextEntered(TextEntry.EnterKey) && sh.input != sh.password ==>
      PasswordTyped(sh, ev) == sh.(input := [])
    ensures ev.TextEntered? && ev.code != TextEntry.EnterKey ==>
      PasswordTyped(sh, ev) == sh.(input := TextEntry.Edit(sh.input, ev.code))
    ensures !ev.TextEntered? ==> PasswordTyped(sh, ev) == sh
  {
  }

  /** The TextEntered events of typing t, one per character. */
  function Keys(t: string): (evs: seq<Event>)
    ensures |evs| == |t|
    ensures forall i :: 0 <= i < |t| ==> evs[i] == TextEntered(t[i] as nat)
    decreases |t|
  {
    if |t| == 0 then [] else [TextEntered(t[0] as nat)] + Keys(t[1..])
  }

  /** Handling a + b is handling a, then b. */
  lemma {:induction false} RunAppend(sys: SystemState, files: MapApp.Files, width: nat, height: nat, a: seq<Event>, b: seq<Event>)
    requires height < ChatbotApp.U32
    ensures Run(sys, files, width, height, a + b) == Run(Run(sys, files, width, height, a), files, width, height, b)
    decreases |a|
  {
    if |a| > 0 {
      assert (a + b)[0] == a[0] && (a + b)[1..] == a[1..] + b;
      RunAppend(Step(sys, files, width, height, a[0]), files, width, height, a[1..], b);
    } else {
      assert a + b == b;
    }
  }

  /** While locked, one appendable character is added to the password input. */
  lemma LockedKey(sys: SystemState, files: MapApp.Files, width: nat, height: nat, c: char)
    requires height < ChatbotApp.U32 && Locked(sys.shell) && TextEntry.Appends(c as nat)
    ensures Step(sys, files, width, height, TextEntered(c as nat))
      == sys.(shell := sys.shell.(input := sys.shell.input + [c]))
  {
    var r := TextEntry.Edit(sys.shell.input, c as nat);
    assert r == sys.shell.input + [c];
  }

  /** While locked, typing t is typing its first character, then the rest. */
  lemma RunFirstKey(sys: SystemState, files: MapApp.Files, width: nat, height: nat, t: string)
    requires height < ChatbotApp.U32 && Locked(sys.shell) && |t| > 0 && TextEntry.Appends(t[0] as nat)
    ensures Run(sys, files, width, height, Keys(t))
      == Run(sys.(shell := sys.shell.(input := sys.shell.input + [t[0]])), files, width, height, Keys(t[1..]))
  {
    var key := TextEntered(t[0] as nat);
    assert Keys(t) == [key] + Keys(t[1..]);
    assert ([key] + Keys(t[1..]))[1..] == Keys(t[1..]);
    LockedKey(sys, files, width, height, t[0]);
  }

  /** While locked, typing appendable characters only extends the password input: no screen
      sees the keys. */
  lemma {:induction false} TypingWhileLocked(sys: SystemState, files: MapApp.Files, width: nat, height: nat, t: string)
    requires height < ChatbotApp.U32 && Locked(sys.shell)
    requires forall i :: 0 <= i < |t| ==> TextEntry.Appends(t[i] as nat)
    ensures Run(sys, files, width, height, Keys(t)) == sys.(shell := sys.shell.(input := sys.shell.input + t))
    decreases |t|
  {
    if |t| > 0 {
      var sys1 := sys.(shell := sys.shell.(input := sys.shell.input + [t[0]]));
      calc {
        Run(sys, files, width, height, Keys(t));
      == { RunFirstKey(sys, files, width, height, t); }
        Run(sys1, files, width, height, Keys(t[1..]));
      == { TypingWhileLocked(sys1, files, width, height, t[1..]); }
        sys1.(shell := sys1.shell.(input := sys1.shell.input + t[1..]));
      == { assert sys.shell.input + [t[0]] + t[1..] == sys.shell.input + t; }
        sys.(shell := sys.shell.(input := sys.shell.input + t));
      }
    } else {
      assert sys.shell.input + t == sys.shell.input;
    }
  }

  /** From the prompt with an empty input, typing t and Enter opens the gate exactly when t is
      the stored password; otherwise the input is cleared again. */
  lemma UnlockByTyping(sys: SystemState, files: MapApp.Files, width: nat, height: nat, t: string)
    requires height < ChatbotApp.U32 && Locked(sys.shell) && sys.shell.input == []
    requires forall i :: 0 <= i < |t| ==> TextEntry.Appends(t[i] as nat)
    ensures var r := Run(sys, files, width, height, Keys(t) + [TextEntered(TextEntry.EnterKey)]);
      && (!Locked(r.shell) <==> t == sys.shell.password)
      && (t != sys.shell.password ==> r == sys)
      && r.mapScreen == sys.mapScreen && r.chat == sys.chat && r.settings == sys.settings
  {
    var enter := TextEntered(TextEntry.EnterKey);
    RunAppend(sys, files, width, height, Keys(t), [enter]);
    TypingWhileLocked(sys, files, width, height, t);
    var s1 := sys.(shell := sys.shell.(input := t));
    assert sys.shell.input + t == t;
    assert Run(s1, files, width, height, [enter]) == Step(s1, files, width, height, enter);
  }

  /** The password the settings button sets can be typed, so the gate it closes can be opened. */
  lemma NewPasswordTypable()
    ensures forall i :: 0 <= i < |SettingsApp.NewPassword| ==> TextEntry.Appends(SettingsApp.NewPassword[i] as nat)
  {
  }

  /** A password change protects the window exactly when the new password is non-empty, and
      then locks it with an empty input; an empty password lifts the protection. */
  lemma PasswordChangeOutcome(sh: ShellState, password: string)
    ensures var r := PasswordChangedTo(sh, password);
      && r.password == password && r.active == sh.active
      && (r.protected <==> password != [])
      && (password != [] ==> Locked(r) && r.input == [])
      && (password == [] ==> !Locked(r) && r.input == sh.input && r.entered == sh.entered)
  {
  }

  /** Button i chooses the app with ordinal i + 1, never NoApp; a click on no button keeps the
      active app. */
  lemma AppButtonSelects(sh: ShellState, p: Point)
    ensures match FirstHit(AppButtons(), p)
      case Some(i) => AppButtonClick(sh, p) == sh.(active := AppOfButton(i))
        && AppOrdinal(AppButtonClick(sh, p).active) == i + 1
      case None => AppButtonClick(sh, p) == sh
  {
  }

  /** The column of app buttons: every app button lies inside it. */
  predicate InAppColumn(p: Point) { 8.0 <= p.x < 162.0 && 98.0 <= p.y < 392.0 }

  /** A click on app button i finds button i, and the point lies in the column. */
  lemma AppButtonHit(p: Point, i: nat)
    requires i < 5 && AppButtons()[i].Contains(p)
    ensures FirstHit(AppButtons(), p) == Some(i) && InAppColumn(p)
  {
    forall j | 0 <= j < i ensures !AppButtons()[j].Contains(p) {
      AppButtonsDisjoint(p, j, i);
    }
  }

  /** In a window at least 250 by 500 (and below 2^32 either way) no map control or layer button lies in the app column. */
  lemma MapIgnoresAppColumn(s: MapApp.MapState, files: MapApp.Files, width: nat, height: nat, p: Point)
    requires 250 <= width < ChatbotApp.U32 && 500 <= height < ChatbotApp.U32 && InAppColumn(p)
    ensures MapApp.MapStep(s, files, width, height, MousePressed(LeftButton, p)) == s
  {
    MapApp.BaseLayerButtonsOffWindow(width, p);
    MapApp.SecondaryLayerButtonsOffWindow(width, p);
    assert MapApp.ControlAt(width, height, p) == MapApp.NoControl;
  }

  /** No chatbot or settings control lies in the app column. */
  lemma ScreensIgnoreAppColumn(c: ChatbotApp.ChatState, st: SettingsApp.SettingsState, height: nat, p: Point)
    requires height < ChatbotApp.U32 && InAppColumn(p)
    ensures ChatbotApp.ChatStep(c, height, MousePressed(LeftButton, p)) == c
    ensures SettingsApp.SettingsStep(st, MousePressed(LeftButton, p)) == st
  {
    assert !ChatbotApp.ExitBounds().Contains(p);
    assert SettingsApp.ControlAt(p) == SettingsApp.NoControl;
  }

  /** With the window at least 250 by 500 (and below 2^32 either way), a click on an app button only switches the app:
      the screen it switches to receives the click but has no control under it. */
  lemma AppButtonClickOnlySwitches(sys: SystemState, files: MapApp.Files, width: nat, height: nat, p: Point, i: nat)
    requires 250 <= width < ChatbotApp.U32 && 500 <= height < ChatbotApp.U32
    requires !Locked(sys.shell) && i < 5 && AppButtons()[i].Contains(p)
    ensures Step(sys, files, width, height, MousePressed(LeftButton, p)) == sys.(shell := sys.shell.(active := AppOfButton(i)))
  {
    AppButtonHit(p, i);
    MapIgnoresAppColumn(sys.mapScreen, files, width, height, p);
    ScreensIgnoreAppColumn(sys.chat, sys.settings, height, p);
  }

  /** Unlocked, an event goes to the app active after click handling and to no other screen. */
  lemma RoutesToActiveApp(sys: SystemState, files: MapApp.Files, width: nat, height: nat, ev: Event)
    requires height < ChatbotApp.U32 && !Locked(sys.shell)
    ensures var r := Step(sys, files, width, height, ev);
      && (r.mapScreen != sys.mapScreen ==> r.shell.active == Map)
      && (r.chat != sys.chat ==> r.shell.active == Chatbot)
      && (r.settings != sys.settings ==> r.shell.active == Settings)
      && (r.shell.active == Map ==> r.mapScreen == MapApp.MapStep(sys.mapScreen, files, width, height, ev))
      && (r.shell.active == Chatbot ==> r.chat == ChatbotApp.ChatStep(sys.chat, height, ev))
      && (r.shell.active == Settings ==> r.settings == SettingsApp.SettingsStep(sys.settings, ev))
  {
  }

  /** From the settings screen, a click on the password button sets the password to
      "newpassword" and locks the window behind the prompt. */
  lemma SettingsPasswordButtonLocks(sys: SystemState, files: MapApp.Files, width: nat, height: nat, p: Point)
    requires height < ChatbotApp.U32 && Inv(sys, files)
    requires !Locked(sys.shell) && sys.shell.active == Settings
    requires SettingsApp.Bounds(SettingsApp.PasswordControl).Contains(p)
    ensures var r := Step(sys, files, width, height, MousePressed(LeftButton, p));
      Locked(r.shell) && r.shell.password == SettingsApp.NewPassword && r.shell.input == []
      && r.shell.active == Settings && r.settings.password == SettingsApp.NewPassword
  {
    assert FirstHit(AppButtons(), p) == None by {
      forall j | 0 <= j < 5 ensures !AppButtons()[j].Contains(p) {
        assert AppButtons()[j].left + AppButtons()[j].width == 162.0;
      }
    }
    SettingsApp.ClickActsOnce(sys.settings, p, SettingsApp.PasswordControl);
  }

  /** Forwarding an event to the active screen keeps the invariant; in particular the
      window's password follows the settings screen's through the password callback. */
  lemma ForwardKeepsInv(sys: SystemState, files: MapApp.Files, width: nat, height: nat, ev: Event)
    requires height < ChatbotApp.U32 && Inv(sys, files)
    ensures Inv(Forward(sys, files, width, height, ev), files)
  {
    match sys.shell.active {
      case Map => MapApp.StepKeepsInv(sys.mapScreen, files, width, height, ev);
      case Settings =>
        SettingsApp.StepKeepsInv(sys.settings, ev);
        if |SettingsApp.SettingsStep(sys.settings, ev).notices| > |sys.settings.notices| {
          NoticeKeepsPassword(sys.settings, ev);
        } else {
          SettingsPasswordNeedsNotice(sys.settings, ev);
        }
      case _ =>
    }
  }

  /** Every step keeps the invariant. */
  lemma StepKeepsInv(sys: SystemState, files: MapApp.Files, width: nat, height: nat, ev: Event)
    requires height < ChatbotApp.U32 && Inv(sys, files)
    ensures Inv(Step(sys, files, width, height, ev), files)
  {
    if !Locked(sys.shell) {
      var sh := if ev.MousePressed? && ev.button == LeftButton then AppButtonClick(sys.shell, ev.at) else sys.shell;
      ForwardKeepsInv(sys.(shell := sh), files, width, height, ev);
    }
  }

  /** A settings step that calls no callback leaves the password as it was. */
  lemma SettingsPasswordNeedsNotice(s: SettingsApp.SettingsState, ev: Event)
    requires s.hooks == SettingsApp.AllHooks
    requires |SettingsApp.SettingsStep(s, ev).notices| == |s.notices|
    ensures SettingsApp.SettingsStep(s, ev).password == s.password
  {
  }

  /** When a settings step calls a callback, a change of password is announced with the new
      password, and any other call leaves the password unchanged. */
  lemma NoticeKeepsPassword(s: SettingsApp.SettingsState, ev: Event)
    requires s.hooks == SettingsApp.AllHooks
    requires |SettingsApp.SettingsStep(s, ev).notices| > |s.notices|
    ensures var r := SettingsApp.SettingsStep(s, ev);
      match r.notices[|s.notices|]
      case PasswordChanged(pw) => r.password == pw
      case _ => r.password == s.password
  {
  }

  /** Every state a session reaches from the constructor keeps the invariant: in particular
      the window is protected exactly when a password is set. */
  lemma {:induction false} RunKeepsInv(sys: SystemState, files: MapApp.Files, width: nat, height: nat, evs: seq<Event>)
    requires height < ChatbotApp.U32 && Inv(sys, files)
    ensures Inv(Run(sys, files, width, height, evs), files)
    decreases |evs|
  {
    if |evs| > 0 {
      StepKeepsInv(sys, files, width, height, evs[0]);
      RunKeepsInv(Step(sys, files, width, height, evs[0]), files, width, height, evs[1..]);
    }
  }

  // ---------------------------------------------------------------------------------------
  // The window object
  // ---------------------------------------------------------------------------------------

  class MainWindow {
    const width: nat
    const height: nat
    const files: MapApp.Files
    const mapScreen: MapApp.Map
    const chatbot: ChatbotApp.Chatbot
    const settings: SettingsApp.Settings

    var activeApp: ActiveApp
    var isPasswordProtected: bool
    var password: string
    var isPasswordEntered: bool
    var passwordInput: string
    var log: seq<string>

    function ShellView(): ShellState
      reads this
    {
      ShellState(activeApp, isPasswordProtected, isPasswordEntered, password, passwordInput, log)
    }

    function State(): SystemState
      reads this, mapScreen, mapScreen.image, chatbot, settings
    {
      SystemState(ShellView(), mapScreen.State(), chatbot.State(), settings.State())
    }

    ghost predicate Valid()
      reads this, mapScreen, mapScreen.image, chatbot, settings
    {
      && mapScreen.Valid() && chatbot.Valid() && settings.Valid()
      && mapScreen.width == width && mapScreen.height == height && mapScreen.files == files && chatbot.height == height
      && height < ChatbotApp.U32
      && Inv(State(), files)
    }

    /** The constructor: the three screens are created and every settings callback is bound. */
    constructor (width: nat, height: nat, files: MapApp.Files)
      requires height < ChatbotApp.U32
      ensures Valid() && State() == Initial(files)
      ensures this.width == width && this.height == height && this.files == files
    {
      this.width, this.height, this.files := width, height, files;
      activeApp, isPasswordProtected, isPasswordEntered := NoApp, false, false;
      password, passwordInput, log := [], [], [];
      mapScreen := new MapApp.Map(width, height, files);
      chatbot := new ChatbotApp.Chatbot(height);
      var s := new SettingsApp.Settings();
      s.hooks := SettingsApp.AllHooks;
      settings := s;
      new;
      InitialState(files);
    }

    method SwitchToApp(app: ActiveApp)
      modifies this
      ensures ShellView() == old(ShellView()).(active := app)
    {
      activeApp := app;
    }

    /** handleAppButtonClick: the button search is FindButton's loop. */
    method HandleAppButtonClick(p: Point)
      modifies this
      ensures ShellView() == AppButtonClick(old(ShellView()), p)
    {
      var hit := FindButton(AppButtons(), p);
      if hit.Some? {
        SwitchToApp(AppOfButton(hit.value));
      }
    }

    method PromptPassword()
      modifies this
      ensures ShellView() == Prompted(old(ShellView()))
    {
      isPasswordEntered := false;
      passwordInput := [];
    }

    method HandlePasswordInput(ev: Event)
      modifies this
      ensures ShellView() == PasswordTyped(old(ShellView()), ev)
    {
      if ev.TextEntered? {
        if ev.code == TextEntry.EnterKey {
          if CheckPassword(passwordInput, password) {
            isPasswordEntered := true;
          } else {
            passwordInput := [];
          }
        } else if ev.code == TextEntry.BackspaceKey {
          if |passwordInput| > 0 {
            passwordInput := passwordInput[..|passwordInput| - 1];
          }
        } else if ev.code < 128 {
          passwordInput := passwordInput + [ev.code as char];
        }
      }
    }

    method OnPasswordChanged(newPassword: string)
      modifies this
      ensures ShellView() == PasswordChangedTo(old(ShellView()), newPassword)
    {
      password := newPassword;
      isPasswordProtected := password != [];
      if isPasswordProtected {
        PromptPassword();
      }
    }

    method OnTimeChanged(seconds: nat)
      modifies this
      ensures ShellView() == OnNotice(old(ShellView()), SettingsApp.TimeChanged(seconds))
    {
      log := log + ["Time changed to: " + NatToString(seconds) + " seconds since epoch"];
    }

    method OnDateChanged(seconds: nat)
      modifies this
      ensures ShellView() == OnNotice(old(ShellView()), SettingsApp.DateChanged(seconds))
    {
      log := log + ["Date changed to: " + NatToString(seconds) + " seconds since epoch"];
    }

    method OnMetricSystemChanged(isMetric: bool)
      modifies this
      ensures ShellView() == OnNotice(old(ShellView()), SettingsApp.MetricChanged(isMetric))
    {
      log := log + ["Metric system " + (if isMetric then "enabled" else "disabled")];
    }

    method OnLowPowerModeChanged(isLowPower: bool)
      modifies this
      ensures ShellView() == OnNotice(old(ShellView()), SettingsApp.LowPowerChanged(isLowPower))
    {
      log := log + ["Low power mode " + (if isLowPower then "enabled" else "disabled")];
    }

    /** The callbacks bound in the constructor: each forwards to the window's handler. */
    method Deliver(n: SettingsApp.Notice)
      modifies this
      ensures ShellView() == OnNotice(old(ShellView()), n)
    {
      match n {
        case TimeChanged(t) => OnTimeChanged(t);
        case DateChanged(t) => OnDateChanged(t);
        case MetricChanged(on) => OnMetricSystemChanged(on);
        case LowPowerChanged(on) => OnLowPowerModeChanged(on);
        case PasswordChanged(pw) => OnPasswordChanged(pw);
      }
    }

    /** The settings branch of the routing, with the callback the screen called. */
    method ForwardToSettings(ev: Event)
      requires Valid() && activeApp == Settings
      modifies this, settings
      ensures Valid() && State() == Forward(old(State()), files, width, height, ev)
    {
      ghost var s0 := State();
      ForwardKeepsInv(s0, files, width, height, ev);
      var before := |settings.notices|;
      settings.HandleEvent(ev);
      if |settings.notices| > before {
        Deliver(settings.notices[before]);
      }
    }

    /** The map branch of the routing. */
    method ForwardToMap(ev: Event)
      requires Valid() && activeApp == Map
      modifies mapScreen
      ensures Valid() && State() == Forward(old(State()), files, width, height, ev)
    {
      ForwardKeepsInv(State(), files, width, height, ev);
      mapScreen.HandleEvent(ev);
    }

    /** The chatbot branch of the routing. */
    method ForwardToChatbot(ev: Event)
      requires Valid() && activeApp == Chatbot
      modifies chatbot
      ensures Valid() && State() == Forward(old(State()), files, width, height, ev)
    {
      ForwardKeepsInv(State(), files, width, height, ev);
      chatbot.HandleEvent(ev);
    }

    /** The switch on the active app; the database and camera screens are not modelled, so
        their branches change nothing here. */
    method ForwardEvent(ev: Event)
      requires Valid()
      modifies this, mapScreen, chatbot, settings
      ensures Valid() && State() == Forward(old(State()), files, width, height, ev)
    {
      match activeApp {
        case Map => ForwardToMap(ev);
        case Chatbot => ForwardToChatbot(ev);
        case Settings => ForwardToSettings(ev);
        case _ =>
      }
    }

    /** MainWindow::handleEvent; the pointer position is the one the event carries. */
    method HandleEvent(ev: Event)
      requires Valid()
      modifies this, mapScreen, chatbot, settings
      ensures Valid() && State() == Step(old(State()), files, width, height, ev)
    {
      if isPasswordProtected && !isPasswordEntered {
        HandlePasswordInput(ev);
        return;
      }
      if ev.MousePressed? && ev.button == LeftButton {
        HandleAppButtonClick(ev.at);
      }
      ForwardEvent(ev);
    }
  }
}
