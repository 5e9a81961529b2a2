# Dashboard screens in Dafny

A model of the event handling of an SFML desktop dashboard: a main window with five app
buttons and an optional password gate, and three of the screens it hosts.

- **Map screen.** Two mutually exclusive side panels and a search bar with its own text box. It has a four-entry table from base layer to dataset file, and a pixel loop that turns a three-band raster into an image. The image is painted from the buffer exactly as the program's `RasterIO` call fills it; the read the loop evidently expects is modelled beside it (see Findings).
- **Chatbot screen.** A text box and a history of at most ten captioned, coloured lines. Each line is positioned by its index.
- **Settings screen.** Two switches whose labels and colours follow their flags, and three buttons that hand fixed values to callbacks.

Every screen is a class whose fields are the C++ members that change. Each method is proved to
move the object's value view (`State()`) exactly as a pure step function on a datatype does.
The properties the program relies on are proved as lemmas about those functions:

- invariants kept by every event and so by every session;
- exclusivity of the click dispatch;
- what each button does;
- the chat history always showing the last ten messages of the conversation;
- the password gate opening exactly on the stored password.

Modules: `Ui` holds rectangles, colours, events, the first-match button search and decimal
printing. `TextEntry` holds the editing rule the three text boxes share. `MapApp`,
`ChatbotApp` and `SettingsApp` are the screens. `Shell` is the main window, which owns the three
screens.

Design decisions:

- Coordinates are exact reals.
- The console output (`std::cout` and `std::cerr` alike) of each object is a `log` sequence of lines.
- The files GDAL can open are a map from path to dataset, fixed when the map screen is built.
- A mouse press carries the pointer position the handler reads when it runs.
- The settings callbacks are a set of bound hooks plus the sequence of calls made (`notices`). The main window answers the call a settings event makes right after that event. The C++ makes the call as the last action of the settings method, so the resulting states are the same.

## Model

| member | source | states |
|---|---|---|
| Ui.ShapeBounds | src/settings/settings.cpp:30-34 | the global bounds of a shape with an outline contain the whole shape and reach at most the outline thickness beyond it |
| Ui.FirstHit | src/mainwindow/mainwindow.cpp:163-168 | the button found contains the point and no earlier button does; no button is found exactly when none contains the point |
| Ui.FindButton | src/map/map.cpp:89-94 | the index loop with `break` returns the first button containing the point, or none |
| Ui.NatToString | src/map/map.cpp:99 | std::to_string of a count is a non-empty string of decimal digits, one digit below ten |
| TextEntry.Edit | src/map/map.cpp:107-113 | Backspace removes the last character and does nothing on an empty box; a code below 128 is appended as that character; larger codes are dropped |
| TextEntry.BackspaceUndoesAppend | src/chatbot/chatbot.cpp:43-49 | Backspace after an appended character restores the text |
| TextEntry.TypedAppendsAll | src/chatbot/chatbot.cpp:47-49 | typing appendable codes appends exactly their characters, in order |
| TextEntry.BackspacesErase | src/chatbot/chatbot.cpp:43-46 | n Backspaces keep the first length-n characters and never fail on an empty box |
| MapApp.LayerOfOrdinal | src/map/map.hpp:37-42 | the layer button i selects is the BaseLayer whose ordinal is i |
| MapApp.DatasetPath | src/map/map.cpp:242-256 | every layer's file is a ".gpkg" file under "resources/maps/", and Streetmap's is the file the constructor loads |
| MapApp.DatasetPathsDistinct | src/map/map.cpp:243-256 | two layers have the same dataset path exactly when they are the same layer |
| MapApp.Open | src/map/map.cpp:144-145 | opening succeeds exactly when the file exists |
| MapApp.RasterRead | src/map/map.cpp:162-173 | the pixel-interleaved read the loop's indexing expects (the corrected read, not the call as written): a buffer of width*height*3 values |
| MapApp.RasterReadAsWritten | src/map/map.cpp:163 | the buffer the call as written fills also holds width*height*3 values, band after band |
| MapApp.InterleavedReadPicksBand | src/map/map.cpp:166-173 | with a pixel-interleaved buffer, index (y*w+x)*3+c is in range and holds band c of pixel (x, y) |
| MapApp.AsWrittenGreenIsRedOfNextPixel | src/map/map.cpp:163-171 | with the band-sequential buffer, the green channel of pixel 0 reads the red band of pixel 1 |
| MapApp.AsWrittenMixesBands | src/map/map.cpp:163-173 | on a 2x1 raster that is black at pixel 0, the as-written read gives pixel 0 full green |
| MapApp.Rendered | src/map/map.cpp:159-176 | the image the screen shows, painted from the band-sequential buffer the call as written fills: width*height pixels |
| MapApp.AsWrittenPixelReads | src/map/map.cpp:163-174 | as written, channel c of pixel k comes from band (3k+c)/n at position (3k+c) mod n, for n = width*height pixels |
| MapApp.RenderedIntended | src/map/map.cpp:166-176 | the image the loop would paint from the corrected read: width*height pixels |
| MapApp.IntendedPixelShowsBands | src/map/map.cpp:166-174 | with the corrected read, pixel (x, y) shows bands 1, 2 and 3 of that pixel as red, green and blue |
| MapApp.AsWrittenPaintsGreen | src/map/map.cpp:163-174 | on a 2x1 raster black at pixel 0 and red at pixel 1, the screen as written paints pixel 0 full green while the corrected read paints it black |
| MapApp.PixelIndexInBounds | src/map/map.cpp:166-172 | for every x < w and y < h, the slot y*w+x is below w*h and the three indices read lie in the w*h*3 buffer |
| MapApp.Less60 | src/map/map.cpp:18-22 | `getSize() - 60` in 32-bit unsigned arithmetic: size - 60 from 60 up, size - 60 + 2^32 below 60 |
| MapApp.SmallWindowLosesLayersButton | src/map/map.cpp:17-22 | in a window narrower or lower than 60 the wrapped position puts the layers button (and, when lower, the search button) beyond the window, so no click inside reaches it |
| MapApp.ControlsDisjoint | src/map/map.cpp:80-86 | in a window of at least 120x120 (and below 2^32 either way), the control a click selects is exactly the one whose rectangle holds the pointer |
| MapApp.BaseLayerButtonsOffWindow | src/map/map.cpp:48-53 | the base-layer buttons stay at the closed panel's x = width + 10, so no point inside the window hits one |
| MapApp.SecondaryLayerButtonsOffWindow | src/map/map.cpp:57-62 | the secondary buttons sit at negative x, so no point inside the window hits one |
| MapApp.ButtonRowsDisjoint | src/map/map.cpp:48-62 | a point lies on at most one button of each row |
| MapApp.InitialState | src/map/map.cpp:4-68 | after construction both panels are closed, search is off and empty, Streetmap is current, the file loaded is the Streetmap table entry, and the invariant holds |
| MapApp.LayersToggled | src/map/map.cpp:199-208 | the layers panel flips; once open, the secondary panel is closed; closing leaves the secondary panel as it was; search and log untouched |
| MapApp.SecondaryToggled | src/map/map.cpp:210-219 | the secondary panel flips; once open, the layers panel is closed; closing leaves the layers panel as it was; search and log untouched |
| MapApp.SearchToggled | src/map/map.cpp:221-231 | the search flag flips; closing empties the text, opening keeps it; the panels and log are untouched |
| MapApp.Searched | src/map/map.cpp:233-238 | the query is logged as "Searching for: " + text, and an open bar is closed and emptied |
| MapApp.Loaded | src/map/map.cpp:143-151 | the handle becomes the open result; a missing file keeps the image and logs "Failed to open " + path; a present one is rendered without logging |
| MapApp.TypeCode | src/map/map.cpp:104-114 | a closed bar ignores text; Enter on an open bar closes and empties it; panels, layer and image never change |
| MapApp.MapStep | src/map/map.cpp:75-115 | other events and non-left clicks change nothing; text never changes the layer or the layers panel |
| MapApp.PanelToggles | src/map/map.cpp:199-219 | each toggle flips its own panel; opening one closes the other; closing one leaves the other as it was; nothing else changes |
| MapApp.SearchToggle | src/map/map.cpp:221-231 | toggleSearch flips only the search flag; closing empties the text; opening keeps it |
| MapApp.TextEvents | src/map/map.cpp:104-114 | text is ignored with the bar closed; Enter logs the query and closes the bar, emptying it; other codes edit the text by the shared rule |
| MapApp.ChangeBaseLayerOutcome | src/map/map.cpp:240-258 | the layer is recorded whether or not its file opens; on success the image shows the file; on failure the handle is reset, the image is kept and the failure is logged |
| MapApp.ClickSelectsLayer | src/map/map.cpp:89-94 | a click on base-layer button i selects layer i; a click on no such button leaves layer, dataset and image unchanged |
| MapApp.TogglesKeepInv | src/map/map.cpp:199-238 | the toggles and the search keep the invariant: panels never both open, a closed bar is empty, an open dataset is the current layer's and is what the image shows |
| MapApp.BaseLayerChangedKeepsInv | src/map/map.cpp:240-258 | changing the base layer keeps the invariant |
| MapApp.ControlKeepsInv | src/map/map.cpp:80-86 | the control a click selects keeps the invariant |
| MapApp.BaseLayerHitKeepsInv | src/map/map.cpp:89-94 | the base-layer button hit keeps the invariant |
| MapApp.SecondaryHitKeepsInv | src/map/map.cpp:97-102 | the secondary-layer button hit keeps the invariant |
| MapApp.ClickKeepsInv | src/map/map.cpp:76-103 | a left click keeps the invariant |
| MapApp.StepKeepsInv | src/map/map.cpp:75-115 | every event keeps the invariant |
| MapApp.RunKeepsInv | src/map/map.cpp:75-115 | every session keeps the invariant |
| MapApp.PanelsNeverBothOpen | src/map/map.cpp:199-219 | in every session from construction the two side panels are never open together |
| MapApp.PaintRow | src/map/map.cpp:167-175 | one row of the loop paints its w pixels from their three buffer values and leaves the later slots untouched |
| MapApp.Paint | src/map/map.cpp:159-176 | the image is a fresh width*height image, created white, whose every pixel ends up holding the colour built from its own three buffer values |
| MapApp.Map.constructor | src/map/map.cpp:4-69 | the screen starts in the state InitialState describes, with panels and bar placed accordingly |
| MapApp.Map.ToggleLayersPanel | src/map/map.cpp:199-208 | the fields change as the layers toggle does; the invariant and the panel positions are kept |
| MapApp.Map.ToggleSecondaryPanel | src/map/map.cpp:210-219 | the fields change as the secondary toggle does; the invariant and the panel positions are kept |
| MapApp.Map.ToggleSearch | src/map/map.cpp:221-231 | the fields change as the search toggle does; the bar and text positions follow the flag |
| MapApp.Map.HandleSearch | src/map/map.cpp:233-238 | the query is logged and the bar closed |
| MapApp.Map.RenderMap | src/map/map.cpp:153-182 | the image becomes the raster painted from the buffer as the call as written fills it |
| MapApp.Map.LoadMapData | src/map/map.cpp:143-151 | opens the file; on failure it resets the handle and keeps the image; on success it renders |
| MapApp.Map.ChangeBaseLayer | src/map/map.cpp:240-258 | records the layer, then loads its file; the invariant is kept |
| MapApp.Map.AddSecondaryLayer | src/map/map.cpp:260-263 | only logs the layer name |
| MapApp.Map.PressControls | src/map/map.cpp:80-86 | layers, then search, then exit, with at most one acting |
| MapApp.Map.PressBaseLayerButton | src/map/map.cpp:89-94 | the first base-layer button under the pointer changes the layer |
| MapApp.Map.PressSecondaryLayerButton | src/map/map.cpp:97-102 | the first secondary button under the pointer adds "Layer" followed by i+1 |
| MapApp.Map.HandleClick | src/map/map.cpp:78-102 | controls, then base-layer row, then secondary row, each at most once |
| MapApp.Map.HandleText | src/map/map.cpp:104-114 | text events edit the search text only while the bar is open |
| MapApp.Map.HandleEvent | src/map/map.cpp:75-115 | the screen steps as the step function does and keeps the invariant |
| ChatbotApp.CaptionParts | src/chatbot/chatbot.cpp:79 | a caption ends with the message unchanged and starts with "You: " exactly when the user sent it |
| ChatbotApp.CaptionColour | src/chatbot/chatbot.cpp:78 | user lines are blue and the chatbot's green, each exactly |
| ChatbotApp.DisplayLines | src/chatbot/chatbot.cpp:77-93 | line j of the history shows message j's caption in its colour at x = 15 |
| ChatbotApp.LineY | src/chatbot/chatbot.cpp:81 | the y is a 64-bit unsigned value; with room for the lines it is height - 120 - 30*(n - i) |
| ChatbotApp.LinesStackUpwards | src/chatbot/chatbot.cpp:91-94 | with room, the newest line sits at height - 150, neighbours are 30 apart, and every line lies in 0..height-150 |
| ChatbotApp.ShortWindowWraps | src/chatbot/chatbot.cpp:81 | in a window lower than 120 the unsigned subtraction wraps and every line lands below the window |
| ChatbotApp.LinesOfAt | src/chatbot/chatbot.cpp:91-94 | line j shows message j at position j of n |
| ChatbotApp.PlacedAt | src/chatbot/chatbot.cpp:91-94 | the repositioning loop moves line j to the y its index gives and changes nothing else |
| ChatbotApp.LastAtMost | src/chatbot/chatbot.cpp:86-89 | the last k messages, or all when there are fewer |
| ChatbotApp.LastAtMostAppend | src/chatbot/chatbot.cpp:84-89 | trimming to the last k before appending one more, then trimming again, equals trimming once |
| ChatbotApp.AddedShowsLastTen | src/chatbot/chatbot.cpp:74-95 | adding a message to a history that shows at most ten messages shows the last ten of them with the new one |
| ChatbotApp.ReplayShowsLastTen | src/chatbot/chatbot.cpp:84-94 | however many messages are added, the history shows exactly the last ten, oldest first, each at its index's position |
| ChatbotApp.Added | src/chatbot/chatbot.cpp:84-89 | the history grows by one line until it holds ten, then stays at ten |
| ChatbotApp.Sent | src/chatbot/chatbot.cpp:63-72 | an empty box changes nothing; otherwise the box is emptied, nothing is logged, and a history of at most ten stays at most ten |
| ChatbotApp.ChatStep | src/chatbot/chatbot.cpp:30-51 | the log grows by nothing or by "Exiting Chatbot"; only Enter can change the history |
| ChatbotApp.Said | src/chatbot/chatbot.cpp:63-72 | an event adds no message or exactly two |
| ChatbotApp.SendOutcome | src/chatbot/chatbot.cpp:63-72 | Enter with an empty box changes nothing; otherwise the box is emptied and the last two lines are the user's "You: " line in blue and "Chatbot: Hello world!" in green |
| ChatbotApp.OtherEventsKeepHistory | src/chatbot/chatbot.cpp:30-49 | text other than Enter edits only the box; clicks outside the exit button change nothing |
| ChatbotApp.SendShows | src/chatbot/chatbot.cpp:63-72 | sending adds the user's message and the reply to the conversation the history shows |
| ChatbotApp.StepShows | src/chatbot/chatbot.cpp:30-51 | every event keeps the history showing the last ten messages of the conversation |
| ChatbotApp.RunShowsLastTen | src/chatbot/chatbot.cpp:30-95 | in every session the history shows the last ten messages of the whole conversation and holds at most ten lines |
| ChatbotApp.Chatbot.constructor | src/chatbot/chatbot.cpp:4-28 | an empty box, an empty history and an empty conversation |
| ChatbotApp.Chatbot.AddMessageToChatHistory | src/chatbot/chatbot.cpp:74-95 | push, erase of the oldest past ten, and the repositioning loop leave the history the step function gives |
| ChatbotApp.Chatbot.SendMessage | src/chatbot/chatbot.cpp:63-72 | the screen sends as the step function does; the conversation grows by what was said |
| ChatbotApp.Chatbot.HandleEvent | src/chatbot/chatbot.cpp:30-51 | the screen steps as the step function does and its history keeps showing the last ten messages |
| SettingsApp.LabelsShowFlags | src/settings/settings.cpp:118-134 | a label reads ON exactly when its flag is set; labels and colours each determine the flag |
| SettingsApp.ControlsExclusive | src/settings/settings.cpp:86-99 | the controls do not overlap: a click acts on a control exactly when the control's bounds hold the pointer |
| SettingsApp.SettingsStep | src/settings/settings.cpp:81-102 | an event makes at most one callback call, keeps the earlier calls, and binds or unbinds nothing |
| SettingsApp.InitialState | src/settings/settings.cpp:8-62 | metric on, low power off, empty password, "Metric System: ON" and "Low Power Mode: OFF", no callback bound |
| SettingsApp.MetricToggled | src/settings/settings.cpp:118-125 | the metric flag flips, label and colour stay in agreement, and a bound callback alone is told the new value |
| SettingsApp.LowPowerToggled | src/settings/settings.cpp:127-134 | the low-power flag flips, label and colour stay in agreement, and a bound callback alone is told the new value |
| SettingsApp.PasswordReplaced | src/settings/settings.cpp:136-142 | the password becomes "newpassword" whether or not a callback is bound; the flags are kept |
| SettingsApp.TimeAdjusted | src/settings/settings.cpp:144-150 | nothing on the screen changes; the time callback is called with 12:30:00 exactly when bound |
| SettingsApp.DateAdjusted | src/settings/settings.cpp:152-157 | nothing on the screen changes; the date callback is called with the fixed timestamp exactly when bound |
| SettingsApp.ControlApplied | src/settings/settings.cpp:86-99 | one control's action makes at most one callback call, after the earlier ones, and binds nothing |
| SettingsApp.StepKeepsInv | src/settings/settings.cpp:81-102 | every event keeps labels and colours in agreement with the flags |
| SettingsApp.ToggleOutcome | src/settings/settings.cpp:118-134 | a toggle flips exactly its flag and calls its callback with the new value when one is bound |
| SettingsApp.ToggleTwice | src/settings/settings.cpp:118-134 | toggling twice restores flag, label and colour |
| SettingsApp.ButtonOutcomes | src/settings/settings.cpp:136-157 | the buttons hand out 45000 seconds, 1234567890 and "newpassword", each only to a bound callback; the password changes regardless |
| SettingsApp.ClickActsOnce | src/settings/settings.cpp:86-99 | a click performs the action of the control under the pointer and nothing else |
| SettingsApp.NoticesOnlyWhenBound | src/settings/settings.cpp:122-156 | a callback is called only when it is bound |
| SettingsApp.Settings.constructor | src/settings/settings.cpp:6-79 | the screen starts in the initial state |
| SettingsApp.Settings.ToggleMetricSystem | src/settings/settings.cpp:118-125 | flag, label, colour and callback call as the toggle function gives |
| SettingsApp.Settings.ToggleLowPowerMode | src/settings/settings.cpp:127-134 | flag, label, colour and callback call as the toggle function gives |
| SettingsApp.Settings.ChangePassword | src/settings/settings.cpp:136-142 | the password becomes "newpassword" and the bound callback is told |
| SettingsApp.Settings.AdjustTime | src/settings/settings.cpp:144-150 | the bound callback is told 45000 seconds |
| SettingsApp.Settings.AdjustDate | src/settings/settings.cpp:152-157 | the bound callback is told 1234567890 seconds |
| SettingsApp.Settings.HandleEvent | src/settings/settings.cpp:81-102 | the screen steps as the step function does and keeps its labels in agreement with its flags |
| Shell.AppOrdinal | src/mainwindow/mainwindow.hpp:32-39 | the ordinal is zero exactly for None |
| Shell.AppOfButton | src/mainwindow/mainwindow.cpp:165 | button i switches to the app with ordinal i + 1, never None |
| Shell.AppButtonsDisjoint | src/mainwindow/mainwindow.cpp:147-153 | no point lies on two app buttons |
| Shell.InitialState | src/mainwindow/mainwindow.cpp:7-38 | no app, not protected, not entered, every settings callback bound, and the invariant holds |
| Shell.LockedGate | src/mainwindow/mainwindow.cpp:56-59 | while locked an event reaches only the password prompt: no switch, no screen, no log |
| Shell.PasswordEntry | src/mainwindow/mainwindow.cpp:180-202 | Enter unlocks exactly when the input equals the password; a wrong one clears the input; other text edits it by the shared rule; other events change nothing |
| Shell.PasswordTyped | src/mainwindow/mainwindow.cpp:180-198 | the prompt never changes the app, protection, password or log; it opens only when the input equals the password; non-text events change nothing |
| Shell.PasswordChangedTo | src/mainwindow/mainwindow.cpp:224-230 | the password is stored; protected exactly when non-empty, and then locked with an empty input; app and log kept |
| Shell.RunAppend | src/mainwindow/mainwindow.cpp:55-87 | handling a then b equals handling a + b |
| Shell.TypingWhileLocked | src/mainwindow/mainwindow.cpp:180-197 | while locked, typing appendable characters only extends the input |
| Shell.UnlockByTyping | src/mainwindow/mainwindow.cpp:180-202 | from an empty prompt, typing t and Enter opens the gate exactly when t is the password, and otherwise leaves everything as before; no screen changes |
| Shell.NewPasswordTypable | src/settings/settings.cpp:138 | every character of "newpassword" can be typed at the prompt |
| Shell.PasswordChangeOutcome | src/mainwindow/mainwindow.cpp:224-230 | the window is protected exactly when the new password is non-empty, and is then locked with an empty input; an empty password lifts the protection |
| Shell.AppButtonSelects | src/mainwindow/mainwindow.cpp:162-173 | the first app button under the pointer switches to its app; a click on none keeps the active app |
| Shell.AppButtonClick | src/mainwindow/mainwindow.cpp:162-169 | only the active app can change, and never to None |
| Shell.AppButtonHit | src/mainwindow/mainwindow.cpp:162-169 | a click on button i finds button i |
| Shell.MapIgnoresAppColumn | src/map/map.cpp:80-102 | in a window of at least 250x500 (and below 2^32 either way), a click in the app-button column changes nothing on the map screen |
| Shell.ScreensIgnoreAppColumn | src/settings/settings.cpp:86-99 | a click in the app-button column changes nothing on the chatbot or settings screen |
| Shell.AppButtonClickOnlySwitches | src/mainwindow/mainwindow.cpp:61-86 | in a window of at least 250x500 (and below 2^32 either way), a click on an app button switches app, and the forwarded click does nothing on the new screen |
| Shell.RoutesToActiveApp | src/mainwindow/mainwindow.cpp:68-86 | unlocked, an event goes to the app active after click handling and to no other screen |
| Shell.Forward | src/mainwindow/mainwindow.cpp:68-86 | the active app is kept; every screen other than the active one is unchanged, and the window's own state changes only from the settings screen |
| Shell.Step | src/mainwindow/mainwindow.cpp:55-59 | while locked, the active app and all three screens are unchanged |
| Shell.SettingsPasswordButtonLocks | src/settings/settings.cpp:136-142 | from the settings screen the password button sets "newpassword" and locks the window behind the prompt |
| Shell.ForwardKeepsInv | src/mainwindow/mainwindow.cpp:68-86 | forwarding keeps every screen's invariant and keeps the window's password equal to the settings screen's |
| Shell.StepKeepsInv | src/mainwindow/mainwindow.cpp:55-87 | every event keeps the invariant: protected exactly when a password is set |
| Shell.SettingsPasswordNeedsNotice | src/settings/settings.cpp:136-142 | a settings event that calls no callback leaves the password unchanged |
| Shell.NoticeKeepsPassword | src/settings/settings.cpp:136-142 | the callback call of a settings event announces the new password exactly when it changed it |
| Shell.RunKeepsInv | src/mainwindow/mainwindow.cpp:55-87 | every session keeps the invariant |
| Shell.MainWindow.constructor | src/mainwindow/mainwindow.cpp:7-53 | creates the three screens, binds every settings callback, starts with no app and no protection |
| Shell.MainWindow.SwitchToApp | src/mainwindow/mainwindow.cpp:171-173 | only the active app changes |
| Shell.MainWindow.HandleAppButtonClick | src/mainwindow/mainwindow.cpp:162-169 | the button loop switches to the first app button's app |
| Shell.MainWindow.PromptPassword | src/mainwindow/mainwindow.cpp:175-178 | not entered, input cleared |
| Shell.MainWindow.HandlePasswordInput | src/mainwindow/mainwindow.cpp:180-198 | the gate changes as the password step function gives |
| Shell.MainWindow.OnPasswordChanged | src/mainwindow/mainwindow.cpp:224-230 | stores the password, protects exactly when it is non-empty, then prompts |
| Shell.MainWindow.OnTimeChanged | src/mainwindow/mainwindow.cpp:204-207 | logs the new time in seconds |
| Shell.MainWindow.OnDateChanged | src/mainwindow/mainwindow.cpp:209-212 | logs the new date in seconds |
| Shell.MainWindow.OnMetricSystemChanged | src/mainwindow/mainwindow.cpp:214-217 | logs "Metric system enabled" or "Metric system disabled" |
| Shell.MainWindow.OnLowPowerModeChanged | src/mainwindow/mainwindow.cpp:219-222 | logs "Low power mode enabled" or "Low power mode disabled" |
| Shell.MainWindow.Deliver | src/mainwindow/mainwindow.cpp:34-38 | each bound callback forwards to the window's handler |
| Shell.MainWindow.ForwardToMap | src/mainwindow/mainwindow.cpp:69-71 | the map screen steps and the whole state keeps the invariant |
| Shell.MainWindow.ForwardToChatbot | src/mainwindow/mainwindow.cpp:72-74 | the chatbot screen steps and the whole state keeps the invariant |
| Shell.MainWindow.ForwardToSettings | src/mainwindow/mainwindow.cpp:81-83 | the settings screen steps, the window answers its callback call, and the invariant is kept |
| Shell.MainWindow.ForwardEvent | src/mainwindow/mainwindow.cpp:68-86 | the event goes to the active screen; the database and camera branches change nothing here |
| Shell.MainWindow.HandleEvent | src/mainwindow/mainwindow.cpp:55-87 | the gate, the app-button click and the forwarding, as the step function gives, with the invariant kept |

## Left out

- Drawing, fonts, textures and sprites. All `draw` methods are left out. So is font loading, including the "Failed to load font" lines it can write to the console.
- `Map::updateMapView` is left out: it only fits and centres the sprite in floating point. The panel width `width * 0.2f` is the exact real, with no float rounding.
- GDAL itself. `GDALAllRegister` and `GDALDestroyDriverManager` are left out. `GDALOpen` is a lookup in a fixed map of files, and `RasterIO` is the read function on that dataset.
- MapApp.ChannelByte: the cast of `v * 255` to an 8-bit channel is undefined in C++ outside 0..255. The model gives that case 0. No property depends on the value.
- ChatbotApp.LineY: the float conversion of the 64-bit unsigned y is left out. A wrapped value is kept exact rather than rounded to the nearest float.
- Shell.MainWindow.OnTimeChanged: the seconds are printed as the exact integer. The source prints the float from `sf::Time::asSeconds` with default stream precision. That output matches for 45000 but not for 1234567890, which the source shows as "1.23457e+09".
- Shell.MainWindow.OnDateChanged: same as OnTimeChanged. `sf::seconds(1234567890)` also passes through a 32-bit float, so the source hands on 1234567936, not 1234567890.
- Shell.OnNotice: the same integer printing as the two callbacks above.
- The handlers read the pointer position with `sf::Mouse::getPosition` while they run. Here that position is the one the mouse-press event carries.
- The database and camera screens are not part of this model. Their branches of the main window's routing change nothing here.
- The main loop, the clock and weather text (`updateTimeAndWeather`, `Weather`) and `main.cpp`: these are I/O, wall-clock time and randomness.
- Settings callbacks are answered after the settings event rather than inside it. The C++ calls each callback as the last action of its method, so the resulting states are equal.
- `m_shouldExit`: no code sets the flag. The chatbot and settings exit buttons only log, and the map's exit branch (src/map/map.cpp:84-86) does nothing.
- Integer widths elsewhere (loop counters, raster sizes) are unbounded. The unsigned `getSize() - 60` of the map's layers and search buttons (MapApp.Less60) and the chat line position (ChatbotApp.LineY) are modelled with their wrap-around. The chat input box and input text positions (src/chatbot/chatbot.cpp:12-13, 21) wrap the same way but are used only for drawing, so they are left out.
- ChatbotApp.LineY: the window height is fixed when the screen is built. The source re-reads `getSize()` on every call (src/chatbot/chatbot.cpp:81, 93), and the window is resizable, so after a resize the source places lines from the new height.
- MapApp.Map.ToggleLayersPanel: the window width is fixed when the screen is built. The source re-reads `getSize()` when it moves the panel (src/map/map.cpp:202, 206), so after a resize the panel goes to the new edge while the model keeps the old one. Likewise, the map's control buttons keep the position they got at construction, in the source as in the model.
- SettingsApp.Settings.AdjustDate: the timestamp handed on is the exact 1234567890. `sf::seconds` takes a 32-bit float, which rounds it to 1234567936.
- SettingsApp.ButtonOutcomes: the same exact 1234567890 for the date button, where the source's float gives 1234567936. 45000 is exact in a float.
- MapApp.Rendered: its own contract states only the image size. What each pixel shows is stated by MapApp.AsWrittenPixelReads, and by MapApp.Paint for the method.

## Findings

| source | as written | input that shows it | evidently intended | confidence | as-written member | corrected member |
|---|---|---|---|---|---|---|
| src/map/map.cpp:163 | `RasterIO` is given pixel, line and band spacing 0, so GDAL fills the buffer band-sequentially, while the loop at 166-173 reads it pixel-interleaved at (y*w+x)*3 + c | a 2x1 raster whose three bands are black at pixel 0 and whose red band is 1.0 at pixel 1: pixel 0 comes out full green | a pixel-interleaved read (pixel spacing 3 floats), so that index (y*w+x)*3 + c holds band c of pixel (x, y) | not executed | MapApp.AsWrittenPaintsGreen | MapApp.IntendedPixelShowsBands |

Further observations the model shows, not claimed as defects:

- The base-layer buttons are placed once, from the closed panel's position (x = width + 10). They never move when the panel opens, so no click inside the window reaches them (MapApp.BaseLayerButtonsOffWindow).
- The secondary-layer buttons likewise sit at negative x (MapApp.SecondaryLayerButtonsOffWindow).
- `Map::toggleSecondaryPanel` has no caller.
- In a window lower than 120 pixels the chat line position wraps around, and the lines are placed far below the window (ChatbotApp.ShortWindowWraps).
