# Ping-pong trainer: menu, input sampling and display refresh

A Dafny model of the control logic of a ping-pong training device, an
Arduino sketch (`code.c++`). The user picks a handedness, a training type and
a difficulty on a 16x2 character display with a potentiometer and two
push buttons, VALIDER and ANNULER, then starts a session that can be paused
and quit. The model covers:

- `Buttons` — edge detection of `isButtonPressed`: a press is a HIGH-to-LOW
  transition of the raw level; the stored previous level always becomes the
  raw level. `Button` is a class whose `prev` field is the reference
  parameter of the source.
- `Selector` — the potentiometer mapping: the 512 threshold for the
  handedness and `map(raw, 0, 1023, 0, k)` = `raw * k / 1023` for the
  training type (k = 4) and the difficulty (k = 5). There is no clamp, so a
  full-scale reading gives 4 and 5, one past the last enumerator. Choices are
  kept as integer ordinals so that this case stays visible.
- `Menu` — the seven screens and the VALIDER and ANNULER switches, exactly as
  written, including the no-op cases that fall into `default`.
- `Display` — `displayState` as a pure `Render` from the screen and the three
  choices to the two lines of text.
- `Controller` — one iteration of `loop()`: potentiometer update, refresh
  decision against the shadow copies (which start at the sentinel -1), then
  VALIDER, then ANNULER, each press followed by an unconditional redraw.
  `Iteration` states it on values and `Run` chains iterations; the class
  `Device` holds the globals and its `Step` method runs the loop body.
  `Step` is proved to produce exactly `Iteration`'s new state and redraws.

Main results: presses counted over any level trace, and over the polls of
any run of the loop, equal its falling edges; every ordinal is selectable
and the least reading selecting it is known; the exact transition tables and
derived sequences (four VALIDERs start a session, ANNULER moves around the
three-screen cycle EN_TRAINEMENT, PAUSE, QUIT_CONFIRM); the refresh step
redraws exactly when the screen or the relevant choice differs from its
shadow copy, and every press also redraws; two
iterations without a press and with the same reading redraw at most once,
and, over any run from power-on, skipping a redraw never leaves stale text
on the display.

Notable behaviour of the code, which the model keeps:

- The display texts are French ("Mode:", "Droitier", "Commencer ?",
  "Valider/Annuler", ...).
- The potentiometer mapping is not clamped: reading 1023 gives Train 4 and
  Diff 5, whose screens then show an empty second line.
- VALIDER in PAUSE does nothing; resuming takes ANNULER twice (PAUSE to
  QUIT_CONFIRM to EN_TRAINEMENT).
- Both buttons pressed in one iteration both act, VALIDER first.
- The refresh decision runs before the buttons, and every press redraws at
  once without updating the screen shadow, so a screen change is drawn twice.

## Model

| member | source | states |
|---|---|---|
| Buttons.Button.constructor | code.c++:35-36 | a button's stored level starts HIGH |
| Buttons.Button.IsPressed | code.c++:51-60 | reports a press iff the raw level is LOW and the stored level was HIGH; the stored level becomes the raw level |
| Buttons.Presses | code.c++:51-60 | polling a button over a level trace gives one report per poll |
| Buttons.PressesAt | code.c++:51-60 | poll i reports a press iff it reads LOW and the level before it was HIGH: never on a held LOW, never on release |
| Buttons.PressesCountFalls | code.c++:51-60 | the number of presses reported over any trace equals the number of HIGH-to-LOW transitions in the trace that starts with the stored level |
| Buttons.NoRepeatWhileHeld | code.c++:51-60 | between two reported presses the button was seen released at least once |
| Buttons.HeldFromStart | code.c++:35-60 | a button held LOW from the first poll on is reported exactly once |
| Selector.MapPot | code.c++:136-139 | map(raw, 0, 1023, 0, k) lies in 0..k, is 0 at reading 0, reaches k at full scale and below k everywhere else |
| Selector.SelectMode | code.c++:133 | handedness is a valid ordinal, DROITIER iff the reading is below 512 |
| Selector.SelectTrain | code.c++:136 | the training ordinal lies in 0..4 |
| Selector.SelectDiff | code.c++:139 | the difficulty ordinal lies in 0..5 |
| Selector.MapPotMonotone | code.c++:136-139 | a larger reading never selects a smaller ordinal |
| Selector.ThresholdSelects | code.c++:136-139 | every ordinal 0..k is selected by some reading, and Threshold gives the least such reading |
| Selector.ModeIsClampedMap | code.c++:133-136 | the 512 threshold equals map(raw, 0, 1023, 0, 2) except at full scale, where the map would give 2 |
| Selector.FullScaleOverflows | code.c++:136-139 | Train is 4 and Diff is 5, one past their enumerations, exactly at reading 1023 |
| Selector.TrainBands | code.c++:136 | the training types start at readings 0, 256, 512, 768 and 1023 |
| Menu.Ord | code.c++:12-20 | screens have ordinals 0..6, none equal to the sentinel |
| Menu.OrdInjective | code.c++:12-20 | distinct screens have distinct ordinals |
| Menu.OnValidate | code.c++:165-184 | VALIDER advances one place through CHOIX_MODE..CONFIRMATION into EN_TRAINEMENT, quits QUIT_CONFIRM to CHOIX_MODE, and leaves EN_TRAINEMENT and PAUSE unchanged |
| Menu.OnBack | code.c++:189-211 | ANNULER goes back one place from CHOIX_ENTRAINEMENT..CONFIRMATION, leaves CHOIX_MODE unchanged, and advances by one modulo 3 around EN_TRAINEMENT, PAUSE, QUIT_CONFIRM |
| Menu.BackUndoesValidate | code.c++:165-211 | ANNULER after VALIDER returns to the same selection screen |
| Menu.ValidateUndoesBack | code.c++:165-211 | VALIDER after ANNULER returns to CHOIX_ENTRAINEMENT, CHOIX_DIFFICULTE or CONFIRMATION |
| Menu.SessionBoundary | code.c++:165-211 | only VALIDER on CONFIRMATION enters and only VALIDER on QUIT_CONFIRM leaves the session; ANNULER never crosses |
| Menu.ValidateChain | code.c++:165-184 | four or more VALIDERs from CHOIX_MODE end in EN_TRAINEMENT |
| Menu.StaysInTraining | code.c++:176-183 | any number of VALIDERs in EN_TRAINEMENT change nothing |
| Menu.BackCycle | code.c++:200-208 | n ANNULERs in the session advance n places modulo 3 around the cycle |
| Menu.PauseRoundTrip | code.c++:200-208 | every multiple of three ANNULERs returns EN_TRAINEMENT to itself |
| Menu.QuitPath | code.c++:179-207 | ANNULER, ANNULER, VALIDER quits from EN_TRAINEMENT; VALIDER in PAUSE does not resume |
| Display.Render | code.c++:62-125 | both lines fit the 16-column display, line 1 is never empty, line 2 is empty exactly for an out-of-range Train or Diff on its screen |
| Display.Line1Determines | code.c++:62-125 | the first line alone identifies the screen |
| Display.RenderReadsRelevantChoice | code.c++:62-125 | only selection screens show a choice, and each shows only its own |
| Display.ChoiceVisible | code.c++:65-95 | distinct valid choices render differently on their screen |
| Display.ConfirmScreensShareLine2 | code.c++:97-123 | CONFIRMATION and QUIT_CONFIRM share line 2 "Valider/Annuler" and differ in line 1 |
| Controller.PotUpdate | code.c++:131-143 | the reading overwrites exactly the current selection screen's choice; other screens leave everything unchanged |
| Controller.Refresh | code.c++:146-160 | redraw iff the screen or the relevant choice differs from its shadow; afterwards the shadows are current and the unrelated ones are untouched |
| Controller.ValidatePhase | code.c++:165-186 | only the screen and the stored level change; the screen follows the VALIDER table on a press; one redraw of the new screen per press |
| Controller.BackPhase | code.c++:189-213 | only the screen and the stored level change; the screen follows the ANNULER table on a press; one redraw of the new screen per press |
| Controller.Iteration | code.c++:127-214 | buttons never change the choices; the stored levels become the raw ones; redraws = one for an out-of-date display plus one per press |
| Controller.FirstIterationRedraws | code.c++:29-32 | the first iteration after power-on always redraws CHOIX_MODE with the handedness just read |
| Controller.QuietIteration | code.c++:146-162 | without a press the screen stays, the display ends in sync, and one redraw happens exactly when the update left it out of sync |
| Controller.NoRedundantRedraw | code.c++:146-162 | two iterations without a press where the second keeps the relevant choice: the second issues no redraw |
| Controller.SameReadingNoRedraw | code.c++:131-162 | two quiet iterations with the same reading: the second issues no redraw |
| Controller.ScreenChangeRedrawsAgain | code.c++:164-213 | an iteration whose presses change the screen is followed by a second redraw of it in the next iteration |
| Controller.BothPressed | code.c++:164-213 | with both buttons pressed, VALIDER acts first and ANNULER then acts on its result; the next-to-last write is the screen VALIDER produced, the last the final screen |
| Controller.LoopValidatePresses | code.c++:165 | the VALIDER presses the loop reports over any run are exactly Presses of the VALIDER levels it reads, starting from the stored level |
| Controller.LoopBackPresses | code.c++:189 | the same for ANNULER |
| Controller.LoopPressCounts | code.c++:165-189 | over any run, each button's reported presses number the falling edges of its level trace |
| Controller.QuitKeepsChoices | code.c++:164-213 | a VALIDER press in QUIT_CONFIRM returns to CHOIX_MODE with the three choices unchanged, whether or not ANNULER is pressed in the same iteration |
| Controller.IterationKeepsDisplay | code.c++:127-214 | if the display showed the current state before an iteration, it does after it |
| Controller.RunKeepsDisplay | code.c++:127-214 | the same over any sequence of iterations |
| Controller.DisplayNeverStale | code.c++:47-214 | from the initial draw of setup on, the last text written is always the text for the current state |
| Controller.ConfigureSession | code.c++:127-214 | choosing with the knob at 0, 512 and 900 and clicking VALIDER four times starts a session with DROITIER, SMASH and EXTREME |
| Controller.QuitSession | code.c++:127-214 | ANNULER, ANNULER, VALIDER clicks from EN_TRAINEMENT, whatever VALIDER's stored level, return to CHOIX_MODE with the session's choices kept |
| Controller.Device.constructor | code.c++:22-36 | the globals start at CHOIX_MODE, DROITIER, REVERS, NORMAL, sentinel shadows, buttons HIGH |
| Controller.Device.ReadPot | code.c++:131-143 | the potentiometer switch updates the globals as PotUpdate says |
| Controller.Device.RefreshDisplay | code.c++:145-162 | the refresh block updates the shadows as Refresh says and redraws iff it says so |
| Controller.Device.HandleValidate | code.c++:164-186 | the VALIDER block changes the globals and redraws as ValidatePhase says |
| Controller.Device.HandleBack | code.c++:188-213 | the ANNULER block changes the globals and redraws as BackPhase says |
| Controller.Device.Step | code.c++:127-214 | one loop() body yields exactly Iteration's new state and redraws |

## Left out

- LiquidCrystal_I2C calls (`init`, `backlight`, `clear`, `setCursor`, `print`): a foreign display driver. A redraw is modelled as the `Screen` pair it writes.
- `setup()` with `Serial.begin` and `pinMode`: pin and serial set-up. Its initial `displayState()` appears only as the starting display content in `Controller.DisplayNeverStale`.
- `digitalRead` and `analogRead`: hardware input. The raw button levels and the reading (0..1023) are parameters of `Step` and `Iteration`.
- `delay(50)` in `isButtonPressed`: blocking timing with no effect on the logic.
- `BTN_POWER`: defined but never configured or read.
- The endless repetition of `loop()`: one iteration is modelled, sequences of iterations are `Controller.Run`.
- Arduino `map` is modelled only in its use here (input range 0..1023 onto 0..k), where its truncating division is Dafny's division.
- The casts `static_cast<State/Mode/Train/Diff>(-1)` (code.c++:29-32) and `static_cast<Train>(4)` at full scale (code.c++:136) produce values outside those enumerations' ranges, which C++ leaves unspecified (C++11/14) or undefined (C++17). The model assumes, as GCC does, that the integer is kept; the first redraw and the empty second line at full scale rest on that assumption.
- Buttons.Button.IsPressed: does not model the 50 ms wait after a press.
