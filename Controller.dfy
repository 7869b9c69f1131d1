/** One iteration of the main loop: potentiometer update, refresh decision,
    VALIDER handling, ANNULER handling, in that order. `Iteration` states it
    on values; the class `Device` runs it on the program's global variables. */
module Controller {
  import opened Buttons
  import opened Selector
  import opened Menu
  import opened Display

  /** The value every shadow copy starts with (a cast of -1), matching no
      screen and no choice. */
  const Sentinel: int := -1

  /** The whole state the loop keeps between iterations. */
  datatype Config = Config(
    state: State,
    mode: int, train: int, diff: int,
    lastState: int, lastMode: int, lastTrain: int, lastDiff: int,
    validatePrev: bool, backPrev: bool)

  /** Power-on values: CHOIX_MODE, DROITIER, REVERS, NORMAL, all shadows at the
      sentinel, both buttons last seen HIGH. */
  const Initial: Config :=
    Config(ChoixMode, 0, 0, 2, Sentinel, Sentinel, Sentinel, Sentinel, HIGH, HIGH)

  /** Raw inputs of one iteration. */
  datatype Input = Input(pot: PotReading, validate: bool, back: bool)

  /** What one iteration produces: the new state and the redraws it issued,
      in order. */
  datatype Outcome = Outcome(next: Config, writes: seq<Screen>)

  /** The text for the current state. */
  function Show(c: Config): Screen
  {
    Render(c.state, c.mode, c.train, c.diff)
  }

  /** The current selection screen's choice differs from its shadow copy. */
  predicate ChoiceStale(c: Config)
  {
    match c.state
    case ChoixMode => c.mode != c.lastMode
    case ChoixEntrainement => c.train != c.lastTrain
    case ChoixDifficulte => c.diff != c.lastDiff
    case _ => false
  }

  /** What is on the display matches the shadows: same screen, and on a
      selection screen the same choice. */
  predicate InSync(c: Config)
  {
    c.lastState == Ord(c.state) && !ChoiceStale(c)
  }

  /** The potentiometer overwrites the choice of the current selection screen
      and nothing else; outside the selection screens it changes nothing. */
  function PotUpdate(c: Config, pot: PotReading): (r: Config)
    ensures r.(mode := c.mode, train := c.train, diff := c.diff) == c
    ensures !IsSelection(c.state) ==> r == c
    ensures c.state == ChoixMode ==> r.mode == SelectMode(pot) && r.train == c.train && r.diff == c.diff
    ensures c.state == ChoixEntrainement ==> r.train == SelectTrain(pot) && r.mode == c.mode && r.diff == c.diff
    ensures c.state == ChoixDifficulte ==> r.diff == SelectDiff(pot) && r.mode == c.mode && r.train == c.train
  {
    match c.state
    case ChoixMode => c.(mode := SelectMode(pot))
    case ChoixEntrainement => c.(train := SelectTrain(pot))
    case ChoixDifficulte => c.(diff := SelectDiff(pot))
    case _ => c
  }

  /** Result of the refresh decision. */
  datatype Refreshed = Refreshed(config: Config, redraw: bool)

  /** The refresh decision: redraw iff the screen or the current selection
      screen's choice differs from its shadow; afterwards the display is in
      sync, and only the shadows involved were touched. */
  function Refresh(c: Config): (r: Refreshed)
    ensures r.redraw <==> !InSync(c)
    ensures InSync(r.config)
    ensures r.config.(lastState := c.lastState, lastMode := c.lastMode,
                      lastTrain := c.lastTrain, lastDiff := c.lastDiff) == c
    ensures c.state != ChoixMode ==> r.config.lastMode == c.lastMode
    ensures c.state != ChoixEntrainement ==> r.config.lastTrain == c.lastTrain
    ensures c.state != ChoixDifficulte ==> r.config.lastDiff == c.lastDiff
  {
    var stateChanged := Ord(c.state) != c.lastState;
    var c1 := c.(lastState := Ord(c.state));
    if c.state == ChoixMode && c.mode != c.lastMode then
      Refreshed(c1.(lastMode := c.mode), true)
    else if c.state == ChoixEntrainement && c.train != c.lastTrain then
      Refreshed(c1.(lastTrain := c.train), true)
    else if c.state == ChoixDifficulte && c.diff != c.lastDiff then
      Refreshed(c1.(lastDiff := c.diff), true)
    else
      Refreshed(c1, stateChanged)
  }

  /** VALIDER handling: it changes only the screen and the button's stored
      level; the screen follows the VALIDER table on a press and stays
      otherwise; a press redraws the new screen once, no press draws nothing. */
  function ValidatePhase(c: Config, raw: bool): (o: Outcome)
    ensures o.next.(state := c.state, validatePrev := c.validatePrev) == c
    ensures o.next.validatePrev == raw
    ensures o.next.state == if IsPress(c.validatePrev, raw) then OnValidate(c.state) else c.state
    ensures |o.writes| == if IsPress(c.validatePrev, raw) then 1 else 0
    ensures forall k :: 0 <= k < |o.writes| ==> o.writes[k] == Show(o.next)
  {
    if IsPress(c.validatePrev, raw) then
      var n := c.(validatePrev := raw, state := OnValidate(c.state));
      Outcome(n, [Show(n)])
    else
      Outcome(c.(validatePrev := raw), [])
  }

  /** ANNULER handling: it changes only the screen and the button's stored
      level; the screen follows the ANNULER table on a press and stays
      otherwise; a press redraws the new screen once, no press draws nothing. */
  function BackPhase(c: Config, raw: bool): (o: Outcome)
    ensures o.next.(state := c.state, backPrev := c.backPrev) == c
    ensures o.next.backPrev == raw
    ensures o.next.state == if IsPress(c.backPrev, raw) then OnBack(c.state) else c.state
    ensures |o.writes| == if IsPress(c.backPrev, raw) then 1 else 0
    ensures forall k :: 0 <= k < |o.writes| ==> o.writes[k] == Show(o.next)
  {
    if IsPress(c.backPrev, raw) then
      var n := c.(backPrev := raw, state := OnBack(c.state));
      Outcome(n, [Show(n)])
    else
      Outcome(c.(backPrev := raw), [])
  }

  /** One loop iteration. Each press redraws unconditionally, without
      touching the shadow of the screen. Buttons never touch the choices. */
  function Iteration(c: Config, pot: PotReading, validateRaw: bool, backRaw: bool): (o: Outcome)
    ensures o.next.mode == PotUpdate(c, pot).mode
    ensures o.next.train == PotUpdate(c, pot).train
    ensures o.next.diff == PotUpdate(c, pot).diff
    ensures o.next.validatePrev == validateRaw && o.next.backPrev == backRaw
    ensures |o.writes| == (if InSync(PotUpdate(c, pot)) then 0 else 1)
                        + (if IsPress(c.validatePrev, validateRaw) then 1 else 0)
                        + (if IsPress(c.backPrev, backRaw) then 1 else 0)
  {
    var rf := Refresh(PotUpdate(c, pot));
    var v := ValidatePhase(rf.config, validateRaw);
    var b := BackPhase(v.next, backRaw);
    Outcome(b.next, (if rf.redraw then [Show(rf.config)] else []) + v.writes + b.writes)
  }

  /** Iterations over a sequence of inputs; the redraws are concatenated. */
  function Run(c: Config, ins: seq<Input>): (o: Outcome)
    decreases |ins|
  {
    if ins == [] then Outcome(c, [])
    else
      var o1 := Iteration(c, ins[0].pot, ins[0].validate, ins[0].back);
      var o2 := Run(o1.next, ins[1..]);
      Outcome(o2.next, o1.writes + o2.writes)
  }

  /** The first iteration after power-on always redraws, because every
      shadow holds the sentinel. */
  lemma FirstIterationRedraws(pot: PotReading, validateRaw: bool, backRaw: bool)
    ensures Iteration(Initial, pot, validateRaw, backRaw).writes != []
    ensures Iteration(Initial, pot, validateRaw, backRaw).writes[0] == Render(ChoixMode, SelectMode(pot), 0, 2)
  {
  }

  /** An iteration without a press keeps the screen, leaves the display in
      sync, and redraws once exactly when the potentiometer update left it
      out of sync, never otherwise. */
  lemma QuietIteration(c: Config, pot: PotReading, validateRaw: bool, backRaw: bool)
    requires !IsPress(c.validatePrev, validateRaw) && !IsPress(c.backPrev, backRaw)
    ensures Iteration(c, pot, validateRaw, backRaw).next.state == c.state
    ensures InSync(Iteration(c, pot, validateRaw, backRaw).next)
    ensures Iteration(c, pot, validateRaw, backRaw).writes
         == if InSync(PotUpdate(c, pot)) then [] else [Show(PotUpdate(c, pot))]
  {
  }

  /** Two consecutive iterations without a press, where the second leaves
      the relevant choice as it was: the second issues no redraw. */
  lemma NoRedundantRedraw(c: Config, i1: Input, i2: Input)
    requires !IsPress(c.validatePrev, i1.validate) && !IsPress(c.backPrev, i1.back)
    requires !IsPress(i1.validate, i2.validate) && !IsPress(i1.back, i2.back)
    requires var n := Iteration(c, i1.pot, i1.validate, i1.back).next;
             PotUpdate(n, i2.pot) == n
    ensures Iteration(Iteration(c, i1.pot, i1.validate, i1.back).next, i2.pot, i2.validate, i2.back).writes == []
  {
  }

  /** In particular, polling twice with the same reading and no press
      redraws at most once, in the first iteration. */
  lemma SameReadingNoRedraw(c: Config, pot: PotReading, v1: bool, b1: bool, v2: bool, b2: bool)
    requires !IsPress(c.validatePrev, v1) && !IsPress(c.backPrev, b1)
    requires !IsPress(v1, v2) && !IsPress(b1, b2)
    ensures Iteration(Iteration(c, pot, v1, b1).next, pot, v2, b2).writes == []
  {
  }

  /** A press redraws without updating the screen's shadow, so an iteration
      whose presses change the screen is always followed by a second redraw
      of the new screen in the next iteration. */
  lemma ScreenChangeRedrawsAgain(c: Config, i1: Input, i2: Input)
    requires Iteration(c, i1.pot, i1.validate, i1.back).next.state != c.state
    ensures var n := Iteration(c, i1.pot, i1.validate, i1.back).next;
            var o := Iteration(n, i2.pot, i2.validate, i2.back);
            o.writes != [] && o.writes[0] == Show(PotUpdate(n, i2.pot))
  {
  }

  /** Both buttons pressed in one iteration: VALIDER acts first, then
      ANNULER on the screen VALIDER produced, each with its own redraw. */
  lemma BothPressed(c: Config, pot: PotReading, validateRaw: bool, backRaw: bool)
    requires IsPress(c.validatePrev, validateRaw) && IsPress(c.backPrev, backRaw)
    ensures var o := Iteration(c, pot, validateRaw, backRaw);
            o.next.state == OnBack(OnValidate(c.state)) &&
            o.writes[|o.writes| - 2] == Show(o.next.(state := OnValidate(c.state))) &&
            o.writes[|o.writes| - 1] == Show(o.next)
  {
  }

  /** Quitting from QUIT_CONFIRM returns to CHOIX_MODE with all three
      choices as they were before the session, also when ANNULER is pressed
      in the same iteration (it does nothing in CHOIX_MODE). */
  lemma QuitKeepsChoices(c: Config, pot: PotReading, validateRaw: bool, backRaw: bool)
    requires c.state == QuitConfirm
    requires IsPress(c.validatePrev, validateRaw)
    ensures var n := Iteration(c, pot, validateRaw, backRaw).next;
            n.state == ChoixMode && n.mode == c.mode && n.train == c.train && n.diff == c.diff
  {
  }

  /** On a selection screen whose shadow is current, the choice equals its
      shadow copy. Every iteration keeps this. */
  predicate ShadowFaithful(c: Config)
  {
    c.lastState == Ord(c.state) ==> !ChoiceStale(c)
  }

  /** The display shows `d`, and `d` is the text for the current state. */
  predicate Displays(c: Config, d: Screen)
  {
    d == Show(c) && ShadowFaithful(c)
  }

  /** The last redraw of a sequence, or `d` when there is none. */
  function LastOr(writes: seq<Screen>, d: Screen): Screen
  {
    if writes == [] then d else writes[|writes| - 1]
  }

  /** Skipping a redraw never leaves stale text: if the display was current
      before an iteration, it is current after it. */
  lemma IterationKeepsDisplay(c: Config, d: Screen, pot: PotReading, validateRaw: bool, backRaw: bool)
    requires Displays(c, d)
    ensures var o := Iteration(c, pot, validateRaw, backRaw);
            Displays(o.next, LastOr(o.writes, d))
  {
  }

  /** Over any run of iterations after setup, which draws the initial
      screen, the display always shows the text for the current state. */
  lemma {:induction false} RunKeepsDisplay(c: Config, d: Screen, ins: seq<Input>)
    requires Displays(c, d)
    ensures Displays(Run(c, ins).next, LastOr(Run(c, ins).writes, d))
    decreases |ins|
  {
    if ins != [] {
      var o1 := Iteration(c, ins[0].pot, ins[0].validate, ins[0].back);
      IterationKeepsDisplay(c, d, ins[0].pot, ins[0].validate, ins[0].back);
      var d1 := LastOr(o1.writes, d);
      RunKeepsDisplay(o1.next, d1, ins[1..]);
      var o2 := Run(o1.next, ins[1..]);
      assert LastOr(o1.writes + o2.writes, d) == LastOr(o2.writes, d1);
    }
  }

  /** From power-on, the display never lags behind the state. */
  lemma DisplayNeverStale(ins: seq<Input>)
    ensures LastOr(Run(Initial, ins).writes, Show(Initial)) == Show(Run(Initial, ins).next)
  {
    RunKeepsDisplay(Initial, Show(Initial), ins);
  }

  /** The first input of a run is one iteration; the rest runs after it. */
  lemma RunStep(c: Config, ins: seq<Input>, k: int)
    requires 0 <= k < |ins|
    ensures var o := Iteration(c, ins[k].pot, ins[k].validate, ins[k].back);
            Run(c, ins[k..]).next == Run(o.next, ins[k + 1..]).next
  {
  }

  /** Configure a session, one VALIDER click per screen: knob at 0 on
      CHOIX_MODE (DROITIER), at 512 on CHOIX_ENTRAINEMENT (SMASH), at 900 on
      CHOIX_DIFFICULTE (EXTREME), then confirm. */
  const ConfigureInputs: seq<Input> := [
    Input(0, LOW, HIGH),      // CHOIX_MODE: DROITIER, VALIDER pressed
    Input(512, HIGH, HIGH),   // CHOIX_ENTRAINEMENT: SMASH, released
    Input(512, LOW, HIGH),    // VALIDER
    Input(900, HIGH, HIGH),   // CHOIX_DIFFICULTE: EXTREME, released
    Input(900, LOW, HIGH),    // VALIDER
    Input(900, HIGH, HIGH),   // CONFIRMATION, released
    Input(900, LOW, HIGH)     // VALIDER
  ]

  /** The configuration run ends in EN_TRAINEMENT holding the choices made on
      each selection screen. */
  lemma ConfigureSession()
    ensures var n := Run(Initial, ConfigureInputs).next;
            n.state == EnTrainement && n.mode == 0 && n.train == 2 && n.diff == 4
  {
    var ins := ConfigureInputs;
    var c0 := Initial;
    var c1 := Iteration(c0, ins[0].pot, ins[0].validate, ins[0].back).next;
    assert c1.state == ChoixEntrainement && c1.mode == 0;
    var c2 := Iteration(c1, ins[1].pot, ins[1].validate, ins[1].back).next;
    assert c2.state == ChoixEntrainement && c2.train == 2;
    var c3 := Iteration(c2, ins[2].pot, ins[2].validate, ins[2].back).next;
    assert c3.state == ChoixDifficulte && c3.train == 2;
    var c4 := Iteration(c3, ins[3].pot, ins[3].validate, ins[3].back).next;
    assert c4.state == ChoixDifficulte && c4.diff == 4;
    var c5 := Iteration(c4, ins[4].pot, ins[4].validate, ins[4].back).next;
    assert c5.state == Confirmation;
    var c6 := Iteration(c5, ins[5].pot, ins[5].validate, ins[5].back).next;
    assert c6.state == Confirmation;
    var c7 := Iteration(c6, ins[6].pot, ins[6].validate, ins[6].back).next;
    assert c7.state == EnTrainement && c7.mode == 0 && c7.train == 2 && c7.diff == 4;
    RunStep(c0, ins, 0);
    RunStep(c1, ins, 1);
    RunStep(c2, ins, 2);
    RunStep(c3, ins, 3);
    RunStep(c4, ins, 4);
    RunStep(c5, ins, 5);
    RunStep(c6, ins, 6);
    assert ins[0..] == ins;
  }

  /** Pause, ask to quit and quit, one click each with the knob at 0:
      ANNULER, ANNULER, VALIDER. */
  const QuitInputs: seq<Input> := [
    Input(0, HIGH, LOW),      // EN_TRAINEMENT: ANNULER pressed
    Input(0, HIGH, HIGH),     // PAUSE, released
    Input(0, HIGH, LOW),      // ANNULER
    Input(0, HIGH, HIGH),     // QUIT_CONFIRM, released
    Input(0, LOW, HIGH)       // VALIDER
  ]

  /** From any session in EN_TRAINEMENT with ANNULER released, the quit
      run returns to CHOIX_MODE with the choices of the session kept. */
  lemma QuitSession(c: Config)
    requires c.state == EnTrainement && c.backPrev == HIGH
    ensures var n := Run(c, QuitInputs).next;
            n.state == ChoixMode && n.mode == c.mode && n.train == c.train && n.diff == c.diff
  {
    var ins := QuitInputs;
    var c1 := Iteration(c, ins[0].pot, ins[0].validate, ins[0].back).next;
    assert c1.state == Pause;
    var c2 := Iteration(c1, ins[1].pot, ins[1].validate, ins[1].back).next;
    assert c2.state == Pause;
    var c3 := Iteration(c2, ins[2].pot, ins[2].validate, ins[2].back).next;
    assert c3.state == QuitConfirm;
    var c4 := Iteration(c3, ins[3].pot, ins[3].validate, ins[3].back).next;
    assert c4.state == QuitConfirm;
    var c5 := Iteration(c4, ins[4].pot, ins[4].validate, ins[4].back).next;
    assert c5.state == ChoixMode && c5.mode == c.mode && c5.train == c.train && c5.diff == c.diff;
    RunStep(c, ins, 0);
    RunStep(c1, ins, 1);
    RunStep(c2, ins, 2);
    RunStep(c3, ins, 3);
    RunStep(c4, ins, 4);
    assert ins[0..] == ins;
  }

  /** The VALIDER levels read over a run. */
  function ValidateLevels(ins: seq<Input>): (l: seq<bool>)
    ensures |l| == |ins|
    decreases |ins|
  {
    if ins == [] then [] else [ins[0].validate] + ValidateLevels(ins[1..])
  }

  /** The ANNULER levels read over a run. */
  function BackLevels(ins: seq<Input>): (l: seq<bool>)
    ensures |l| == |ins|
    decreases |ins|
  {
    if ins == [] then [] else [ins[0].back] + BackLevels(ins[1..])
  }

  /** Whether each iteration of a run saw a VALIDER press. */
  function ValidatePresses(c: Config, ins: seq<Input>): (r: seq<bool>)
    ensures |r| == |ins|
    decreases |ins|
  {
    if ins == [] then []
    else
      [IsPress(c.validatePrev, ins[0].validate)]
        + ValidatePresses(Iteration(c, ins[0].pot, ins[0].validate, ins[0].back).next, ins[1..])
  }

  /** Whether each iteration of a run saw an ANNULER press. */
  function BackPresses(c: Config, ins: seq<Input>): (r: seq<bool>)
    ensures |r| == |ins|
    decreases |ins|
  {
    if ins == [] then []
    else
      [IsPress(c.backPrev, ins[0].back)]
        + BackPresses(Iteration(c, ins[0].pot, ins[0].validate, ins[0].back).next, ins[1..])
  }

  /** The loop polls VALIDER exactly as a run of isButtonPressed over the
      levels it reads, starting from the stored level. */
  lemma {:induction false} LoopValidatePresses(c: Config, ins: seq<Input>)
    ensures ValidatePresses(c, ins) == Presses(c.validatePrev, ValidateLevels(ins))
    decreases |ins|
  {
    if ins != [] {
      var n := Iteration(c, ins[0].pot, ins[0].validate, ins[0].back).next;
      LoopValidatePresses(n, ins[1..]);
      assert ValidateLevels(ins)[1..] == ValidateLevels(ins[1..]);
    }
  }

  /** The same for ANNULER. */
  lemma {:induction false} LoopBackPresses(c: Config, ins: seq<Input>)
    ensures BackPresses(c, ins) == Presses(c.backPrev, BackLevels(ins))
    decreases |ins|
  {
    if ins != [] {
      var n := Iteration(c, ins[0].pot, ins[0].validate, ins[0].back).next;
      LoopBackPresses(n, ins[1..]);
      assert BackLevels(ins)[1..] == BackLevels(ins[1..]);
    }
  }

  /** Over any run of the loop, each button's reported presses number the
      HIGH-to-LOW transitions of its level trace, which starts with the
      stored level. */
  lemma LoopPressCounts(c: Config, ins: seq<Input>)
    ensures Count(ValidatePresses(c, ins)) == Falls([c.validatePrev] + ValidateLevels(ins))
    ensures Count(BackPresses(c, ins)) == Falls([c.backPrev] + BackLevels(ins))
  {
    LoopValidatePresses(c, ins);
    LoopBackPresses(c, ins);
    PressesCountFalls(c.validatePrev, ValidateLevels(ins));
    PressesCountFalls(c.backPrev, BackLevels(ins));
  }

  /** The program's global variables and the loop body. */
  class Device {
    var state: State
    var currentMode: int
    var currentTrain: int
    var currentDiff: int
    var lastDisplayedState: int
    var lastMode: int
    var lastTrain: int
    var lastDiff: int
    const validateButton: Button
    const backButton: Button

    /** The two buttons keep separate previous levels. */
    ghost predicate Valid()
      reads this
    {
      validateButton != backButton
    }

    /** The variables as a value. */
    ghost function Snapshot(): Config
      reads this, validateButton, backButton
    {
      Config(state, currentMode, currentTrain, currentDiff,
             lastDisplayedState, lastMode, lastTrain, lastDiff,
             validateButton.prev, backButton.prev)
    }

    /** The initialisers of the globals. */
    constructor ()
      ensures Valid() && Snapshot() == Initial
      ensures fresh(validateButton) && fresh(backButton)
    {
      state := ChoixMode;
      currentMode, currentTrain, currentDiff := 0, 0, 2;
      lastDisplayedState, lastMode, lastTrain, lastDiff := Sentinel, Sentinel, Sentinel, Sentinel;
      validateButton := new Button();
      backButton := new Button();
    }

    /** The potentiometer switch of loop(). */
    method ReadPot(pot: PotReading)
      modifies this
      ensures Snapshot() == PotUpdate(old(Snapshot()), pot)
    {
      match state {
        case ChoixMode => currentMode := SelectMode(pot);
        case ChoixEntrainement => currentTrain := SelectTrain(pot);
        case ChoixDifficulte => currentDiff := SelectDiff(pot);
        case _ =>
      }
    }

    /** The refresh decision of loop(), with the redraw it may issue. */
    method RefreshDisplay() returns (writes: seq<Screen>)
      modifies this
      ensures Snapshot() == Refresh(old(Snapshot())).config
      ensures writes == if Refresh(old(Snapshot())).redraw then [Show(Snapshot())] else []
    {
      var needUpdate := false;
      if Ord(state) != lastDisplayedState {
        needUpdate := true;
        lastDisplayedState := Ord(state);
      }
      if state == ChoixMode && currentMode != lastMode {
        needUpdate := true;
        lastMode := currentMode;
      } else if state == ChoixEntrainement && currentTrain != lastTrain {
        needUpdate := true;
        lastTrain := currentTrain;
      } else if state == ChoixDifficulte && currentDiff != lastDiff {
        needUpdate := true;
        lastDiff := currentDiff;
      }
      writes := if needUpdate then [Render(state, currentMode, currentTrain, currentDiff)] else [];
    }

    /** The VALIDER block of loop(). */
    method HandleValidate(raw: bool) returns (writes: seq<Screen>)
      requires Valid()
      modifies validateButton, this
      ensures Snapshot() == ValidatePhase(old(Snapshot()), raw).next
      ensures writes == ValidatePhase(old(Snapshot()), raw).writes
    {
      var pressed := validateButton.IsPressed(raw);
      writes := [];
      if pressed {
        state := OnValidate(state);
        writes := [Render(state, currentMode, currentTrain, currentDiff)];
      }
    }

    /** The ANNULER block of loop(). */
    method HandleBack(raw: bool) returns (writes: seq<Screen>)
      requires Valid()
      modifies backButton, this
      ensures Snapshot() == BackPhase(old(Snapshot()), raw).next
      ensures writes == BackPhase(old(Snapshot()), raw).writes
    {
      var pressed := backButton.IsPressed(raw);
      writes := [];
      if pressed {
        state := OnBack(state);
        writes := [Render(state, currentMode, currentTrain, currentDiff)];
      }
    }

    /** The body of loop(), given the potentiometer reading and the raw
        levels of VALIDER and ANNULER; returns the redraws issued, in order. */
    method Step(pot: PotReading, validateRaw: bool, backRaw: bool) returns (writes: seq<Screen>)
      requires Valid()
      modifies this, validateButton, backButton
      ensures Valid()
      ensures Snapshot() == Iteration(old(Snapshot()), pot, validateRaw, backRaw).next
      ensures writes == Iteration(old(Snapshot()), pot, validateRaw, backRaw).writes
    {
      ReadPot(pot);
      var w1 := RefreshDisplay();
      var w2 := HandleValidate(validateRaw);
      var w3 := HandleBack(backRaw);
      writes := w1 + w2 + w3;
    }
  }
}
