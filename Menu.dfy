/** The menu/session state machine: the seven screens and the two
    transition tables applied on a VALIDER press and on an ANNULER press. */
module Menu {

  /** The screens, in the order of their declaration (their ordinals 0..6). */
  datatype State =
    | ChoixMode
    | ChoixEntrainement
    | ChoixDifficulte
    | Confirmation
    | EnTrainement
    | Pause
    | QuitConfirm

  /** The enumerator value of a screen; distinct screens have distinct
      ordinals, and the sentinel -1 is none of them. */
  function Ord(s: State): (n: int)
    ensures 0 <= n <= 6
  {
    match s
    case ChoixMode => 0
    case ChoixEntrainement => 1
    case ChoixDifficulte => 2
    case Confirmation => 3
    case EnTrainement => 4
    case Pause => 5
    case QuitConfirm => 6
  }

  /** The screens on which the potentiometer sets a choice. */
  predicate IsSelection(s: State)
  {
    s == ChoixMode || s == ChoixEntrainement || s == ChoixDifficulte
  }

  /** The screens of a running session. */
  predicate InSession(s: State)
  {
    s == EnTrainement || s == Pause || s == QuitConfirm
  }

  /** VALIDER: forward through the configuration chain into the session,
      and out of the session from QUIT_CONFIRM; no effect in EN_TRAINEMENT
      and PAUSE, which fall into the switch's default. */
  function OnValidate(s: State): (r: State)
    ensures Ord(s) < Ord(EnTrainement) ==> Ord(r) == Ord(s) + 1
    ensures s == QuitConfirm ==> r == ChoixMode
    ensures s == EnTrainement || s == Pause ==> r == s
  {
    match s
    case ChoixMode => ChoixEntrainement
    case ChoixEntrainement => ChoixDifficulte
    case ChoixDifficulte => Confirmation
    case Confirmation => EnTrainement
    case QuitConfirm => ChoixMode
    case _ => s
  }

  /** ANNULER: one step back through the configuration chain (none from
      CHOIX_MODE), and around the cycle EN_TRAINEMENT, PAUSE, QUIT_CONFIRM
      inside the session. */
  function OnBack(s: State): (r: State)
    ensures 0 < Ord(s) < Ord(EnTrainement) ==> Ord(r) == Ord(s) - 1
    ensures s == ChoixMode ==> r == s
    ensures InSession(s) ==> InSession(r)
    ensures InSession(s) ==> Ord(r) - Ord(EnTrainement) == (Ord(s) - Ord(EnTrainement) + 1) % 3
  {
    match s
    case ChoixEntrainement => ChoixMode
    case ChoixDifficulte => ChoixEntrainement
    case Confirmation => ChoixDifficulte
    case EnTrainement => Pause
    case Pause => QuitConfirm
    case QuitConfirm => EnTrainement
    case _ => s
  }

  /** A screen is determined by its ordinal. */
  lemma OrdInjective(a: State, b: State)
    ensures Ord(a) == Ord(b) ==> a == b
  {
  }

  /** ANNULER undoes VALIDER on the three selection screens. */
  lemma BackUndoesValidate(s: State)
    requires IsSelection(s)
    ensures OnBack(OnValidate(s)) == s
  {
  }

  /** VALIDER undoes ANNULER on the screens after CHOIX_MODE up to
      CONFIRMATION. */
  lemma ValidateUndoesBack(s: State)
    requires s == ChoixEntrainement || s == ChoixDifficulte || s == Confirmation
    ensures OnValidate(OnBack(s)) == s
  {
  }

  /** Only VALIDER on CONFIRMATION enters the session and only VALIDER on
      QUIT_CONFIRM leaves it; ANNULER never crosses between menu and session. */
  lemma SessionBoundary(s: State)
    ensures InSession(OnValidate(s)) != InSession(s) <==> s == Confirmation || s == QuitConfirm
    ensures InSession(OnBack(s)) == InSession(s)
  {
  }

  /** n VALIDER presses. */
  function ValidateN(s: State, n: nat): State
    decreases n
  {
    if n == 0 then s else ValidateN(OnValidate(s), n - 1)
  }

  /** n ANNULER presses. */
  function BackN(s: State, n: nat): State
    decreases n
  {
    if n == 0 then s else BackN(OnBack(s), n - 1)
  }

  /** Four VALIDER presses lead from CHOIX_MODE into the session, and any
      further VALIDER presses leave it in EN_TRAINEMENT. */
  lemma {:induction false} ValidateChain(n: nat)
    requires n >= 4
    ensures ValidateN(ChoixMode, n) == EnTrainement
  {
    assert ValidateN(ChoixMode, 4) == EnTrainement;
    StaysInTraining(n - 4);
    ValidateSplit(ChoixMode, 4, n - 4);
  }

  /** VALIDER presses in EN_TRAINEMENT change nothing. */
  lemma {:induction false} StaysInTraining(n: nat)
    ensures ValidateN(EnTrainement, n) == EnTrainement
  {
    if n > 0 {
      StaysInTraining(n - 1);
    }
  }

  /** m + n VALIDER presses are m presses followed by n presses. */
  lemma {:induction false} ValidateSplit(s: State, m: nat, n: nat)
    ensures ValidateN(s, m + n) == ValidateN(ValidateN(s, m), n)
    decreases m
  {
    if m > 0 {
      ValidateSplit(OnValidate(s), m - 1, n);
    }
  }

  /** Inside the session, n ANNULER presses advance n places around the
      three-screen cycle EN_TRAINEMENT, PAUSE, QUIT_CONFIRM. */
  lemma {:induction false} BackCycle(s: State, n: nat)
    requires InSession(s)
    ensures InSession(BackN(s, n))
    ensures Ord(BackN(s, n)) - Ord(EnTrainement) == (Ord(s) - Ord(EnTrainement) + n) % 3
    decreases n
  {
    if n > 0 {
      BackCycle(OnBack(s), n - 1);
    }
  }

  /** Three ANNULER presses (any multiple of three) from EN_TRAINEMENT return
      to EN_TRAINEMENT. */
  lemma PauseRoundTrip(n: nat)
    ensures BackN(EnTrainement, 3 * n) == EnTrainement
  {
    BackCycle(EnTrainement, 3 * n);
    OrdInjective(BackN(EnTrainement, 3 * n), EnTrainement);
  }

  /** ANNULER, ANNULER, VALIDER from EN_TRAINEMENT quits to CHOIX_MODE;
      VALIDER in PAUSE does not resume. */
  lemma QuitPath()
    ensures OnValidate(BackN(EnTrainement, 2)) == ChoixMode
    ensures OnValidate(OnBack(EnTrainement)) == Pause
  {
  }
}
