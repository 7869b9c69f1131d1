/** The text shown on the 16x2 character display for each screen
    (displayState), as a pure function of the screen and the three choices. */
module Display {
  import opened Menu

  /** Width of the display (the LCD is declared with 16 columns, 2 rows). */
  const Columns: int := 16

  /** The two lines written by one redraw. */
  datatype Screen = Screen(line1: string, line2: string)

  /** Handedness label: anything but DROITIER (0) reads as "Gaucher". */
  function ModeName(mode: int): string
  {
    if mode == 0 then "Droitier" else "Gaucher"
  }

  /** Training-type label; an ordinal outside the enumeration matches no case
      of the switch and prints nothing. */
  function TrainName(train: int): string
  {
    if train == 0 then "Revers"
    else if train == 1 then "Coup droit"
    else if train == 2 then "Smash"
    else if train == 3 then "General"
    else ""
  }

  /** Difficulty label; out-of-range ordinals print nothing. */
  function DiffName(diff: int): string
  {
    if diff == 0 then "Debutant"
    else if diff == 1 then "Facile"
    else if diff == 2 then "Normal"
    else if diff == 3 then "Difficile"
    else if diff == 4 then "Extreme"
    else ""
  }

  /** What a redraw shows. Both lines fit the display; line 1 is never
      empty; line 2 is empty exactly when a selection screen holds an ordinal
      outside its enumeration. */
  function Render(s: State, mode: int, train: int, diff: int): (r: Screen)
    ensures 0 < |r.line1| <= Columns && |r.line2| <= Columns
    ensures r.line2 == "" <==>
      (s == ChoixEntrainement && !(0 <= train < 4)) || (s == ChoixDifficulte && !(0 <= diff < 5))
  {
    match s
    case ChoixMode => Screen("Mode:", ModeName(mode))
    case ChoixEntrainement => Screen("Entrainement:", TrainName(train))
    case ChoixDifficulte => Screen("Difficulte:", DiffName(diff))
    case Confirmation => Screen("Commencer ?", "Valider/Annuler")
    case EnTrainement => Screen("Entrainement en", "cours...")
    case Pause => Screen("Entrainement", "en pause...")
    case QuitConfirm => Screen("Quitter ?", "Valider/Annuler")
  }

  /** Line 1 alone tells which screen is shown. */
  lemma Line1Determines(s: State, t: State, m: int, tr: int, d: int, m': int, tr': int, d': int)
    ensures Render(s, m, tr, d).line1 == Render(t, m', tr', d').line1 ==> s == t
  {
  }

  /** A screen shows only its own choice: the non-selection screens show no
      choice at all, and each selection screen ignores the other two. */
  lemma RenderReadsRelevantChoice(s: State, m: int, tr: int, d: int, m': int, tr': int, d': int)
    ensures !IsSelection(s) ==> Render(s, m, tr, d) == Render(s, m', tr', d')
    ensures s == ChoixMode ==> Render(s, m, tr, d) == Render(s, m, tr', d')
    ensures s == ChoixEntrainement ==> Render(s, m, tr, d) == Render(s, m', tr, d')
    ensures s == ChoixDifficulte ==> Render(s, m, tr, d) == Render(s, m', tr', d)
  {
  }

  /** Distinct valid choices look different on their selection screen, so a
      change of the relevant choice is visible. */
  lemma ChoiceVisible(m: int, tr: int, d: int, m': int, tr': int, d': int)
    ensures 0 <= m < 2 && 0 <= m' < 2 && m != m' ==>
      Render(ChoixMode, m, tr, d) != Render(ChoixMode, m', tr, d)
    ensures 0 <= tr < 4 && 0 <= tr' < 4 && tr != tr' ==>
      Render(ChoixEntrainement, m, tr, d) != Render(ChoixEntrainement, m, tr', d)
    ensures 0 <= d < 5 && 0 <= d' < 5 && d != d' ==>
      Render(ChoixDifficulte, m, tr, d) != Render(ChoixDifficulte, m, tr, d')
  {
  }

  /** The two confirmation screens share their second line. */
  lemma ConfirmScreensShareLine2(m: int, tr: int, d: int)
    ensures Render(Confirmation, m, tr, d).line2 == Render(QuitConfirm, m, tr, d).line2 == "Valider/Annuler"
    ensures Render(Confirmation, m, tr, d).line1 != Render(QuitConfirm, m, tr, d).line1
  {
  }
}
