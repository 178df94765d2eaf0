/**
 * The two-valued colour theme: how it is read back from the stored
 * preference, written to it, and flipped by the theme button.
 */
module Themes {
  import opened Wrappers

  datatype Theme = Light | Dark

  /**
   * The initial theme from the stored preference (`None` when nothing is
   * stored): dark exactly when the stored text is "dark", light otherwise.
   */
  function Decode(stored: Option<string>): (t: Theme)
    ensures t == Dark <==> stored == Some("dark")
  {
    if stored == Some("dark") then Dark else Light
  }

  /** The text written to the preference for a theme. */
  function Encode(t: Theme): (s: string)
    ensures Decode(Some(s)) == t
    ensures s == "light" || s == "dark"
  {
    match t
    case Light => "light"
    case Dark => "dark"
  }

  /** The theme button: light becomes dark and dark becomes light. */
  function Flip(t: Theme): (r: Theme)
    ensures r != t
  {
    if t == Light then Dark else Light
  }

  /** Flipping twice restores the theme. */
  lemma FlipInvolutive(t: Theme)
    ensures Flip(Flip(t)) == t
  {
  }

  /** Pressing the button only ever alternates between the two themes: the parity of the presses decides. */
  lemma {:induction false} TogglesByParity(t: Theme, toggles: nat)
    ensures FlipTimes(t, toggles) == if toggles % 2 == 0 then t else Flip(t)
  {
    if toggles > 0 {
      TogglesByParity(t, toggles - 1);
      FlipInvolutive(t);
    }
  }

  /** The theme after pressing the button `n` times. */
  function FlipTimes(t: Theme, n: nat): (r: Theme)
  {
    if n == 0 then t else Flip(FlipTimes(t, n - 1))
  }
}
