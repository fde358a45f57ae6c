/** The shared widget helpers: two button styles and a button that asks for confirmation. */
module Widgets {
  import opened Wrappers

  /** A button style derived from the default style (`base` identifies it) with a red or green tint. */
  datatype Tint = Red | Green
  datatype Style = Style(base: int, tint: Tint)

  /** The static RedButton and GreenButton properties. */
  class Styles {
    var redButton: Option<Style>
    var greenButton: Option<Style>

    constructor ()
      ensures redButton == None && greenButton == None
    {
      redButton := None;
      greenButton := None;
    }

    predicate Ready()
      reads this
    {
      redButton.Some? && greenButton.Some?
    }

    /**
     * InitStyles: with no default style available it reports false and assigns
     * nothing; otherwise both styles are derived from the default one.
     */
    method InitStyles(defaultStyle: Option<int>) returns (ok: bool)
      modifies this
      ensures ok == defaultStyle.Some?
      ensures !ok ==> redButton == old(redButton) && greenButton == old(greenButton)
      ensures ok ==> redButton == Some(Style(defaultStyle.value, Red))
      ensures ok ==> greenButton == Some(Style(defaultStyle.value, Green))
      ensures ok ==> Ready()
    {
      if defaultStyle.None? {
        return false;
      }
      redButton := Some(Style(defaultStyle.value, Red));
      greenButton := Some(Style(defaultStyle.value, Green));
      ok := true;
    }
  }

  /** The three buttons' presses in one frame, as the GUI reports them. */
  datatype Presses = Presses(title: bool, confirm: bool, cancel: bool)

  /** One frame of the confirmation button: the value returned and the new `confirming`. */
  datatype Outcome = Outcome(chosen: bool, confirming: bool)

  /**
   * The frame semantics of ButtonWithConfirmation. Without styles the title button
   * is a plain button; otherwise a title press opens the confirmation, and while it
   * is open a confirm press accepts and a cancel press withdraws.
   */
  function ConfirmFrame(ready: bool, confirming: bool, p: Presses): (o: Outcome)
  {
    if !ready then Outcome(p.title, confirming)
    else
      var c := confirming || p.title;
      if !c then Outcome(false, false)
      else if p.confirm then Outcome(true, false)
      else if p.cancel then Outcome(false, false)
      else Outcome(false, true)
  }

  /**
   * ButtonWithConfirmation. The title button is disabled while confirming; since a
   * press only ever sets `confirming` to true, a disabled press would change nothing.
   */
  method ButtonWithConfirmation(styles: Styles, confirming: bool, p: Presses)
    returns (chosen: bool, confirming': bool)
    ensures Outcome(chosen, confirming') == ConfirmFrame(styles.Ready(), confirming, p)
    ensures !styles.Ready() ==> chosen == p.title && confirming' == confirming
    ensures styles.Ready() ==> (chosen <==> (confirming || p.title) && p.confirm)
    ensures styles.Ready() && chosen ==> !confirming'
    ensures styles.Ready() && !confirming && !p.title ==> !chosen && !confirming'
    ensures styles.Ready() && (confirming || p.title) && !p.confirm && p.cancel ==> !chosen && !confirming'
    ensures styles.Ready() && (confirming || p.title) && !p.confirm && !p.cancel ==> !chosen && confirming'
  {
    confirming' := confirming;
    if styles.redButton.None? || styles.greenButton.None? {
      return p.title, confirming';
    }
    if p.title {
      confirming' := true;
    }
    if !confirming' {
      return false, confirming';
    }
    if p.confirm {
      confirming' := false;
      return true, confirming';
    }
    if p.cancel {
      confirming' := false;
      return false, confirming';
    }
    chosen := false;
  }

  /** Runs the confirmation button over successive frames; yields what it returns each frame. */
  function Run(ready: bool, confirming: bool, frames: seq<Presses>): (r: seq<bool>)
    ensures |r| == |frames|
    ensures !ready ==> forall k :: 0 <= k < |r| ==> r[k] == frames[k].title
    ensures ready ==> forall k :: 0 <= k < |r| && r[k] ==> frames[k].confirm
    decreases |frames|
  {
    if frames == [] then []
    else
      var o := ConfirmFrame(ready, confirming, frames[0]);
      [o.chosen] + Run(ready, o.confirming, frames[1..])
  }

  function CountTrue(s: seq<bool>): nat {
    if s == [] then 0 else (if s[0] then 1 else 0) + CountTrue(s[1..])
  }

  function TitlePresses(frames: seq<Presses>): nat {
    if frames == [] then 0 else (if frames[0].title then 1 else 0) + TitlePresses(frames[1..])
  }

  /**
   * With styles in place, every accepted confirmation is paid for by a title press:
   * over any run of frames starting idle, the number of frames that return true is
   * at most the number of title presses; starting in the confirming state it is at
   * most one more.
   */
  lemma {:induction false} ConfirmationsNeedTitlePresses(confirming: bool, frames: seq<Presses>)
    ensures CountTrue(Run(true, confirming, frames)) <= TitlePresses(frames) + (if confirming then 1 else 0)
    decreases |frames|
  {
    if frames != [] {
      var o := ConfirmFrame(true, confirming, frames[0]);
      ConfirmationsNeedTitlePresses(o.confirming, frames[1..]);
      assert Run(true, confirming, frames) == [o.chosen] + Run(true, o.confirming, frames[1..]);
      assert Run(true, confirming, frames)[1..] == Run(true, o.confirming, frames[1..]);
    }
  }

  /** A title press never yields true in the same frame unless the confirm button is pressed too. */
  lemma ConfirmOnlyOnConfirmPress(confirming: bool, p: Presses)
    requires ConfirmFrame(true, confirming, p).chosen
    ensures p.confirm && !ConfirmFrame(true, confirming, p).confirming
  {
  }

  /**
   * Idle frames (nothing pressed) never accept, whether or not a confirmation was
   * open when they began.
   */
  lemma {:induction false} IdleFramesNeverConfirm(confirming: bool, n: nat)
    ensures CountTrue(Run(true, confirming, seq(n, _ => Presses(false, false, false)))) == 0
  {
    if n > 0 {
      var frames := seq(n, _ => Presses(false, false, false));
      assert frames[1..] == seq(n - 1, _ => Presses(false, false, false));
      IdleFramesNeverConfirm(confirming, n - 1);
      assert Run(true, confirming, frames)[1..] == Run(true, confirming, frames[1..]);
    }
  }
}
