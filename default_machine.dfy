/**
 * The DefaultKeyboard controller. It builds its five page layouts once, when set up, and
 * never replaces them, so a layout is named here by its page. It keeps an
 * `uppercaseOnce` flag and a `shiftCanBeToggled` flag beside the shift timer, and has no
 * key menus. Every press is reported, even one from a layout that is not shown; only a
 * press on the layout shown has any further effect.
 */
module DefaultKeyboardMachine {
  import opened Buttons
  import opened KeyboardIdentifiers
  import opened DefaultKeyboardPages
  import opened KeyboardEvents
  import Wrappers

  datatype Machine = Machine(
    currentLayout: Page,
    uppercaseOnce: bool,
    shiftCanBeToggled: bool,
    shiftToggleTimer: bool,
    backspaceDeleteTimer: bool,
    backspaceAutoDeleteModeTimer: bool)

  /** `defaultInit`: upper case shows once, no timer is scheduled. */
  function Init(): Machine
  {
    Machine(Uppercase, true, false, false, false, false)
  }

  /** The shift timer is scheduled exactly while a second tap can lock caps; the backspace timers never both run. */
  predicate Valid(m: Machine)
  {
    m.shiftToggleTimer == m.shiftCanBeToggled && !(m.backspaceDeleteTimer && m.backspaceAutoDeleteModeTimer)
  }

  lemma InitValid()
    ensures Valid(Init()) && Init().currentLayout == Uppercase && Init().uppercaseOnce
  {
  }

  function CancelBackspaceTimers(m: Machine): Machine
  {
    m.(backspaceAutoDeleteModeTimer := false, backspaceDeleteTimer := false)
  }

  function StartShiftTimer(m: Machine): Machine
  {
    m.(shiftCanBeToggled := true, shiftToggleTimer := true)
  }

  /** `invalidateShiftToggleTimer`, also what the shift timer runs when it fires. */
  function StopShiftTimer(m: Machine): Machine
  {
    m.(shiftCanBeToggled := false, shiftToggleTimer := false)
  }

  /** The effect of a special key that is not a character key. */
  function SpecialKey(m: Machine, id: Identifier): (Machine, seq<Output>)
  {
    match id
    case Space => (m.(uppercaseOnce := false), [SpaceButtonPressed])
    case Backspace => (m.(uppercaseOnce := false), [BackspaceButtonPressed])
    case Globe => (m, [GlobeButtonPressed])
    case Return => (m, [ReturnButtonPressed])
    case Letters => (m.(currentLayout := Uppercase, uppercaseOnce := true), [])
    case Numbers => (m.(currentLayout := NumbersPage), [])
    case Symbols => (m.(currentLayout := SymbolsPage), [])
    case Shift => (StartShiftTimer(m.(currentLayout := Uppercase, uppercaseOnce := true)), [])
    case ShiftToggled => (m.(currentLayout := Lowercase, uppercaseOnce := false), [])
    case ShiftToggledOnce =>
      if m.shiftCanBeToggled then (StopShiftTimer(m.(currentLayout := UppercaseToggled, uppercaseOnce := false)), [])
      else (m.(currentLayout := Lowercase, uppercaseOnce := false), [])
  }

  function SpecialOf(b: KeyboardButton): Wrappers.Option<Identifier>
  {
    if b.identifier.Some? then ParseIdentifier(b.identifier.value) else Wrappers.None
  }

  /**
   * `keyboardLayoutDidPressButton`, from the layout of page `from`: the press is reported
   * and the backspace timers are cancelled whichever layout it came from; a press on the
   * layout shown then types a character key (dropping to lower case while `uppercaseOnce`)
   * or takes a special key's effect.
   */
  function PressButton(m: Machine, from: Page, b: KeyboardButton): (Machine, seq<Output>)
  {
    var m1 := CancelBackspaceTimers(m);
    if from != m.currentLayout then (m1, [KeyboardButtonPressed(b)])
    else if b.buttonType.Key? then
      (if m.uppercaseOnce then m1.(uppercaseOnce := false, currentLayout := Lowercase) else m1,
       [KeyboardButtonPressed(b), KeyButtonPressed(b.buttonType.text)])
    else match SpecialOf(b)
         case None => (m1, [KeyboardButtonPressed(b)])
         case Some(id) => var effect := SpecialKey(m1, id); (effect.0, [KeyboardButtonPressed(b)] + effect.1)
  }

  /** `keyboardLayoutDidStartPressingButton`: backspace on the layout shown schedules auto-delete. */
  function StartPressing(m: Machine, from: Page, b: KeyboardButton): Machine
  {
    CancelBackspaceTimers(m).(backspaceAutoDeleteModeTimer := from == m.currentLayout && b.identifier == Id(Backspace))
  }

  function FireAutoDeleteMode(m: Machine): Machine
  {
    if m.backspaceAutoDeleteModeTimer then m.(backspaceAutoDeleteModeTimer := false, backspaceDeleteTimer := true) else m
  }

  function FireDelete(m: Machine): seq<Output>
  {
    if m.backspaceDeleteTimer then [BackspaceButtonPressed] else []
  }

  function FireShiftToggle(m: Machine): Machine
  {
    if m.shiftToggleTimer then StopShiftTimer(m) else m
  }

  /** No special key touches the backspace timers, and each keeps the shift timer in step with its flag. */
  lemma SpecialKeyKeepsTimers(m: Machine, id: Identifier)
    ensures SpecialKey(m, id).0.backspaceDeleteTimer == m.backspaceDeleteTimer
    ensures SpecialKey(m, id).0.backspaceAutoDeleteModeTimer == m.backspaceAutoDeleteModeTimer
    ensures Valid(m) ==> Valid(SpecialKey(m, id).0)
  {
  }

  /** Every step keeps the invariant. */
  lemma StepsKeepValid(m: Machine, from: Page, b: KeyboardButton)
    requires Valid(m)
    ensures Valid(PressButton(m, from, b).0) && Valid(StartPressing(m, from, b))
    ensures Valid(FireAutoDeleteMode(m)) && Valid(FireShiftToggle(m))
  {
    if SpecialOf(b).Some? {
      SpecialKeyKeepsTimers(CancelBackspaceTimers(m), SpecialOf(b).value);
    }
  }

  /** Any press stops auto-delete, whichever layout it came from. */
  lemma PressStopsAutoDelete(m: Machine, from: Page, b: KeyboardButton)
    ensures FireDelete(PressButton(m, from, b).0) == []
    ensures !PressButton(m, from, b).0.backspaceAutoDeleteModeTimer
  {
    if SpecialOf(b).Some? {
      SpecialKeyKeepsTimers(CancelBackspaceTimers(m), SpecialOf(b).value);
    }
  }

  /** A press on a layout that is not shown is reported and changes nothing but the backspace timers. */
  lemma ForeignLayoutOnlyReported(m: Machine, from: Page, b: KeyboardButton)
    requires from != m.currentLayout
    ensures PressButton(m, from, b) == (CancelBackspaceTimers(m), [KeyboardButtonPressed(b)])
    ensures StartPressing(m, from, b) == CancelBackspaceTimers(m)
  {
  }

  /** A character key while `uppercaseOnce` types and drops to lower case, from whichever page. */
  lemma KeyWhileOnceGoesLowercase(m: Machine, b: KeyboardButton, text: string)
    requires m.uppercaseOnce && b.buttonType == Key(text)
    ensures var r := PressButton(m, m.currentLayout, b);
            r.0.currentLayout == Lowercase && !r.0.uppercaseOnce
            && r.1 == [KeyboardButtonPressed(b), KeyButtonPressed(text)]
  {
  }

  /** A character key without `uppercaseOnce` types and leaves the page as it is. */
  lemma KeyKeepsPage(m: Machine, b: KeyboardButton, text: string)
    requires !m.uppercaseOnce && b.buttonType == Key(text)
    ensures PressButton(m, m.currentLayout, b) == (CancelBackspaceTimers(m), [KeyboardButtonPressed(b), KeyButtonPressed(text)])
  {
  }

  /**
   * A press's effect depends only on the button's identifier and type; the button itself
   * appears only in the `KeyboardButtonPressed` report. So the lemmas below, stated for a
   * stand-in image button carrying the special identifier, hold for the page's own key.
   */
  lemma PressDependsOnKind(m: Machine, from: Page, b: KeyboardButton, c: KeyboardButton)
    requires b.identifier == c.identifier && b.buttonType == c.buttonType
    ensures var rb := PressButton(m, from, b); var rc := PressButton(m, from, c);
            rb.0 == rc.0 && (rb.1 == [] <==> rc.1 == [])
            && (rb.1 != [] ==> rb.1 == [KeyboardButtonPressed(b)] + rc.1[1..])
  {
  }

  function SpecialButton(id: Identifier): KeyboardButton
  {
    NewButton(Image, DarkImageStyle, Relative(0.13), Id(id))
  }

  /** Numbers and symbols only switch page; a pending `uppercaseOnce` survives, so the next key still drops to lower case. */
  lemma SignPagesKeepOnce(m: Machine, id: Identifier, b: KeyboardButton, text: string)
    requires m.uppercaseOnce && id in {Numbers, Symbols} && b.buttonType == Key(text)
    ensures var n := PressButton(m, m.currentLayout, SpecialButton(id)).0;
            n.currentLayout == (if id == Numbers then NumbersPage else SymbolsPage) && n.uppercaseOnce
            && PressButton(n, n.currentLayout, b).0.currentLayout == Lowercase
  {
    ParseRawValue(id);
  }

  /** Space and backspace report themselves and end `uppercaseOnce`; globe and return only report; none changes page. */
  lemma ActionKeys(m: Machine, id: Identifier)
    requires id in {Space, Backspace, Globe, Return}
    ensures var r := PressButton(m, m.currentLayout, SpecialButton(id));
            r.0 == CancelBackspaceTimers(m).(uppercaseOnce := if id in {Space, Backspace} then false else m.uppercaseOnce)
            && r.1 == [KeyboardButtonPressed(SpecialButton(id)), match id
                                                                 case Space => SpaceButtonPressed
                                                                 case Backspace => BackspaceButtonPressed
                                                                 case Globe => GlobeButtonPressed
                                                                 case _ => ReturnButtonPressed]
  {
    ParseRawValue(id);
  }

  /** Letters goes to upper case with `uppercaseOnce` set. */
  lemma LettersKey(m: Machine)
    ensures var n := PressButton(m, m.currentLayout, SpecialButton(Letters)).0;
            n.currentLayout == Uppercase && n.uppercaseOnce && n.shiftCanBeToggled == m.shiftCanBeToggled
  {
    ParseRawValue(Letters);
  }

  /**
   * The shift key of the letter page shown: on lower case it goes to upper case once and
   * opens the window for a second tap; on upper case it locks caps inside that window and
   * otherwise goes to lower case, leaving the window closed; on the locked page it goes to
   * lower case.
   */
  lemma ShiftTap(m: Machine)
    requires Valid(m) && m.currentLayout in {Uppercase, UppercaseToggled, Lowercase}
    ensures var p := m.currentLayout;
            var n := PressButton(m, p, SpecialButton(ShiftIdentifierOf(p))).0;
            (p == Lowercase ==> n.currentLayout == Uppercase && n.uppercaseOnce && n.shiftCanBeToggled && n.shiftToggleTimer)
            && (p == Uppercase && m.shiftCanBeToggled ==>
                  n.currentLayout == UppercaseToggled && !n.uppercaseOnce && !n.shiftCanBeToggled && !n.shiftToggleTimer)
            && (p == Uppercase && !m.shiftCanBeToggled ==> n.currentLayout == Lowercase && !n.uppercaseOnce && !n.shiftCanBeToggled)
            && (p == UppercaseToggled ==> n.currentLayout == Lowercase && !n.uppercaseOnce && n.shiftCanBeToggled == m.shiftCanBeToggled)
  {
    ParseRawValue(ShiftIdentifierOf(m.currentLayout));
  }

  /** Two quick taps on the shift key shown, from lower case, lock caps. */
  lemma DoubleTapFromLowercaseLocks(m: Machine)
    requires Valid(m) && m.currentLayout == Lowercase
    ensures var first := PressButton(m, Lowercase, SpecialButton(ShiftIdentifierOf(Lowercase))).0;
            var second := PressButton(first, first.currentLayout, SpecialButton(ShiftIdentifierOf(first.currentLayout))).0;
            second.currentLayout == UppercaseToggled && !second.uppercaseOnce && !second.shiftCanBeToggled
  {
    ShiftTap(m);
    var first := PressButton(m, Lowercase, SpecialButton(ShiftIdentifierOf(Lowercase))).0;
    StepsKeepValid(m, Lowercase, SpecialButton(ShiftIdentifierOf(Lowercase)));
    ShiftTap(first);
  }

  /**
   * Shift followed by the upper-case shift key, with no timer firing in between, locks caps
   * from whatever page is shown.
   */
  lemma ShiftThenShiftOnceLocks(m: Machine)
    requires Valid(m)
    ensures var first := PressButton(m, m.currentLayout, SpecialButton(Shift)).0;
            var second := PressButton(first, first.currentLayout, SpecialButton(ShiftToggledOnce)).0;
            first.currentLayout == Uppercase && first.shiftCanBeToggled
            && second.currentLayout == UppercaseToggled && !second.uppercaseOnce
            && !second.shiftCanBeToggled && !second.shiftToggleTimer
  {
    ParseRawValue(Shift);
    ParseRawValue(ShiftToggledOnce);
  }

  /**
   * From upper case with the window closed, as after setting up, two quick taps do not
   * lock caps: the first goes to lower case without opening the window, the second back to
   * upper case once.
   */
  lemma DoubleTapFromUppercaseToggles(m: Machine)
    requires Valid(m) && m.currentLayout == Uppercase && !m.shiftCanBeToggled
    ensures var first := PressButton(m, Uppercase, SpecialButton(ShiftIdentifierOf(Uppercase))).0;
            var second := PressButton(first, first.currentLayout, SpecialButton(ShiftIdentifierOf(first.currentLayout))).0;
            first.currentLayout == Lowercase && second.currentLayout == Uppercase && second.uppercaseOnce
  {
    ShiftTap(m);
    var first := PressButton(m, Uppercase, SpecialButton(ShiftIdentifierOf(Uppercase))).0;
    StepsKeepValid(m, Uppercase, SpecialButton(ShiftIdentifierOf(Uppercase)));
    ShiftTap(first);
  }

  /** When the shift timer fires between the taps, the second tap leaves upper case instead of locking it. */
  lemma SlowTapsFromLowercaseToggleBack(m: Machine)
    requires Valid(m) && m.currentLayout == Lowercase
    ensures var first := FireShiftToggle(PressButton(m, Lowercase, SpecialButton(ShiftIdentifierOf(Lowercase))).0);
            PressButton(first, first.currentLayout, SpecialButton(ShiftIdentifierOf(first.currentLayout))).0.currentLayout == Lowercase
  {
    ShiftTap(m);
    var tapped := PressButton(m, Lowercase, SpecialButton(ShiftIdentifierOf(Lowercase))).0;
    StepsKeepValid(m, Lowercase, SpecialButton(ShiftIdentifierOf(Lowercase)));
    ShiftTap(FireShiftToggle(tapped));
  }

  function DeleteRepeats(m: Machine, k: nat): seq<Output>
  {
    if k == 0 then [] else DeleteRepeats(m, k - 1) + FireDelete(m)
  }

  /** Holding backspace on the layout shown repeats it once per delete tick, until the next press. */
  lemma {:induction false} BackspaceHoldRepeats(m: Machine, b: KeyboardButton, k: nat)
    requires b.identifier == Id(Backspace)
    ensures var held := FireAutoDeleteMode(StartPressing(m, m.currentLayout, b));
            held.backspaceDeleteTimer && DeleteRepeats(held, k) == seq(k, _ => BackspaceButtonPressed)
            && !PressButton(held, m.currentLayout, b).0.backspaceDeleteTimer
  {
    var held := FireAutoDeleteMode(StartPressing(m, m.currentLayout, b));
    assert held.backspaceDeleteTimer;
    if k > 0 {
      BackspaceHoldRepeats(m, b, k - 1);
      assert DeleteRepeats(held, k) == seq(k - 1, _ => BackspaceButtonPressed) + [BackspaceButtonPressed];
    }
  }

  /** A press that goes up before the auto-delete delay never repeats. */
  lemma QuickBackspaceDoesNotRepeat(m: Machine, b: KeyboardButton)
    requires b.identifier == Id(Backspace)
    ensures var pressed := StartPressing(m, m.currentLayout, b);
            pressed.backspaceAutoDeleteModeTimer
            && FireDelete(FireAutoDeleteMode(PressButton(pressed, m.currentLayout, b).0)) == []
  {
  }

  class DefaultKeyboard {
    /** The page whose layout is shown; each layout is built by `DefaultKeyboardPages.KeyboardLayoutOf`. */
    var currentLayout: Page
    var uppercaseOnce: bool
    var shiftCanBeToggled: bool
    var shiftToggleTimer: bool
    var backspaceDeleteTimer: bool
    var backspaceAutoDeleteModeTimer: bool

    function Snapshot(): Machine
      reads this
    {
      Machine(currentLayout, uppercaseOnce, shiftCanBeToggled, shiftToggleTimer, backspaceDeleteTimer, backspaceAutoDeleteModeTimer)
    }

    /** `init` and `defaultInit`. */
    constructor ()
      ensures Snapshot() == Init()
    {
      currentLayout := Uppercase;
      uppercaseOnce := true;
      shiftCanBeToggled := false;
      shiftToggleTimer := false;
      backspaceDeleteTimer := false;
      backspaceAutoDeleteModeTimer := false;
    }

    method InvalidateBackspaceTimers()
      modifies this
      ensures Snapshot() == CancelBackspaceTimers(old(Snapshot()))
    {
      backspaceAutoDeleteModeTimer := false;
      backspaceDeleteTimer := false;
    }

    method StartShiftToggleTimer()
      modifies this
      ensures Snapshot() == StartShiftTimer(old(Snapshot()))
    {
      shiftCanBeToggled := true;
      shiftToggleTimer := true;
    }

    method InvalidateShiftToggleTimer()
      modifies this
      ensures Snapshot() == StopShiftTimer(old(Snapshot()))
    {
      shiftToggleTimer := false;
      shiftCanBeToggled := false;
    }

    method FireShiftToggleTimer()
      modifies this
      ensures Snapshot() == FireShiftToggle(old(Snapshot()))
    {
      if shiftToggleTimer {
        InvalidateShiftToggleTimer();
      }
    }

    /** `startBackspaceAutoDeleteMode`, which the auto-delete timer runs. */
    method FireBackspaceAutoDeleteModeTimer()
      modifies this
      ensures Snapshot() == FireAutoDeleteMode(old(Snapshot()))
    {
      if backspaceAutoDeleteModeTimer {
        backspaceAutoDeleteModeTimer := false;
        backspaceDeleteTimer := true;
      }
    }

    /**
     * `autoDelete`, which the delete timer runs. The legacy custom keyboard has a method of
     * the same shape; each is written against its own controller's `Machine`, whose fields differ.
     */
    method FireBackspaceDeleteTimer() returns (outputs: seq<Output>)
      ensures outputs == FireDelete(Snapshot())
    {
      outputs := if backspaceDeleteTimer then [BackspaceButtonPressed] else [];
    }

    /** `keyboardLayoutDidPressButton`, from the layout of page `from`. */
    method DidPressButton(from: Page, b: KeyboardButton) returns (outputs: seq<Output>)
      modifies this
      ensures (Snapshot(), outputs) == PressButton(old(Snapshot()), from, b)
    {
      outputs := [KeyboardButtonPressed(b)];
      InvalidateBackspaceTimers();
      if from == currentLayout {
        if b.buttonType.Key? {
          outputs := outputs + [KeyButtonPressed(b.buttonType.text)];
          assert outputs == [KeyboardButtonPressed(b), KeyButtonPressed(b.buttonType.text)];
          if uppercaseOnce {
            uppercaseOnce := false;
            currentLayout := Lowercase;
          }
        } else if b.identifier.Some? {
          var identifier := ParseIdentifier(b.identifier.value);
          assert SpecialOf(b) == identifier;
          if identifier.Some? {
            ghost var effect := SpecialKey(Snapshot(), identifier.value);
            match identifier.value {
              case Space =>
                outputs := outputs + [SpaceButtonPressed];
                uppercaseOnce := false;
              case Backspace =>
                outputs := outputs + [BackspaceButtonPressed];
                uppercaseOnce := false;
              case Globe => outputs := outputs + [GlobeButtonPressed];
              case Return => outputs := outputs + [ReturnButtonPressed];
              case Letters =>
                currentLayout := Uppercase;
                uppercaseOnce := true;
              case Numbers => currentLayout := NumbersPage;
              case Symbols => currentLayout := SymbolsPage;
              case Shift =>
                currentLayout := Uppercase;
                uppercaseOnce := true;
                StartShiftToggleTimer();
              case ShiftToggled =>
                currentLayout := Lowercase;
                uppercaseOnce := false;
              case ShiftToggledOnce =>
                if shiftCanBeToggled {
                  currentLayout := UppercaseToggled;
                  uppercaseOnce := false;
                  InvalidateShiftToggleTimer();
                } else {
                  currentLayout := Lowercase;
                  uppercaseOnce := false;
                }
            }
            assert Snapshot() == effect.0 && outputs == [KeyboardButtonPressed(b)] + effect.1;
          }
        }
      }
    }

    /** `keyboardLayoutDidStartPressingButton`, from the layout of page `from`. */
    method DidStartPressingButton(from: Page, b: KeyboardButton)
      modifies this
      ensures Snapshot() == StartPressing(old(Snapshot()), from, b)
    {
      InvalidateBackspaceTimers();
      if from == currentLayout {
        if b.identifier == Id(Backspace) {
          backspaceAutoDeleteModeTimer := true;
        }
      }
    }
  }
}
