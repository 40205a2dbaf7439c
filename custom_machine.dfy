/**
 * CustomKeyboard: the controller of the custom keyboard. It listens to the current page's
 * key events, reports typed keys to its delegate, switches pages, doubles a quick second
 * shift tap into caps lock, repeats backspace while it is held, and opens key menus.
 *
 * Timers are flags that say whether a timer is scheduled; the run loop firing one is a
 * method of its own. The key-menu observer's deferred update of `typingEnabled` is a
 * count of scheduled updates and a method that runs one.
 */
module CustomKeyboardMachine {
  import opened Wrappers
  import opened Buttons
  import opened CustomKeyboardPages
  import opened KeyboardEvents

  datatype ShiftState = Once | Off | On

  datatype LayoutState = LettersState(shiftState: ShiftState) | NumbersState | SymbolsState

  /** `getKeyboardLayout(ofState:)`: the page shown in each state. */
  function PageOf(state: LayoutState): Page
  {
    match state
    case LettersState(Once) => Uppercase
    case LettersState(On) => UppercaseToggled
    case LettersState(Off) => Lowercase
    case NumbersState => NumbersPage
    case SymbolsState => SymbolsPage
  }

  /** Each state has a page of its own, and every page belongs to a state. */
  lemma PageOfIsBijective(s: LayoutState, t: LayoutState, p: Page)
    ensures PageOf(s) == PageOf(t) ==> s == t
    ensures exists u :: PageOf(u) == p
  {
    match p
    case Uppercase => assert PageOf(LettersState(Once)) == p;
    case UppercaseToggled => assert PageOf(LettersState(On)) == p;
    case Lowercase => assert PageOf(LettersState(Off)) == p;
    case NumbersPage => assert PageOf(NumbersState) == p;
    case SymbolsPage => assert PageOf(SymbolsState) == p;
  }

  /** The shift key on a letter page names the shift state that shows the page. */
  function ShiftIdentifierFor(s: ShiftState): Identifier
  {
    match s
    case Once => ShiftOnce
    case Off => ShiftOff
    case On => ShiftOn
  }

  lemma ShiftKeyNamesState(s: ShiftState)
    ensures ShiftIdentifierOf(PageOf(LettersState(s))) == ShiftIdentifierFor(s)
    ensures Keyed(ShiftIdentifierFor(s), PageRows(PageOf(LettersState(s)))[2].characters[0])
  {
    var p := PageOf(LettersState(s));
    ThirdRowShape(ModeKey(p), ThirdRowKeys(p));
    LastTwoOfFour(TopRow(p), MiddleRow(p), ThirdRow(ModeKey(p), ThirdRowKeys(p)), BottomRow(p));
  }

  /**
   * The keyboard's state: the layout state, which timers are scheduled (the key-menu
   * timer with the key it was started for), the key menu, the pages whose
   * `typingEnabled` is false, and how many deferred `typingEnabled` updates are pending.
   */
  datatype Machine = Machine(
    state: LayoutState,
    shiftToggleTimer: bool,
    backspaceDeleteTimer: bool,
    backspaceAutoDeleteModeTimer: bool,
    keyMenuOpenTimer: Option<KeyboardButton>,
    keyMenuLocked: bool,
    keyMenuShowing: Option<KeyboardButton>,
    typingDisabled: set<Page>,
    pendingTypingUpdates: nat)

  /** A keyboard as `init` leaves it: upper case once, nothing scheduled, every page typing. */
  function Init(): Machine
  {
    Machine(LettersState(Once), false, false, false, None, false, None, {}, 0)
  }

  /**
   * What holds in every reachable state: the two backspace timers are never both
   * scheduled, a locked menu is showing, and only keys with a menu show one.
   */
  predicate Valid(m: Machine)
  {
    !(m.backspaceDeleteTimer && m.backspaceAutoDeleteModeTimer)
    && (m.keyMenuLocked ==> m.keyMenuShowing.Some?)
    && (m.keyMenuShowing.Some? ==> m.keyMenuShowing.value.keyMenu.Some?)
    && (m.keyMenuOpenTimer.Some? ==> m.keyMenuOpenTimer.value.keyMenu.Some?)
  }

  lemma InitValid()
    ensures Valid(Init()) && PageOf(Init().state) == Uppercase
  {
  }

  /** Setting `keyMenuShowingKeyboardButton` schedules one deferred `typingEnabled` update. */
  function ShowMenu(m: Machine, b: Option<KeyboardButton>): Machine
  {
    m.(keyMenuShowing := b, pendingTypingUpdates := m.pendingTypingUpdates + 1)
  }

  /** A deferred update sets the page shown at that moment to type only when no menu is open or locked. */
  function RunTypingUpdate(m: Machine): Machine
  {
    if m.pendingTypingUpdates == 0 then m
    else
      var p := PageOf(m.state);
      var typing := m.keyMenuShowing.None? && !m.keyMenuLocked;
      m.(typingDisabled := if typing then m.typingDisabled - {p} else m.typingDisabled + {p},
         pendingTypingUpdates := m.pendingTypingUpdates - 1)
  }

  /** After a pending update has run, the shown page types exactly when no menu is open or locked. */
  lemma TypingUpdateFollowsMenu(m: Machine)
    requires m.pendingTypingUpdates > 0
    ensures var n := RunTypingUpdate(m);
            (PageOf(n.state) !in n.typingDisabled <==> m.keyMenuShowing.None? && !m.keyMenuLocked)
            && n.pendingTypingUpdates == m.pendingTypingUpdates - 1
            && (forall p :: p != PageOf(m.state) ==> (p in n.typingDisabled <==> p in m.typingDisabled))
  {
  }

  predicate IsBackspace(b: KeyboardButton)
  {
    b.identifier == Some(RawValue(Backspace))
  }

  /**
   * `didKeyPressStart`: every press cancels the backspace and key-menu timers; a backspace
   * press schedules auto-delete mode; a key with a pop-up and a menu schedules the menu,
   * and a key with a menu but no pop-up opens it unlocked at once.
   */
  function PressStart(m: Machine, b: KeyboardButton): Machine
  {
    var m1 := m.(backspaceAutoDeleteModeTimer := IsBackspace(b), backspaceDeleteTimer := false,
                 keyMenuOpenTimer := if b.style.keyPopType.Some? && b.keyMenu.Some? then Some(b) else None);
    if b.style.keyPopType.None? && b.keyMenu.Some? then ShowMenu(m1, Some(b)).(keyMenuLocked := false) else m1
  }

  /** The effect of a special key: the event it reports and the state and shift timer it leaves. */
  function SpecialKey(state: LayoutState, shiftTimer: bool, id: Identifier): (LayoutState, bool, seq<Output>)
  {
    match id
    case Backspace => (state, shiftTimer, [BackspaceButtonPressed])
    case Space => (state, shiftTimer, [SpaceButtonPressed])
    case Globe => (state, shiftTimer, [GlobeButtonPressed])
    case Return => (state, shiftTimer, [ReturnButtonPressed])
    case Letters => (LettersState(Off), shiftTimer, [])
    case Numbers => (NumbersState, shiftTimer, [])
    case Symbols => (SymbolsState, shiftTimer, [])
    case ShiftOff => if !shiftTimer then (LettersState(Once), true, []) else (LettersState(On), false, [])
    case ShiftOnce => if !shiftTimer then (LettersState(Off), true, []) else (LettersState(On), false, [])
    case ShiftOn => if !shiftTimer then (LettersState(Off), shiftTimer, []) else (state, shiftTimer, [])
  }

  /** The special key a button stands for, when its identifier names one. */
  function SpecialOf(b: KeyboardButton): Option<Identifier>
  {
    if b.identifier.Some? then ParseIdentifier(b.identifier.value) else None
  }

  /**
   * `didKeyPressEnd`: the press is always reported; a character key is reported with its
   * text and, on the once-shifted page, drops to lower case and stops there; otherwise a
   * key whose identifier names a special key takes that key's effect.
   */
  function PressEnd(m: Machine, b: KeyboardButton): (Machine, seq<Output>)
  {
    var reported := [KeyboardButtonPressed(b)] + (if b.buttonType.Key? then [KeyButtonPressed(b.buttonType.text)] else []);
    if b.buttonType.Key? && m.state == LettersState(Once) then (m.(state := LettersState(Off)), reported)
    else match SpecialOf(b)
         case None => (m, reported)
         case Some(id) =>
           var effect := SpecialKey(m.state, m.shiftToggleTimer, id);
           (m.(state := effect.0, shiftToggleTimer := effect.1), reported + effect.2)
  }

  /**
   * `didTouchesEnd` and `didTouchesCancel`: both cancel the backspace and key-menu timers.
   * When a menu is showing and a touch is given, a selection runs the chosen item (if the
   * index names one) and closes the menu; without a selection a locked menu closes and an
   * unlocked one locks. Cancelling a locked menu also re-enables typing on the shown page.
   */
  function TouchesFinish(m: Machine, cancelled: bool, touched: bool, selectedIndex: int): (Machine, seq<Output>)
  {
    var m1 := m.(backspaceAutoDeleteModeTimer := false, backspaceDeleteTimer := false, keyMenuOpenTimer := None);
    if m.keyMenuShowing.None? || m.keyMenuShowing.value.keyMenu.None? || !touched then (m1, [])
    else
      var items := m.keyMenuShowing.value.keyMenu.value.itemCount;
      if selectedIndex >= 0 then
        (ShowMenu(m1, None).(keyMenuLocked := false), if selectedIndex < items then [KeyMenuItemAction(selectedIndex)] else [])
      else if m.keyMenuLocked then
        var closed := ShowMenu(m1, None).(keyMenuLocked := false);
        (if cancelled then closed.(typingDisabled := closed.typingDisabled - {PageOf(m.state)}) else closed, [])
      else (m1.(keyMenuLocked := true), [])
  }

  /** The auto-delete-mode timer fires: backspace starts repeating. */
  function FireAutoDeleteMode(m: Machine): Machine
  {
    if m.backspaceAutoDeleteModeTimer then m.(backspaceAutoDeleteModeTimer := false, backspaceDeleteTimer := true) else m
  }

  /** The repeating delete timer fires: one more backspace. */
  function FireDelete(m: Machine): seq<Output>
  {
    if m.backspaceDeleteTimer then [BackspaceButtonPressed] else []
  }

  /** The shift toggle timer fires: the window for a second tap closes. */
  function FireShiftToggle(m: Machine): Machine
  {
    m.(shiftToggleTimer := false)
  }

  /** The key-menu timer fires: the menu of the key it was started for opens. */
  function FireKeyMenuOpen(m: Machine): Machine
  {
    match m.keyMenuOpenTimer
    case None => m
    case Some(b) => ShowMenu(m.(keyMenuOpenTimer := None), Some(b))
  }

  /** Ending a press changes only the layout state and the shift timer: timers, menus and typing stay. */
  lemma PressEndChangesOnlyState(m: Machine, b: KeyboardButton)
    ensures var n := PressEnd(m, b).0;
            n == m.(state := n.state, shiftToggleTimer := n.shiftToggleTimer)
  {
  }

  /** Finishing the touches cancels the backspace and key-menu timers and leaves no locked menu without a menu showing. */
  lemma TouchesFinishKeepsValid(m: Machine, cancelled: bool, touched: bool, selectedIndex: int)
    requires Valid(m)
    ensures var n := TouchesFinish(m, cancelled, touched, selectedIndex).0;
            Valid(n) && !n.backspaceDeleteTimer && !n.backspaceAutoDeleteModeTimer && n.keyMenuOpenTimer.None?
  {
  }

  /** Every step keeps the invariant. */
  lemma StepsKeepValid(m: Machine, b: KeyboardButton, cancelled: bool, touched: bool, selectedIndex: int)
    requires Valid(m)
    ensures Valid(PressStart(m, b)) && Valid(PressEnd(m, b).0)
    ensures Valid(TouchesFinish(m, cancelled, touched, selectedIndex).0)
    ensures Valid(FireAutoDeleteMode(m)) && Valid(FireShiftToggle(m)) && Valid(FireKeyMenuOpen(m))
    ensures Valid(RunTypingUpdate(m))
  {
    PressEndChangesOnlyState(m, b);
    TouchesFinishKeepsValid(m, cancelled, touched, selectedIndex);
  }

  /** A character key on the once-shifted page types in upper case and puts the keyboard in lower case. */
  lemma KeyAfterOnceGoesLowercase(m: Machine, text: string, b: KeyboardButton)
    requires m.state == LettersState(Once) && b.buttonType == Key(text)
    ensures PressEnd(m, b).0 == m.(state := LettersState(Off))
    ensures PressEnd(m, b).1 == [KeyboardButtonPressed(b), KeyButtonPressed(text)]
  {
  }

  /** A plain character key anywhere else only reports itself. */
  lemma PlainKeyKeepsState(m: Machine, text: string, b: KeyboardButton)
    requires m.state != LettersState(Once) && b.buttonType == Key(text) && b.identifier.None?
    ensures PressEnd(m, b) == (m, [KeyboardButtonPressed(b), KeyButtonPressed(text)])
  {
    assert SpecialOf(b).None?;
    var reported := [KeyboardButtonPressed(b)] + (if b.buttonType.Key? then [KeyButtonPressed(b.buttonType.text)] else []);
    assert reported == [KeyboardButtonPressed(b), KeyButtonPressed(text)];
    assert PressEnd(m, b).1 == reported;
    assert PressEnd(m, b).0 == m;
  }

  /** Space, backspace, globe and return report their own event and change nothing. */
  lemma ActionKeysOnlyReport(m: Machine, b: KeyboardButton, id: Identifier)
    requires id in {Space, Backspace, Globe, Return} && !b.buttonType.Key? && b.identifier == Some(RawValue(id))
    ensures PressEnd(m, b).0 == m
    ensures |PressEnd(m, b).1| == 2 && PressEnd(m, b).1[0] == KeyboardButtonPressed(b)
    ensures PressEnd(m, b).1[1] == match id
                                   case Space => SpaceButtonPressed
                                   case Backspace => BackspaceButtonPressed
                                   case Globe => GlobeButtonPressed
                                   case _ => ReturnButtonPressed
  {
    ParseRawValue(id);
  }

  /** The shift key shown on the current letter page, pressed as the page builds it. */
  function ShiftKeyOf(s: ShiftState): KeyboardButton
  {
    ShiftKey(ShiftIdentifierFor(s))
  }

  /**
   * Pressing the shift key of the current letter page: a slow tap goes between once and
   * off (and from locked to off) and opens the window for a second tap; a tap inside the
   * window locks caps, except on the locked page where it does nothing.
   */
  lemma ShiftTap(m: Machine, s: ShiftState)
    requires m.state == LettersState(s)
    ensures var n := PressEnd(m, ShiftKeyOf(s)).0;
            n == m.(state := n.state, shiftToggleTimer := n.shiftToggleTimer)
            && (!m.shiftToggleTimer ==>
                  n.state == LettersState(if s == Off then Once else Off) && n.shiftToggleTimer == (s != On))
            && (m.shiftToggleTimer ==> n.state == LettersState(On) && n.shiftToggleTimer == (s == On))
  {
    ParseRawValue(ShiftIdentifierFor(s));
  }

  /** Two quick taps on the visible shift key from upper or lower case lock caps. */
  lemma DoubleTapLocksCaps(m: Machine, s: ShiftState)
    requires m.state == LettersState(s) && s != On && !m.shiftToggleTimer
    ensures var first := PressEnd(m, ShiftKeyOf(s)).0;
            first.state.LettersState?
            && var second := PressEnd(first, ShiftKeyOf(first.state.shiftState)).0;
            second.state == LettersState(On) && !second.shiftToggleTimer
  {
    ShiftTap(m, s);
    var first := PressEnd(m, ShiftKeyOf(s)).0;
    ShiftTap(first, first.state.shiftState);
  }

  /** Two slow taps (the timer fires in between) return to where they started. */
  lemma SlowTapsToggleBack(m: Machine, s: ShiftState)
    requires m.state == LettersState(s) && s != On && !m.shiftToggleTimer
    ensures var first := FireShiftToggle(PressEnd(m, ShiftKeyOf(s)).0);
            first.state.LettersState?
            && PressEnd(first, ShiftKeyOf(first.state.shiftState)).0.state == LettersState(s)
  {
    ShiftTap(m, s);
    var first := FireShiftToggle(PressEnd(m, ShiftKeyOf(s)).0);
    ShiftTap(first, first.state.shiftState);
  }

  /** The mode keys go to their page from any state, and keep the shift timer. */
  lemma ModeKeys(m: Machine, b: KeyboardButton, id: Identifier)
    requires id in {Letters, Numbers, Symbols} && !b.buttonType.Key? && b.identifier == Some(RawValue(id))
    ensures PressEnd(m, b).0 == m.(state := match id
                                            case Letters => LettersState(Off)
                                            case Numbers => NumbersState
                                            case _ => SymbolsState)
    ensures PressEnd(m, b).1 == [KeyboardButtonPressed(b)]
  {
    ParseRawValue(id);
  }

  /** `k` firings of the delete timer. */
  function DeleteRepeats(m: Machine, k: nat): seq<Output>
  {
    if k == 0 then [] else DeleteRepeats(m, k - 1) + FireDelete(m)
  }

  /**
   * Holding backspace: after the press and the auto-delete-mode timer, every firing of the
   * delete timer reports one backspace; releasing stops the repeats.
   */
  lemma {:induction false} BackspaceHoldRepeats(m: Machine, b: KeyboardButton, k: nat, touched: bool, selectedIndex: int)
    requires IsBackspace(b)
    ensures var held := FireAutoDeleteMode(PressStart(m, b));
            held.backspaceDeleteTimer && DeleteRepeats(held, k) == seq(k, _ => BackspaceButtonPressed)
            && !TouchesFinish(held, false, touched, selectedIndex).0.backspaceDeleteTimer
            && FireDelete(TouchesFinish(held, false, touched, selectedIndex).0) == []
  {
    var held := FireAutoDeleteMode(PressStart(m, b));
    assert held.backspaceDeleteTimer;
    if k > 0 {
      BackspaceHoldRepeats(m, b, k - 1, touched, selectedIndex);
      assert DeleteRepeats(held, k) == seq(k - 1, _ => BackspaceButtonPressed) + [BackspaceButtonPressed];
    }
  }

  /** Releasing backspace before auto-delete mode starts means no repeat ever fires. */
  lemma QuickBackspaceDoesNotRepeat(m: Machine, b: KeyboardButton, touched: bool, selectedIndex: int)
    requires IsBackspace(b)
    ensures var released := TouchesFinish(PressStart(m, b), false, touched, selectedIndex).0;
            FireDelete(FireAutoDeleteMode(released)) == []
  {
  }

  /**
   * A menu opened by a key without pop-up: the first release locks it open, the next
   * release without a selection closes it.
   */
  lemma MenuLocksThenCloses(m: Machine, b: KeyboardButton)
    requires b.style.keyPopType.None? && b.keyMenu.Some?
    ensures var shown := PressStart(m, b);
            var once := TouchesFinish(shown, false, true, -1).0;
            var twice := TouchesFinish(once, false, true, -1).0;
            shown.keyMenuShowing == Some(b) && !shown.keyMenuLocked
            && once.keyMenuShowing == Some(b) && once.keyMenuLocked
            && twice.keyMenuShowing.None? && !twice.keyMenuLocked
  {
  }

  /** Choosing an item runs it only when the index names an item, and always closes the menu. */
  lemma SelectionClosesMenu(m: Machine, cancelled: bool, index: int)
    requires m.keyMenuShowing.Some? && m.keyMenuShowing.value.keyMenu.Some? && index >= 0
    ensures var r := TouchesFinish(m, cancelled, true, index);
            r.0.keyMenuShowing.None? && !r.0.keyMenuLocked
            && (r.1 == [KeyMenuItemAction(index)] <==> index < m.keyMenuShowing.value.keyMenu.value.itemCount)
            && (index >= m.keyMenuShowing.value.keyMenu.value.itemCount ==> r.1 == [])
  {
  }

  class CustomKeyboard {
    var state: LayoutState
    var shiftToggleTimer: bool
    var backspaceDeleteTimer: bool
    var backspaceAutoDeleteModeTimer: bool
    var keyMenuOpenTimer: Option<KeyboardButton>
    var keyMenuLocked: bool
    var keyMenuShowing: Option<KeyboardButton>
    /** The pages among the five whose `typingEnabled` is false. */
    var typingDisabled: set<Page>
    var pendingTypingUpdates: nat

    function Snapshot(): Machine
      reads this
    {
      Machine(state, shiftToggleTimer, backspaceDeleteTimer, backspaceAutoDeleteModeTimer,
              keyMenuOpenTimer, keyMenuLocked, keyMenuShowing, typingDisabled, pendingTypingUpdates)
    }

    constructor ()
      ensures Snapshot() == Init()
    {
      state := LettersState(Once);
      shiftToggleTimer := false;
      backspaceDeleteTimer := false;
      backspaceAutoDeleteModeTimer := false;
      keyMenuOpenTimer := None;
      keyMenuLocked := false;
      keyMenuShowing := None;
      typingDisabled := {};
      pendingTypingUpdates := 0;
    }

    /** `getCurrentKeyboardLayout`. */
    function CurrentPage(): (p: Page)
      reads this
      ensures p == PageOf(Snapshot().state)
    {
      PageOf(state)
    }

    /** `reload`: fresh pages, all of them typing. */
    method Reload()
      modifies this
      ensures Snapshot() == old(Snapshot()).(typingDisabled := {})
    {
      typingDisabled := {};
    }

    /** `switchToLetters(shiftState:)`. */
    method SwitchToLetters(shift: ShiftState)
      modifies this
      ensures Snapshot() == old(Snapshot()).(state := LettersState(shift))
    {
      state := LettersState(shift);
    }

    /** `capitalize`: the once-shifted letter page. */
    method Capitalize()
      modifies this
      ensures Snapshot() == old(Snapshot()).(state := LettersState(Once))
    {
      SwitchToLetters(Once);
    }

    /** Assigning `keyMenuShowingKeyboardButton`, with its observer. */
    method SetKeyMenuShowing(b: Option<KeyboardButton>)
      modifies this
      ensures Snapshot() == ShowMenu(old(Snapshot()), b)
    {
      keyMenuShowing := b;
      pendingTypingUpdates := pendingTypingUpdates + 1;
    }

    /** The observer's deferred block runs. */
    method RunDeferredTypingUpdate()
      modifies this
      ensures Snapshot() == RunTypingUpdate(old(Snapshot()))
    {
      if pendingTypingUpdates > 0 {
        var typing := keyMenuShowing == None && keyMenuLocked == false;
        var page := CurrentPage();
        if typing {
          typingDisabled := typingDisabled - {page};
        } else {
          typingDisabled := typingDisabled + {page};
        }
        pendingTypingUpdates := pendingTypingUpdates - 1;
      }
    }

    /** `startBackspaceAutoDeleteMode`, run by its timer. */
    method FireBackspaceAutoDeleteModeTimer()
      modifies this
      ensures Snapshot() == FireAutoDeleteMode(old(Snapshot()))
    {
      if backspaceAutoDeleteModeTimer {
        backspaceAutoDeleteModeTimer := false;
        backspaceDeleteTimer := false;
        backspaceDeleteTimer := true;
      }
    }

    /** `autoDelete`, run by the repeating delete timer. */
    method FireBackspaceDeleteTimer() returns (outputs: seq<Output>)
      ensures outputs == FireDelete(Snapshot())
    {
      outputs := [];
      if backspaceDeleteTimer {
        outputs := [BackspaceButtonPressed];
      }
    }

    /** `invalidateShiftToggleTimer`, run by the shift toggle timer. */
    method FireShiftToggleTimer()
      modifies this
      ensures Snapshot() == FireShiftToggle(old(Snapshot()))
    {
      shiftToggleTimer := false;
    }

    /** `openKeyMenu`, run by the key-menu timer. */
    method FireKeyMenuOpenTimer()
      modifies this
      ensures Snapshot() == FireKeyMenuOpen(old(Snapshot()))
    {
      if keyMenuOpenTimer.Some? {
        var b := keyMenuOpenTimer.value;
        keyMenuOpenTimer := None;
        SetKeyMenuShowing(Some(b));
      }
    }

    method InvalidateTouchTimers()
      modifies this
      ensures Snapshot() == old(Snapshot()).(backspaceAutoDeleteModeTimer := false, backspaceDeleteTimer := false,
                                             keyMenuOpenTimer := None)
    {
      backspaceAutoDeleteModeTimer := false;
      backspaceDeleteTimer := false;
      keyMenuOpenTimer := None;
    }

    /** `keyboardLayout(_:didKeyPressStart:)`. */
    method DidKeyPressStart(b: KeyboardButton)
      modifies this
      ensures Snapshot() == PressStart(old(Snapshot()), b)
    {
      InvalidateTouchTimers();
      if b.identifier == Some(RawValue(Backspace)) {
        backspaceAutoDeleteModeTimer := true;
      }
      if b.style.keyPopType != None {
        if b.keyMenu != None {
          keyMenuOpenTimer := Some(b);
        }
      } else if b.keyMenu != None {
        SetKeyMenuShowing(Some(b));
        keyMenuLocked := false;
      }
    }

    /** `keyboardLayout(_:didKeyPressEnd:)`. */
    method DidKeyPressEnd(b: KeyboardButton) returns (outputs: seq<Output>)
      modifies this
      ensures (Snapshot(), outputs) == PressEnd(old(Snapshot()), b)
    {
      outputs := [KeyboardButtonPressed(b)];
      if b.buttonType.Key? {
        outputs := outputs + [KeyButtonPressed(b.buttonType.text)];
        if state == LettersState(Once) {
          state := LettersState(Off);
          return;
        }
      }
      ghost var reported := outputs;
      assert reported == [KeyboardButtonPressed(b)] + (if b.buttonType.Key? then [KeyButtonPressed(b.buttonType.text)] else []);
      assert Snapshot() == old(Snapshot());
      assert !(b.buttonType.Key? && old(Snapshot()).state == LettersState(Once));
      if b.identifier.Some? {
        var identifier := ParseIdentifier(b.identifier.value);
        if identifier.Some? {
          ghost var effect := SpecialKey(state, shiftToggleTimer, identifier.value);
          match identifier.value {
            case Backspace => outputs := outputs + [BackspaceButtonPressed];
            case Space => outputs := outputs + [SpaceButtonPressed];
            case Globe => outputs := outputs + [GlobeButtonPressed];
            case Return => outputs := outputs + [ReturnButtonPressed];
            case Letters => state := LettersState(Off);
            case Numbers => state := NumbersState;
            case Symbols => state := SymbolsState;
            case ShiftOff =>
              if !shiftToggleTimer {
                state := LettersState(Once);
                shiftToggleTimer := true;
              } else {
                state := LettersState(On);
                shiftToggleTimer := false;
              }
            case ShiftOnce =>
              if !shiftToggleTimer {
                state := LettersState(Off);
                shiftToggleTimer := true;
              } else {
                state := LettersState(On);
                shiftToggleTimer := false;
              }
            case ShiftOn =>
              if !shiftToggleTimer {
                state := LettersState(Off);
              }
          }
          assert state == effect.0 && shiftToggleTimer == effect.1 && outputs == reported + effect.2;
          assert SpecialOf(b) == identifier;
        }
      }
    }

    /**
     * `keyboardLayout(_:didTouchesEnd:)` (`cancelled` false) and
     * `keyboardLayout(_:didTouchesCancel:)` (`cancelled` true); `touched` says whether a
     * first touch exists and `selectedIndex` is the menu's selection after it.
     */
    method DidTouchesFinish(cancelled: bool, touched: bool, selectedIndex: int) returns (outputs: seq<Output>)
      modifies this
      ensures (Snapshot(), outputs) == TouchesFinish(old(Snapshot()), cancelled, touched, selectedIndex)
    {
      InvalidateTouchTimers();
      outputs := [];
      if keyMenuShowing.Some? && keyMenuShowing.value.keyMenu.Some? && touched {
        var menu := keyMenuShowing.value.keyMenu.value;
        if selectedIndex >= 0 {
          if selectedIndex < menu.itemCount {
            outputs := [KeyMenuItemAction(selectedIndex)];
          }
          SetKeyMenuShowing(None);
          keyMenuLocked := false;
        } else {
          if keyMenuLocked {
            SetKeyMenuShowing(None);
            keyMenuLocked := false;
            if cancelled {
              typingDisabled := typingDisabled - {CurrentPage()};
            }
            return;
          }
          keyMenuLocked := true;
        }
      }
    }
  }
}
