/**
 * The earlier CustomKeyboard controller: it keeps five page layouts and a pointer to the
 * current one, an `uppercaseOnce` flag instead of a shift state, and a `shiftCanBeToggled`
 * flag beside the shift timer. Events from a layout other than the current one are
 * ignored. Reloading replaces the five layouts with new ones; the current pointer follows
 * the page it showed.
 *
 * Layout objects are told apart by a reference number; a reload hands out fresh ones.
 */
module LegacyCustomKeyboard {
  import opened Wrappers
  import opened Buttons
  import opened KeyboardIdentifiers
  import opened LegacyCustomKeyboardPages
  import opened KeyboardEvents

  /** A `KeyboardLayout` object, by identity. */
  type LayoutRef = nat

  /** The five page fields, the current layout, and the next layout number to hand out. */
  datatype Layouts = Layouts(
    uppercaseToggled: Option<LayoutRef>,
    uppercase: Option<LayoutRef>,
    lowercase: Option<LayoutRef>,
    numbers: Option<LayoutRef>,
    symbols: Option<LayoutRef>,
    current: Option<LayoutRef>,
    next: LayoutRef)

  datatype Machine = Machine(
    layouts: Layouts,
    uppercaseOnce: bool,
    shiftCanBeToggled: bool,
    shiftToggleTimer: bool,
    backspaceDeleteTimer: bool,
    backspaceAutoDeleteModeTimer: bool,
    keyMenuOpenTimer: Option<KeyboardButton>,
    keyMenuLocked: bool,
    keyMenuShowing: Option<KeyboardButton>,
    typingDisabled: set<LayoutRef>,
    pendingTypingUpdates: nat)

  /** The layout a page field holds. */
  function Slot(l: Layouts, p: Page): Option<LayoutRef>
  {
    match p
    case UppercaseToggled => l.uppercaseToggled
    case Uppercase => l.uppercase
    case Lowercase => l.lowercase
    case NumbersPage => l.numbers
    case SymbolsPage => l.symbols
  }

  function WithSlot(l: Layouts, p: Page, r: LayoutRef): Layouts
  {
    match p
    case UppercaseToggled => l.(uppercaseToggled := Some(r))
    case Uppercase => l.(uppercase := Some(r))
    case Lowercase => l.(lowercase := Some(r))
    case NumbersPage => l.(numbers := Some(r))
    case SymbolsPage => l.(symbols := Some(r))
  }

  /**
   * Assigning a page field and its `layoutDidChange` hook: when a current layout exists
   * and the field held one, and the two are the same, the new layout becomes current.
   */
  function ReplaceSlot(l: Layouts, p: Page, r: LayoutRef): Layouts
  {
    var n := WithSlot(l, p, r);
    if l.current.Some? && Slot(l, p).Some? && l.current == Slot(l, p) then n.(current := Some(r)) else n
  }

  /** A page field gets a newly built layout. */
  function Install(l: Layouts, p: Page): Layouts
  {
    ReplaceSlot(l.(next := l.next + 1), p, l.next)
  }

  /** `reload`: new layouts for the five fields, in the order the source assigns them. */
  function Reloaded(l: Layouts): Layouts
  {
    Install(Install(Install(Install(Install(l, UppercaseToggled), Uppercase), Lowercase), NumbersPage), SymbolsPage)
  }

  /** The stored properties before `defaultInit` runs. */
  const Unset := Machine(Layouts(None, None, None, None, None, None, 0), true, false, false, false, false, None, false, None, {}, 0)

  /** `defaultInit`: reload, then show upper case. */
  function Init(): Machine
  {
    var l := Reloaded(Unset.layouts);
    Unset.(layouts := l.(current := l.uppercase))
  }

  /** Which page field holds the current layout. */
  function CurrentPage(l: Layouts): Option<Page>
  {
    if l.current.None? then None
    else if l.current == l.uppercaseToggled then Some(UppercaseToggled)
    else if l.current == l.uppercase then Some(Uppercase)
    else if l.current == l.lowercase then Some(Lowercase)
    else if l.current == l.numbers then Some(NumbersPage)
    else if l.current == l.symbols then Some(SymbolsPage)
    else None
  }

  /** A field holds a layout that was handed out before `next`. */
  predicate HandedOut(r: Option<LayoutRef>, next: LayoutRef)
  {
    r.Some? && r.value < next
  }

  /** The five fields hold five different layouts, all handed out already. */
  predicate SlotsFilled(l: Layouts)
  {
    var (a, b, c, d, e) := (l.uppercaseToggled, l.uppercase, l.lowercase, l.numbers, l.symbols);
    HandedOut(a, l.next) && HandedOut(b, l.next) && HandedOut(c, l.next) && HandedOut(d, l.next) && HandedOut(e, l.next)
    && a != b && a != c && a != d && a != e && b != c && b != d && b != e && c != d && c != e && d != e
  }

  lemma SlotsDistinct(l: Layouts, p: Page, q: Page)
    requires SlotsFilled(l)
    ensures HandedOut(Slot(l, p), l.next) && (p != q ==> Slot(l, p) != Slot(l, q))
  {
  }

  /** The fields hold distinct layouts and the current one is among them. */
  predicate LayoutsValid(l: Layouts)
  {
    SlotsFilled(l) && CurrentPage(l).Some?
  }

  /**
   * What holds once the keyboard is set up: the fields hold distinct layouts, the current
   * one is among them, the shift timer and `shiftCanBeToggled` agree, the backspace timers are
   * never both scheduled, and the menu fields are consistent.
   */
  predicate Valid(m: Machine)
  {
    LayoutsValid(m.layouts)
    && (forall r :: r in m.typingDisabled ==> r < m.layouts.next)
    && m.shiftToggleTimer == m.shiftCanBeToggled
    && !(m.backspaceDeleteTimer && m.backspaceAutoDeleteModeTimer)
    && (m.keyMenuLocked ==> m.keyMenuShowing.Some?)
    && (m.keyMenuShowing.Some? ==> m.keyMenuShowing.value.keyMenu.Some?)
    && (m.keyMenuOpenTimer.Some? ==> m.keyMenuOpenTimer.value.keyMenu.Some?)
  }

  /** With distinct fields, the current page is the one whose field holds the current layout. */
  lemma CurrentPageIsSlot(l: Layouts, p: Page)
    requires SlotsFilled(l)
    ensures CurrentPage(l) == Some(p) <==> l.current == Slot(l, p)
  {
  }

  /** Switching the current layout to a page field's layout. */
  function GoTo(m: Machine, p: Page): Machine
  {
    m.(layouts := m.layouts.(current := Slot(m.layouts, p)))
  }

  /** Switching shows the page asked for, and keeps the invariant. */
  lemma GoToShows(m: Machine, p: Page)
    requires Valid(m)
    ensures CurrentPage(GoTo(m, p).layouts) == Some(p) && Valid(GoTo(m, p))
  {
    CurrentPageIsSlot(GoTo(m, p).layouts, p);
  }

  /** After setting up, upper case shows once, and the window for a second shift tap is closed. */
  lemma InitState()
    ensures Valid(Init()) && CurrentPage(Init().layouts) == Some(Uppercase)
    ensures Init().uppercaseOnce && !Init().shiftCanBeToggled
  {
    var l := Init().layouts;
    assert l == Layouts(Some(0), Some(1), Some(2), Some(3), Some(4), Some(1), 5);
  }

  /** One new layout: it takes the field, and takes over as current when the field held the current layout. */
  lemma InstallFollows(l: Layouts, p: Page)
    requires SlotsFilled(l) && CurrentPage(l).Some?
    ensures var n := Install(l, p);
            SlotsFilled(n) && n.next == l.next + 1 && Slot(n, p) == Some(l.next)
            && (forall q :: q != p ==> Slot(n, q) == Slot(l, q))
            && CurrentPage(n) == CurrentPage(l)
  {
    var n := Install(l, p);
    var q := CurrentPage(l).value;
    CurrentPageIsSlot(l, q);
    assert SlotsFilled(n);
    CurrentPageIsSlot(n, q);
  }

  /** Reloading keeps the page shown, now drawn by a fresh layout, and hands out only fresh layouts. */
  lemma ReloadKeepsPage(l: Layouts)
    requires SlotsFilled(l) && CurrentPage(l).Some?
    ensures var n := Reloaded(l);
            SlotsFilled(n) && CurrentPage(n) == CurrentPage(l) && n.next == l.next + 5
            && (forall p :: Slot(n, p).value >= l.next)
  {
    var l1 := Install(l, UppercaseToggled);
    InstallFollows(l, UppercaseToggled);
    var l2 := Install(l1, Uppercase);
    InstallFollows(l1, Uppercase);
    var l3 := Install(l2, Lowercase);
    InstallFollows(l2, Lowercase);
    var l4 := Install(l3, NumbersPage);
    InstallFollows(l3, NumbersPage);
    InstallFollows(l4, SymbolsPage);
  }

  /** Reloading a set-up keyboard keeps it valid, and the layout now shown types. */
  lemma ReloadTypes(m: Machine)
    requires Valid(m)
    ensures var n := m.(layouts := Reloaded(m.layouts));
            Valid(n) && CurrentPage(n.layouts) == CurrentPage(m.layouts) && n.layouts.current.value !in n.typingDisabled
  {
    ReloadKeepsPage(m.layouts);
    var n := Reloaded(m.layouts);
    CurrentPageIsSlot(n, CurrentPage(n).value);
  }

  /** Setting `keyMenuShowingKeyboardButton` schedules one deferred `typingEnabled` update. */
  function ShowMenu(m: Machine, b: Option<KeyboardButton>): Machine
  {
    m.(keyMenuShowing := b, pendingTypingUpdates := m.pendingTypingUpdates + 1)
  }

  /** The deferred update sets the layout current at that moment to type only when no menu is open or locked. */
  function RunTypingUpdate(m: Machine): Machine
  {
    if m.pendingTypingUpdates == 0 then m
    else
      var n := m.(pendingTypingUpdates := m.pendingTypingUpdates - 1);
      if m.layouts.current.None? then n
      else if m.keyMenuShowing.None? && !m.keyMenuLocked then n.(typingDisabled := m.typingDisabled - {m.layouts.current.value})
      else n.(typingDisabled := m.typingDisabled + {m.layouts.current.value})
  }

  lemma TypingUpdateFollowsMenu(m: Machine)
    requires Valid(m) && m.pendingTypingUpdates > 0
    ensures var n := RunTypingUpdate(m);
            (n.layouts.current.value !in n.typingDisabled <==> m.keyMenuShowing.None? && !m.keyMenuLocked)
            && n.pendingTypingUpdates == m.pendingTypingUpdates - 1
            && (forall r :: r != m.layouts.current.value ==> (r in n.typingDisabled <==> r in m.typingDisabled))
  {
  }

  predicate IsBackspace(b: KeyboardButton)
  {
    b.identifier == Some(RawValue(Backspace))
  }

  function CancelTouchTimers(m: Machine): Machine
  {
    m.(backspaceAutoDeleteModeTimer := false, backspaceDeleteTimer := false, keyMenuOpenTimer := None)
  }

  /**
   * `didKeyPressStart`: timers are cancelled first; only a press on the current layout goes
   * on to schedule auto-delete for backspace and to schedule or open a key menu.
   */
  function PressStart(m: Machine, from: LayoutRef, b: KeyboardButton): Machine
  {
    var m1 := CancelTouchTimers(m);
    if Some(from) != m.layouts.current then m1
    else
      var m2 := m1.(backspaceAutoDeleteModeTimer := IsBackspace(b),
                    keyMenuOpenTimer := if b.style.keyPopType.Some? && b.keyMenu.Some? then Some(b) else None);
      if b.style.keyPopType.None? && b.keyMenu.Some? then ShowMenu(m2, Some(b)).(keyMenuLocked := false) else m2
  }

  function StartShiftTimer(m: Machine): Machine
  {
    m.(shiftCanBeToggled := true, shiftToggleTimer := true)
  }

  /** `invalidateShiftToggleTimer`, also what the shift timer runs when it fires. */
  function StopShiftTimer(m: Machine): Machine
  {
    m.(shiftCanBeToggled := false, shiftToggleTimer := false)
  }

  /** The effect of a special key that is not a character key. */
  function SpecialKey(m: Machine, id: Identifier): (Machine, seq<Output>)
  {
    match id
    case Numbers => (GoTo(m, NumbersPage), [])
    case Symbols => (GoTo(m, SymbolsPage), [])
    case Letters => (GoTo(m, Uppercase).(uppercaseOnce := true), [])
    case Globe => (m, [GlobeButtonPressed])
    case Return => (m, [ReturnButtonPressed])
    case Space => (m.(uppercaseOnce := false), [SpaceButtonPressed])
    case Backspace => (m.(uppercaseOnce := false), [BackspaceButtonPressed])
    case Shift =>
      if m.shiftCanBeToggled then (StopShiftTimer(GoTo(m, UppercaseToggled).(uppercaseOnce := false)), [])
      else (StartShiftTimer(GoTo(m, Uppercase).(uppercaseOnce := true)), [])
    case ShiftToggledOnce =>
      if m.shiftCanBeToggled then (StopShiftTimer(GoTo(m, UppercaseToggled).(uppercaseOnce := false)), [])
      else (StartShiftTimer(GoTo(m, Lowercase).(uppercaseOnce := false)), [])
    case ShiftToggled => (GoTo(m, Lowercase).(uppercaseOnce := false), [])
  }

  function SpecialOf(b: KeyboardButton): Option<Identifier>
  {
    if b.identifier.Some? then ParseIdentifier(b.identifier.value) else None
  }

  /**
   * `didKeyPressEnd`: only a press on the current layout counts. It is reported; a
   * character key is reported with its text and, while `uppercaseOnce`, drops to lower
   * case; any other key takes its special effect when its identifier names one.
   */
  function PressEnd(m: Machine, from: LayoutRef, b: KeyboardButton): (Machine, seq<Output>)
  {
    if Some(from) != m.layouts.current then (m, [])
    else if b.buttonType.Key? then
      (if m.uppercaseOnce then GoTo(m, Lowercase).(uppercaseOnce := false) else m,
       [KeyboardButtonPressed(b), KeyButtonPressed(b.buttonType.text)])
    else match SpecialOf(b)
         case None => (m, [KeyboardButtonPressed(b)])
         case Some(id) => var effect := SpecialKey(m, id); (effect.0, [KeyboardButtonPressed(b)] + effect.1)
  }

  /**
   * `didTouchesEnd` and `didTouchesCancel`: as in the later controller, except that the
   * locked menu closing on cancel re-enables typing on the current layout.
   */
  function TouchesFinish(m: Machine, cancelled: bool, touched: bool, selectedIndex: int): (Machine, seq<Output>)
  {
    var m1 := CancelTouchTimers(m);
    if m.keyMenuShowing.None? || m.keyMenuShowing.value.keyMenu.None? || !touched then (m1, [])
    else
      var items := m.keyMenuShowing.value.keyMenu.value.itemCount;
      if selectedIndex >= 0 then
        (ShowMenu(m1, None).(keyMenuLocked := false), if selectedIndex < items then [KeyMenuItemAction(selectedIndex)] else [])
      else if m.keyMenuLocked then
        var closed := ShowMenu(m1, None).(keyMenuLocked := false);
        (if cancelled && m.layouts.current.Some? then closed.(typingDisabled := closed.typingDisabled - {m.layouts.current.value})
         else closed, [])
      else (m1.(keyMenuLocked := true), [])
  }

  function FireAutoDeleteMode(m: Machine): Machine
  {
    if m.backspaceAutoDeleteModeTimer then m.(backspaceAutoDeleteModeTimer := false, backspaceDeleteTimer := true) else m
  }

  function FireDelete(m: Machine): seq<Output>
  {
    if m.backspaceDeleteTimer then [BackspaceButtonPressed] else []
  }

  function FireShiftToggle(m: Machine): Machine
  {
    if m.shiftToggleTimer then StopShiftTimer(m) else m
  }

  function FireKeyMenuOpen(m: Machine): Machine
  {
    match m.keyMenuOpenTimer
    case None => m
    case Some(b) => ShowMenu(m.(keyMenuOpenTimer := None), Some(b))
  }

  /** A special key keeps the invariant. */
  lemma SpecialKeyKeepsValid(m: Machine, id: Identifier)
    requires Valid(m)
    ensures Valid(SpecialKey(m, id).0)
  {
    match id {
      case Numbers => GoToShows(m, NumbersPage);
      case Symbols => GoToShows(m, SymbolsPage);
      case Letters => GoToShows(m, Uppercase);
      case Shift => GoToShows(m, UppercaseToggled); GoToShows(m, Uppercase);
      case ShiftToggledOnce => GoToShows(m, UppercaseToggled); GoToShows(m, Lowercase);
      case ShiftToggled => GoToShows(m, Lowercase);
      case _ =>
    }
  }

  /** Starting a press leaves the layouts and the typing flags as they were, and keeps the invariant. */
  lemma PressStartKeepsValid(m: Machine, from: LayoutRef, b: KeyboardButton)
    requires Valid(m)
    ensures var n := PressStart(m, from, b); n.layouts == m.layouts && n.typingDisabled == m.typingDisabled && Valid(n)
  {
    var n := PressStart(m, from, b);
    assert n.layouts == m.layouts && n.typingDisabled == m.typingDisabled;
  }

  /** Pressing keeps the invariant. */
  lemma PressKeepsValid(m: Machine, from: LayoutRef, b: KeyboardButton)
    requires Valid(m)
    ensures Valid(PressStart(m, from, b)) && Valid(PressEnd(m, from, b).0)
  {
    PressStartKeepsValid(m, from, b);
    if Some(from) == m.layouts.current && !b.buttonType.Key? && SpecialOf(b).Some? {
      SpecialKeyKeepsValid(m, SpecialOf(b).value);
    } else if Some(from) == m.layouts.current && b.buttonType.Key? && m.uppercaseOnce {
      GoToShows(m, Lowercase);
    }
  }

  /** Lifting the finger keeps the invariant. */
  lemma TouchesKeepValid(m: Machine, cancelled: bool, touched: bool, selectedIndex: int)
    requires Valid(m)
    ensures Valid(TouchesFinish(m, cancelled, touched, selectedIndex).0)
  {
    var n := TouchesFinish(m, cancelled, touched, selectedIndex).0;
    assert n.layouts == m.layouts;
  }

  /** The deferred update keeps the layouts, disables only layouts already handed out, and keeps the invariant. */
  lemma TypingUpdateKeepsValid(m: Machine)
    requires Valid(m)
    ensures RunTypingUpdate(m).layouts == m.layouts && Valid(RunTypingUpdate(m))
  {
    var n := RunTypingUpdate(m);
    assert n.layouts == m.layouts;
    assert n.typingDisabled <= m.typingDisabled + {m.layouts.current.value};
  }

  /** The timers firing and the deferred update keep the invariant. */
  lemma TimersKeepValid(m: Machine)
    requires Valid(m)
    ensures Valid(FireAutoDeleteMode(m)) && Valid(FireShiftToggle(m)) && Valid(FireKeyMenuOpen(m))
    ensures Valid(RunTypingUpdate(m))
  {
    TypingUpdateKeepsValid(m);
  }

  /** Events from a layout that is not current cancel the timers on press start, and are otherwise ignored. */
  lemma ForeignLayoutIgnored(m: Machine, from: LayoutRef, b: KeyboardButton)
    requires Some(from) != m.layouts.current
    ensures PressEnd(m, from, b) == (m, [])
    ensures PressStart(m, from, b) == CancelTouchTimers(m)
  {
  }

  /** A character key while `uppercaseOnce` types and drops to lower case, from whichever page. */
  lemma KeyWhileOnceGoesLowercase(m: Machine, b: KeyboardButton, text: string)
    requires Valid(m) && m.uppercaseOnce && b.buttonType == Key(text)
    ensures var r := PressEnd(m, m.layouts.current.value, b);
            CurrentPage(r.0.layouts) == Some(Lowercase) && !r.0.uppercaseOnce
            && r.1 == [KeyboardButtonPressed(b), KeyButtonPressed(text)]
  {
    GoToShows(m, Lowercase);
  }

  /**
   * A press's effect depends only on the button's identifier and type; the button itself
   * appears only in the `KeyboardButtonPressed` report. So the lemmas below, stated for a
   * stand-in image button carrying the special identifier, hold for the page's own key.
   */
  lemma PressDependsOnKind(m: Machine, from: LayoutRef, b: KeyboardButton, c: KeyboardButton)
    requires b.identifier == c.identifier && b.buttonType == c.buttonType
    ensures var rb := PressEnd(m, from, b); var rc := PressEnd(m, from, c);
            rb.0 == rc.0 && (rb.1 == [] <==> rc.1 == [])
            && (rb.1 != [] ==> rb.1 == [KeyboardButtonPressed(b)] + rc.1[1..])
  {
  }

  function SpecialButton(id: Identifier): KeyboardButton
  {
    NewButton(Image, DefaultButtonStyle, Relative(0.115), Id(id))
  }

  /** Numbers and symbols only switch page: a pending `uppercaseOnce` survives, and the next key goes to lower case. */
  lemma SignPagesKeepOnce(m: Machine, id: Identifier, b: KeyboardButton, text: string)
    requires Valid(m) && m.uppercaseOnce && id in {Numbers, Symbols} && b.buttonType == Key(text)
    ensures var n := PressEnd(m, m.layouts.current.value, SpecialButton(id)).0;
            CurrentPage(n.layouts) == Some(if id == Numbers then NumbersPage else SymbolsPage) && n.uppercaseOnce
            && CurrentPage(PressEnd(n, n.layouts.current.value, b).0.layouts) == Some(Lowercase)
  {
    ParseRawValue(id);
    var n := PressEnd(m, m.layouts.current.value, SpecialButton(id)).0;
    GoToShows(m, if id == Numbers then NumbersPage else SymbolsPage);
    assert Valid(n);
    KeyWhileOnceGoesLowercase(n, b, text);
  }

  /** Space and backspace report themselves and end `uppercaseOnce`; globe and return only report; none changes page. */
  lemma ActionKeys(m: Machine, id: Identifier)
    requires Valid(m) && id in {Space, Backspace, Globe, Return}
    ensures var r := PressEnd(m, m.layouts.current.value, SpecialButton(id));
            r.0 == m.(uppercaseOnce := if id in {Space, Backspace} then false else m.uppercaseOnce)
            && r.1 == [KeyboardButtonPressed(SpecialButton(id)), match id
                                                       case Space => SpaceButtonPressed
                                                       case Backspace => BackspaceButtonPressed
                                                       case Globe => GlobeButtonPressed
                                                       case _ => ReturnButtonPressed]
  {
    ParseRawValue(id);
  }

  /** Letters goes to upper case with `uppercaseOnce` set. */
  lemma LettersKey(m: Machine)
    requires Valid(m)
    ensures var n := PressEnd(m, m.layouts.current.value, SpecialButton(Letters)).0;
            CurrentPage(n.layouts) == Some(Uppercase) && n.uppercaseOnce
  {
    ParseRawValue(Letters);
    GoToShows(m, Uppercase);
  }

  /**
   * The shift key of the page shown: inside the window of a first tap it locks caps (and
   * closes the window); outside it, upper case goes to lower case and lower case to upper
   * case once, both opening the window; the locked page goes to lower case and leaves the
   * window as it was.
   */
  lemma ShiftTap(m: Machine, p: Page)
    requires Valid(m) && CurrentPage(m.layouts) == Some(p) && p in {Uppercase, UppercaseToggled, Lowercase}
    ensures var n := PressEnd(m, m.layouts.current.value, SpecialButton(ShiftIdentifierOf(p))).0;
            (p == UppercaseToggled ==> CurrentPage(n.layouts) == Some(Lowercase) && !n.uppercaseOnce
                                       && n.shiftCanBeToggled == m.shiftCanBeToggled)
            && (p != UppercaseToggled && m.shiftCanBeToggled ==>
                  CurrentPage(n.layouts) == Some(UppercaseToggled) && !n.uppercaseOnce && !n.shiftCanBeToggled && !n.shiftToggleTimer)
            && (p != UppercaseToggled && !m.shiftCanBeToggled ==>
                  CurrentPage(n.layouts) == Some(if p == Lowercase then Uppercase else Lowercase)
                  && n.uppercaseOnce == (p == Lowercase) && n.shiftCanBeToggled && n.shiftToggleTimer)
  {
    ParseRawValue(ShiftIdentifierOf(p));
    GoToShows(m, Lowercase);
    GoToShows(m, Uppercase);
    GoToShows(m, UppercaseToggled);
  }

  /** Two quick taps on the shift key shown, from upper or lower case, lock caps. */
  lemma DoubleTapLocksCaps(m: Machine, p: Page)
    requires Valid(m) && CurrentPage(m.layouts) == Some(p) && p in {Uppercase, Lowercase} && !m.shiftCanBeToggled
    ensures var first := PressEnd(m, m.layouts.current.value, SpecialButton(ShiftIdentifierOf(p))).0;
            CurrentPage(first.layouts).Some?
            && var second := PressEnd(first, first.layouts.current.value, SpecialButton(ShiftIdentifierOf(CurrentPage(first.layouts).value))).0;
            CurrentPage(second.layouts) == Some(UppercaseToggled) && !second.shiftCanBeToggled
  {
    ShiftTap(m, p);
    var first := PressEnd(m, m.layouts.current.value, SpecialButton(ShiftIdentifierOf(p))).0;
    PressKeepsValid(m, m.layouts.current.value, SpecialButton(ShiftIdentifierOf(p)));
    ShiftTap(first, CurrentPage(first.layouts).value);
  }

  /** When the window closes between the taps, the second tap toggles back. */
  lemma SlowTapsToggleBack(m: Machine, p: Page)
    requires Valid(m) && CurrentPage(m.layouts) == Some(p) && p in {Uppercase, Lowercase} && !m.shiftCanBeToggled
    ensures var first := FireShiftToggle(PressEnd(m, m.layouts.current.value, SpecialButton(ShiftIdentifierOf(p))).0);
            CurrentPage(first.layouts).Some?
            && CurrentPage(PressEnd(first, first.layouts.current.value, SpecialButton(ShiftIdentifierOf(CurrentPage(first.layouts).value))).0.layouts) == Some(p)
  {
    ShiftTap(m, p);
    var tapped := PressEnd(m, m.layouts.current.value, SpecialButton(ShiftIdentifierOf(p))).0;
    PressKeepsValid(m, m.layouts.current.value, SpecialButton(ShiftIdentifierOf(p)));
    TimersKeepValid(tapped);
    var first := FireShiftToggle(tapped);
    ShiftTap(first, CurrentPage(first.layouts).value);
  }

  function DeleteRepeats(m: Machine, k: nat): seq<Output>
  {
    if k == 0 then [] else DeleteRepeats(m, k - 1) + FireDelete(m)
  }

  /** Holding backspace on the current layout repeats it once per delete tick until release. */
  lemma {:induction false} BackspaceHoldRepeats(m: Machine, b: KeyboardButton, k: nat, touched: bool, selectedIndex: int)
    requires IsBackspace(b) && m.layouts.current.Some?
    ensures var held := FireAutoDeleteMode(PressStart(m, m.layouts.current.value, b));
            held.backspaceDeleteTimer && DeleteRepeats(held, k) == seq(k, _ => BackspaceButtonPressed)
            && !TouchesFinish(held, false, touched, selectedIndex).0.backspaceDeleteTimer
            && FireDelete(TouchesFinish(held, false, touched, selectedIndex).0) == []
  {
    var held := FireAutoDeleteMode(PressStart(m, m.layouts.current.value, b));
    assert held.backspaceDeleteTimer;
    if k > 0 {
      BackspaceHoldRepeats(m, b, k - 1, touched, selectedIndex);
      assert DeleteRepeats(held, k) == seq(k - 1, _ => BackspaceButtonPressed) + [BackspaceButtonPressed];
    }
  }

  /** A locked menu that a cancelled touch closes gives typing back to the current layout at once. */
  lemma CancelReenablesTyping(m: Machine)
    requires Valid(m) && m.keyMenuLocked && m.keyMenuShowing.value.keyMenu.Some?
    ensures var n := TouchesFinish(m, true, true, -1).0;
            n.keyMenuShowing.None? && !n.keyMenuLocked && n.layouts.current.value !in n.typingDisabled
  {
  }

  class CustomKeyboard {
    var uppercaseToggledLayout: Option<LayoutRef>
    var uppercaseLayout: Option<LayoutRef>
    var lowercaseLayout: Option<LayoutRef>
    var numbersLayout: Option<LayoutRef>
    var symbolsLayout: Option<LayoutRef>
    var currentLayout: Option<LayoutRef>
    /** The next layout to build: every earlier one has a smaller number. */
    var nextLayout: LayoutRef
    var uppercaseOnce: bool
    var shiftCanBeToggled: bool
    var shiftToggleTimer: bool
    var backspaceDeleteTimer: bool
    var backspaceAutoDeleteModeTimer: bool
    var keyMenuOpenTimer: Option<KeyboardButton>
    var keyMenuLocked: bool
    var keyMenuShowing: Option<KeyboardButton>
    var typingDisabled: set<LayoutRef>
    var pendingTypingUpdates: nat

    /** The page fields, the current layout and the layout counter. */
    function Pages(): Layouts
      reads this
    {
      Layouts(uppercaseToggledLayout, uppercaseLayout, lowercaseLayout, numbersLayout, symbolsLayout, currentLayout, nextLayout)
    }

    function Snapshot(): Machine
      reads this
    {
      Machine(Pages(), uppercaseOnce, shiftCanBeToggled, shiftToggleTimer, backspaceDeleteTimer,
              backspaceAutoDeleteModeTimer, keyMenuOpenTimer, keyMenuLocked, keyMenuShowing, typingDisabled,
              pendingTypingUpdates)
    }

    /** `init` and `defaultInit`. */
    constructor ()
      ensures Snapshot() == Init()
    {
      uppercaseToggledLayout, uppercaseLayout, lowercaseLayout, numbersLayout, symbolsLayout := None, None, None, None, None;
      currentLayout := None;
      nextLayout := 0;
      uppercaseOnce := true;
      shiftCanBeToggled := false;
      shiftToggleTimer := false;
      backspaceDeleteTimer := false;
      backspaceAutoDeleteModeTimer := false;
      keyMenuOpenTimer := None;
      keyMenuLocked := false;
      keyMenuShowing := None;
      typingDisabled := {};
      pendingTypingUpdates := 0;
      new;
      Reload();
      currentLayout := uppercaseLayout;
    }

    /** Stores a layout in a page field. */
    method AssignSlot(p: Page, layout: LayoutRef)
      modifies this
      ensures Pages() == WithSlot(old(Pages()), p, layout)
      ensures Snapshot() == old(Snapshot()).(layouts := Pages())
    {
      match p {
        case UppercaseToggled => uppercaseToggledLayout := Some(layout);
        case Uppercase => uppercaseLayout := Some(layout);
        case Lowercase => lowercaseLayout := Some(layout);
        case NumbersPage => numbersLayout := Some(layout);
        case SymbolsPage => symbolsLayout := Some(layout);
      }
    }

    /** A page field's setter with its `layoutDidChange` hook. */
    method SetPageLayout(p: Page, layout: LayoutRef)
      modifies this
      ensures Pages() == ReplaceSlot(old(Pages()), p, layout)
      ensures Snapshot() == old(Snapshot()).(layouts := Pages())
    {
      var oldLayout := Slot(Pages(), p);
      AssignSlot(p, layout);
      if currentLayout != None && oldLayout != None {
        if currentLayout == oldLayout {
          currentLayout := Some(layout);
        }
      }
    }

    /** Builds a new layout for a page field. */
    method InstallPage(p: Page)
      modifies this
      ensures Snapshot() == old(Snapshot()).(layouts := Install(old(Pages()), p))
    {
      var layout := nextLayout;
      nextLayout := nextLayout + 1;
      SetPageLayout(p, layout);
    }

    /** `reload`. */
    method Reload()
      modifies this
      ensures Snapshot() == old(Snapshot()).(layouts := Reloaded(old(Pages())))
    {
      InstallPage(UppercaseToggled);
      InstallPage(Uppercase);
      InstallPage(Lowercase);
      InstallPage(NumbersPage);
      InstallPage(SymbolsPage);
    }

    method SetKeyMenuShowing(b: Option<KeyboardButton>)
      modifies this
      ensures Snapshot() == ShowMenu(old(Snapshot()), b)
    {
      keyMenuShowing := b;
      pendingTypingUpdates := pendingTypingUpdates + 1;
    }

    method RunDeferredTypingUpdate()
      modifies this
      ensures Snapshot() == RunTypingUpdate(old(Snapshot()))
    {
      if pendingTypingUpdates > 0 {
        pendingTypingUpdates := pendingTypingUpdates - 1;
        if currentLayout.Some? {
          if keyMenuShowing == None && keyMenuLocked == false {
            typingDisabled := typingDisabled - {currentLayout.value};
          } else {
            typingDisabled := typingDisabled + {currentLayout.value};
          }
        }
      }
    }

    method InvalidateTouchTimers()
      modifies this
      ensures Snapshot() == CancelTouchTimers(old(Snapshot()))
    {
      backspaceAutoDeleteModeTimer := false;
      backspaceDeleteTimer := false;
      keyMenuOpenTimer := None;
    }

    method StartShiftToggleTimer()
      modifies this
      ensures Snapshot() == StartShiftTimer(old(Snapshot()))
    {
      shiftCanBeToggled := true;
      shiftToggleTimer := true;
    }

    method InvalidateShiftToggleTimer()
      modifies this
      ensures Snapshot() == StopShiftTimer(old(Snapshot()))
    {
      shiftToggleTimer := false;
      shiftCanBeToggled := false;
    }

    /** The shift timer fires. */
    method FireShiftToggleTimer()
      modifies this
      ensures Snapshot() == FireShiftToggle(old(Snapshot()))
    {
      if shiftToggleTimer {
        InvalidateShiftToggleTimer();
      }
    }

    method FireBackspaceAutoDeleteModeTimer()
      modifies this
      ensures Snapshot() == FireAutoDeleteMode(old(Snapshot()))
    {
      if backspaceAutoDeleteModeTimer {
        backspaceAutoDeleteModeTimer := false;
        backspaceDeleteTimer := true;
      }
    }

    /**
     * `autoDelete`, run by the repeating delete timer. The default keyboard has a method of
     * the same shape; each is written against its own controller's `Machine`, whose fields differ.
     */
    method FireBackspaceDeleteTimer() returns (outputs: seq<Output>)
      ensures outputs == FireDelete(Snapshot())
    {
      outputs := if backspaceDeleteTimer then [BackspaceButtonPressed] else [];
    }

    method FireKeyMenuOpenTimer()
      modifies this
      ensures Snapshot() == FireKeyMenuOpen(old(Snapshot()))
    {
      if keyMenuOpenTimer.Some? {
        var b := keyMenuOpenTimer.value;
        keyMenuOpenTimer := None;
        SetKeyMenuShowing(Some(b));
      }
    }

    /** `keyboardLayout(_:didKeyPressStart:)`, from the layout `from`. */
    method DidKeyPressStart(from: LayoutRef, b: KeyboardButton)
      modifies this
      ensures Snapshot() == PressStart(old(Snapshot()), from, b)
    {
      InvalidateTouchTimers();
      if Some(from) == currentLayout {
        if b.identifier == Some(RawValue(Backspace)) {
          backspaceAutoDeleteModeTimer := true;
        }
        if b.style.keyPopType != None {
          if b.keyMenu != None {
            keyMenuOpenTimer := Some(b);
          }
        } else if b.keyMenu != None {
          SetKeyMenuShowing(Some(b));
          keyMenuLocked := false;
        }
      }
    }

    /** The special-key branch of `keyboardLayout(_:didKeyPressEnd:)`: the key's effect and the events it adds. */
    method ApplySpecialKey(id: Identifier) returns (effectOutputs: seq<Output>)
      modifies this
      ensures (Snapshot(), effectOutputs) == SpecialKey(old(Snapshot()), id)
    {
      effectOutputs := [];
      match id {
        case Numbers => currentLayout := numbersLayout;
        case Symbols => currentLayout := symbolsLayout;
        case Letters =>
          currentLayout := uppercaseLayout;
          uppercaseOnce := true;
        case Globe => effectOutputs := [GlobeButtonPressed];
        case Return => effectOutputs := [ReturnButtonPressed];
        case Space =>
          effectOutputs := [SpaceButtonPressed];
          uppercaseOnce := false;
        case Backspace =>
          effectOutputs := [BackspaceButtonPressed];
          uppercaseOnce := false;
        case Shift =>
          if shiftCanBeToggled {
            currentLayout := uppercaseToggledLayout;
            uppercaseOnce := false;
            InvalidateShiftToggleTimer();
          } else {
            currentLayout := uppercaseLayout;
            uppercaseOnce := true;
            StartShiftToggleTimer();
          }
        case ShiftToggledOnce =>
          if shiftCanBeToggled {
            currentLayout := uppercaseToggledLayout;
            uppercaseOnce := false;
            InvalidateShiftToggleTimer();
          } else {
            uppercaseOnce := false;
            currentLayout := lowercaseLayout;
            StartShiftToggleTimer();
          }
        case ShiftToggled =>
          currentLayout := lowercaseLayout;
          uppercaseOnce := false;
      }
    }

    /** `keyboardLayout(_:didKeyPressEnd:)`, from the layout `from`. */
    method DidKeyPressEnd(from: LayoutRef, b: KeyboardButton) returns (outputs: seq<Output>)
      modifies this
      ensures (Snapshot(), outputs) == PressEnd(old(Snapshot()), from, b)
    {
      outputs := [];
      if Some(from) == currentLayout {
        outputs := [KeyboardButtonPressed(b)];
        if b.buttonType.Key? {
          outputs := outputs + [KeyButtonPressed(b.buttonType.text)];
          assert outputs == [KeyboardButtonPressed(b), KeyButtonPressed(b.buttonType.text)];
          if uppercaseOnce {
            uppercaseOnce := false;
            currentLayout := lowercaseLayout;
          }
        } else if b.identifier.Some? {
          var identifier := ParseIdentifier(b.identifier.value);
          assert SpecialOf(b) == identifier;
          if identifier.Some? {
            var effectOutputs := ApplySpecialKey(identifier.value);
            outputs := outputs + effectOutputs;
          }
        }
      }
    }

    /** `keyboardLayout(_:didTouchesEnd:)` and `keyboardLayout(_:didTouchesCancel:)`. */
    method DidTouchesFinish(cancelled: bool, touched: bool, selectedIndex: int) returns (outputs: seq<Output>)
      modifies this
      ensures (Snapshot(), outputs) == TouchesFinish(old(Snapshot()), cancelled, touched, selectedIndex)
    {
      InvalidateTouchTimers();
      outputs := [];
      if keyMenuShowing.Some? && keyMenuShowing.value.keyMenu.Some? && touched {
        var menu := keyMenuShowing.value.keyMenu.value;
        if selectedIndex >= 0 {
          if selectedIndex < menu.itemCount {
            outputs := [KeyMenuItemAction(selectedIndex)];
          }
          SetKeyMenuShowing(None);
          keyMenuLocked := false;
        } else {
          if keyMenuLocked {
            SetKeyMenuShowing(None);
            keyMenuLocked := false;
            if cancelled && currentLayout.Some? {
              typingDisabled := typingDisabled - {currentLayout.value};
            }
            return;
          }
          keyMenuLocked := true;
        }
      }
    }
  }
}
