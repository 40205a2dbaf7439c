/**
 * CustomKeyboardLayout: the five pages of the custom keyboard (upper case, upper case
 * locked, lower case, numbers, symbols), built from shared row and key styles.
 */
module CustomKeyboardPages {
  import opened Wrappers
  import opened Buttons
  import opened Rows
  import opened Layouts

  /** The identifiers that special keys carry; each is stored as its own name. */
  datatype Identifier = Space | Backspace | Globe | Return | Numbers | Letters | Symbols | ShiftOff | ShiftOn | ShiftOnce

  function RawValue(id: Identifier): string
  {
    match id
    case Space => "Space"
    case Backspace => "Backspace"
    case Globe => "Globe"
    case Return => "Return"
    case Numbers => "Numbers"
    case Letters => "Letters"
    case Symbols => "Symbols"
    case ShiftOff => "ShiftOff"
    case ShiftOn => "ShiftOn"
    case ShiftOnce => "ShiftOnce"
  }

  /** `CustomKeyboardIdentifier(rawValue:)`: the identifier whose name is the string, if any. */
  function ParseIdentifier(s: string): (r: Option<Identifier>)
    ensures r.Some? ==> RawValue(r.value) == s
    ensures r.None? ==> forall id :: RawValue(id) != s
  {
    if s == "Space" then Some(Space)
    else if s == "Backspace" then Some(Backspace)
    else if s == "Globe" then Some(Globe)
    else if s == "Return" then Some(Return)
    else if s == "Numbers" then Some(Numbers)
    else if s == "Letters" then Some(Letters)
    else if s == "Symbols" then Some(Symbols)
    else if s == "ShiftOff" then Some(ShiftOff)
    else if s == "ShiftOn" then Some(ShiftOn)
    else if s == "ShiftOnce" then Some(ShiftOnce)
    else None
  }

  /** Parsing a stored identifier gives it back; so no two identifiers share a name. */
  lemma ParseRawValue(id: Identifier)
    ensures ParseIdentifier(RawValue(id)) == Some(id)
  {
  }

  /** A key's identifier, as the optional string the key stores. */
  function Id(id: Identifier): Option<string>
  {
    Some(RawValue(id))
  }

  const CustomKeyboardLayoutStyle := NewLayoutStyle()

  const RowStyle := NewRowStyle()
  const FirstRowStyle := NewRowStyle(topPadding := Some(10.0), topPaddingLandscape := Some(6.0))
  const SecondRowStyle := NewRowStyle(leadingPadding := Some(22.0), leadingPaddingLandscape := Some(30.0),
                                      trailingPadding := Some(22.0), trailingPaddingLandscape := Some(30.0))
  const ThirdRowStyle := NewRowStyle(bottomPadding := Some(5.0), bottomPaddingLandscape := Some(4.0),
                                     buttonsPadding := Some(15.0))
  const ChildRowStyle := NewRowStyle(leadingPadding := Some(0.0), trailingPadding := Some(0.0))
  const FourthRowStyle := NewRowStyle(topPadding := Some(5.0), topPaddingLandscape := Some(4.0),
                                      bottomPadding := Some(4.0), bottomPaddingLandscape := Some(4.0))

  /** Letter and symbol keys pop up a bubble, leaning inwards at the two ends of a row. */
  const KeyStyle := ButtonStyle(None, false, Some(Normal))
  const LeftKeyStyle := ButtonStyle(None, false, Some(Left))
  const RightKeyStyle := ButtonStyle(None, false, Some(Right))
  /** Special keys with an icon draw it 20 points across. */
  const IconKeyStyle := ButtonStyle(Some(20.0), false, None)

  /** A key that types a character and carries no identifier. */
  predicate CharacterKey(c: Child)
  {
    c.Btn? && c.button.buttonType.Key? && c.button.identifier.None?
  }

  /** A run of character keys in one style. */
  function Keys(keys: seq<string>, style: ButtonStyle): (cs: seq<Child>)
    ensures |cs| == |keys|
    ensures forall i :: 0 <= i < |keys| ==> cs[i] == Btn(NewButton(Key(keys[i]), style))
    ensures forall i :: 0 <= i < |cs| ==> CharacterKey(cs[i])
  {
    seq(|keys|, i requires 0 <= i < |keys| => Btn(NewButton(Key(keys[i]), style)))
  }

  /** A full-width row of character keys, whose two end keys have styles of their own. */
  function EdgeKeys(keys: seq<string>, left: ButtonStyle, middle: ButtonStyle, right: ButtonStyle): (cs: seq<Child>)
    requires |keys| >= 2
    ensures |cs| == |keys|
    ensures cs[0] == Btn(NewButton(Key(keys[0]), left)) && cs[|cs| - 1] == Btn(NewButton(Key(keys[|keys| - 1]), right))
    ensures forall i :: 0 < i < |cs| - 1 ==> cs[i] == Btn(NewButton(Key(keys[i]), middle))
    ensures forall i :: 0 <= i < |cs| ==> CharacterKey(cs[i])
  {
    [Btn(NewButton(Key(keys[0]), left))] + Keys(keys[1..|keys| - 1], middle)
    + [Btn(NewButton(Key(keys[|keys| - 1]), right))]
  }

  /** The two end keys of a row lean their bubbles inwards. */
  function LeaningKeys(keys: seq<string>): (cs: seq<Child>)
    requires |keys| >= 2
    ensures |cs| == |keys| && forall i :: 0 <= i < |cs| ==> CharacterKey(cs[i])
  {
    EdgeKeys(keys, LeftKeyStyle, KeyStyle, RightKeyStyle)
  }

  const UpperTop: seq<string> := ["Q", "W", "E", "R", "T", "Y", "U", "I", "O", "P"]
  const UpperMiddle: seq<string> := ["A", "S", "D", "F", "G", "H", "J", "K", "L"]
  const UpperBottom: seq<string> := ["Z", "X", "C", "V", "B", "N", "M"]
  const LowerTop: seq<string> := ["q", "w", "e", "r", "t", "y", "u", "i", "o", "p"]
  const LowerMiddle: seq<string> := ["a", "s", "d", "f", "g", "h", "j", "k", "l"]
  const LowerBottom: seq<string> := ["z", "x", "c", "v", "b", "n", "m"]
  const Digits: seq<string> := ["1", "2", "3", "4", "5", "6", "7", "8", "9", "0"]
  const NumberSigns: seq<string> := ["-", "/", ":", ";", "(", ")", "$", "&", "@", "\""]
  const Brackets: seq<string> := ["[", "]", "{", "}", "#", "%", "^", "*", "+", "="]
  const SymbolSigns: seq<string> := ["_", "\\", "|", "~", "<", ">", "€", "£", "¥", "•"]
  const Punctuation: seq<string> := [".", ",", "?", "!", "'"]

  function BackspaceKey(): KeyboardButton
  {
    NewButton(Image, IconKeyStyle, Relative(0.115), Id(Backspace))
  }

  /** The third row: a mode or shift key, a nested row of keys, and backspace. */
  function ThirdRow(modeKey: KeyboardButton, keys: seq<string>): Row
  {
    NewRow(ThirdRowStyle, [Btn(modeKey), Sub(NewRow(ChildRowStyle, Keys(keys, KeyStyle))), Btn(BackspaceKey())])
  }

  /** The bottom row: a page key, globe, a space bar taking the rest, and return. */
  function FourthRow(pageCaption: string, pageKey: Identifier): Row
  {
    NewRow(FourthRowStyle, [
      Btn(NewButton(Text(pageCaption), DefaultButtonStyle, Relative(0.115), Id(pageKey))),
      Btn(NewButton(Image, IconKeyStyle, Relative(0.115), Id(Globe))),
      Btn(NewButton(Text("space"), DefaultButtonStyle, Dynamic, Id(Space))),
      Btn(NewButton(Text("return"), DefaultButtonStyle, Relative(0.18), Id(Return)))])
  }

  function ShiftKey(id: Identifier): KeyboardButton
  {
    NewButton(Image, IconKeyStyle, Relative(0.115), Id(id))
  }

  /** The five pages `CustomKeyboardLayout` holds. */
  datatype Page = Uppercase | UppercaseToggled | Lowercase | NumbersPage | SymbolsPage

  /** The shift key each letter page shows: it names the shift state that page stands for. */
  function ShiftIdentifierOf(p: Page): Identifier
  {
    match p
    case Uppercase => ShiftOnce
    case UppercaseToggled => ShiftOn
    case _ => ShiftOff
  }

  /** The top row of a page: ten character keys. */
  function TopRow(p: Page): Row
  {
    NewRow(FirstRowStyle, LeaningKeys(match p
                                      case Uppercase | UppercaseToggled => UpperTop
                                      case Lowercase => LowerTop
                                      case NumbersPage => Digits
                                      case SymbolsPage => Brackets))
  }

  /** The second row: nine indented letters, or ten signs across the full width. */
  function MiddleRow(p: Page): Row
  {
    match p
    case Uppercase | UppercaseToggled => NewRow(SecondRowStyle, Keys(UpperMiddle, KeyStyle))
    case Lowercase => NewRow(SecondRowStyle, Keys(LowerMiddle, KeyStyle))
    case NumbersPage => NewRow(RowStyle, LeaningKeys(NumberSigns))
    case SymbolsPage => NewRow(RowStyle, LeaningKeys(SymbolSigns))
  }

  /** The key to the left of the third row: shift on letter pages, the other sign page otherwise. */
  function ModeKey(p: Page): KeyboardButton
  {
    match p
    case NumbersPage => NewButton(Text("#+="), DefaultButtonStyle, Relative(0.115), Id(Symbols))
    case SymbolsPage => NewButton(Text("123"), DefaultButtonStyle, Relative(0.115), Id(Numbers))
    case _ => ShiftKey(ShiftIdentifierOf(p))
  }

  function ThirdRowKeys(p: Page): seq<string>
  {
    match p
    case Uppercase | UppercaseToggled => UpperBottom
    case Lowercase => LowerBottom
    case _ => Punctuation
  }

  /** The bottom row: the sign pages lead it with a key back to the letters, the letter pages with one to the numbers. */
  function BottomRow(p: Page): Row
  {
    match p
    case NumbersPage | SymbolsPage => FourthRow("ABC", Letters)
    case _ => FourthRow("123", Numbers)
  }

  function PageRows(p: Page): seq<Row>
  {
    [TopRow(p), MiddleRow(p), ThirdRow(ModeKey(p), ThirdRowKeys(p)), BottomRow(p)]
  }


  function Keyed(id: Identifier, c: Child): bool
  {
    c.Btn? && c.button.identifier == Id(id)
  }

  /** What a row needs to be laid out: both bottom paddings, and a child that takes a share of the width. */
  predicate LaidOut(r: Row)
  {
    Resolved(r.style) && DynamicSlots(r.characters) > 0
  }

  /** Every child of the row is a plain character key. */
  predicate AllCharacterKeys(r: Row)
  {
    forall j :: 0 <= j < |r.characters| ==> CharacterKey(r.characters[j])
  }

  /** Any third row: the given key, then a nested row taking a share, then backspace. */
  lemma ThirdRowShape(modeKey: KeyboardButton, keys: seq<string>)
    ensures var r := ThirdRow(modeKey, keys);
            LaidOut(r) && |r.characters| == 3 && r.characters[0] == Btn(modeKey)
            && r.characters[1].Sub? && Keyed(Backspace, r.characters[2])
  {
    ShareReaderMeansSlot(ThirdRow(modeKey, keys).characters, 1);
  }

  /** Any bottom row: the page key, globe, a space bar taking a share, and return. */
  lemma FourthRowShape(pageCaption: string, pageKey: Identifier)
    ensures var r := FourthRow(pageCaption, pageKey);
            LaidOut(r) && |r.characters| == 4
            && Keyed(pageKey, r.characters[0]) && Keyed(Globe, r.characters[1])
            && Keyed(Space, r.characters[2]) && Keyed(Return, r.characters[3])
  {
    ShareReaderMeansSlot(FourthRow(pageCaption, pageKey).characters, 2);
  }

  /** The key that leads the bottom row: back to the letters on the sign pages, to the numbers otherwise. */
  function PageKeyOf(p: Page): Identifier
  {
    if p == NumbersPage || p == SymbolsPage then Letters else Numbers
  }

  /** The bottom row of every page, with the page key at its head. */
  lemma BottomRowShape(p: Page)
    ensures var r := BottomRow(p);
            LaidOut(r) && |r.characters| == 4
            && Keyed(PageKeyOf(p), r.characters[0]) && Keyed(Globe, r.characters[1])
            && Keyed(Space, r.characters[2]) && Keyed(Return, r.characters[3])
  {
    match p
    case NumbersPage | SymbolsPage => FourthRowShape("ABC", Letters);
    case _ => FourthRowShape("123", Numbers);
  }

  /** The first two rows of every page are laid out and hold only character keys. */
  lemma UpperRowsShape(p: Page)
    ensures LaidOut(TopRow(p)) && AllCharacterKeys(TopRow(p))
    ensures LaidOut(MiddleRow(p)) && AllCharacterKeys(MiddleRow(p))
  {
    ShareReaderMeansSlot(TopRow(p).characters, 0);
    ShareReaderMeansSlot(MiddleRow(p).characters, 0);
  }

  /** A property of four rows holds of each of them by index. */
  lemma EachOfFour(a: Row, b: Row, c: Row, d: Row, i: int)
    requires LaidOut(a) && LaidOut(b) && LaidOut(c) && LaidOut(d)
    requires 0 <= i < 4
    ensures LaidOut([a, b, c, d][i])
  {
  }

  /** Character keys in the first two of four rows stay there when the rows are put in sequence. */
  lemma FirstTwoOfFour(a: Row, b: Row, c: Row, d: Row)
    requires AllCharacterKeys(a) && AllCharacterKeys(b)
    ensures |[a, b, c, d]| == 4 && AllCharacterKeys([a, b, c, d][0]) && AllCharacterKeys([a, b, c, d][1])
  {
  }

  /** The last two of four rows put in sequence. */
  lemma LastTwoOfFour(a: Row, b: Row, c: Row, d: Row)
    ensures |[a, b, c, d]| == 4 && [a, b, c, d][2] == c && [a, b, c, d][3] == d
  {
  }

  /** The keys that switch pages sit at the left of the third and fourth rows. */
  lemma PageKeys(p: Page)
    ensures |PageRows(p)| == 4 && |PageRows(p)[2].characters| == 3 && |PageRows(p)[3].characters| == 4
    ensures p in {Uppercase, UppercaseToggled, Lowercase} ==>
              Keyed(ShiftIdentifierOf(p), PageRows(p)[2].characters[0]) && Keyed(Numbers, PageRows(p)[3].characters[0])
    ensures p == NumbersPage ==>
              Keyed(Symbols, PageRows(p)[2].characters[0]) && Keyed(Letters, PageRows(p)[3].characters[0])
    ensures p == SymbolsPage ==>
              Keyed(Numbers, PageRows(p)[2].characters[0]) && Keyed(Letters, PageRows(p)[3].characters[0])
    ensures Keyed(Backspace, PageRows(p)[2].characters[2]) && Keyed(Globe, PageRows(p)[3].characters[1])
            && Keyed(Space, PageRows(p)[3].characters[2]) && Keyed(Return, PageRows(p)[3].characters[3])
  {
    var third := ThirdRow(ModeKey(p), ThirdRowKeys(p));
    ThirdRowShape(ModeKey(p), ThirdRowKeys(p));
    BottomRowShape(p);
    LastTwoOfFour(TopRow(p), MiddleRow(p), third, BottomRow(p));
  }

  /** Two third rows with the same keys differ at most in their mode key. */
  lemma ThirdRowsDifferInModeKey(modeKey: KeyboardButton, otherKey: KeyboardButton, keys: seq<string>)
    ensures ThirdRow(modeKey, keys).characters[1..] == ThirdRow(otherKey, keys).characters[1..]
    ensures ThirdRow(modeKey, keys).characters[0] == ThirdRow(otherKey, keys).characters[0] <==> modeKey == otherKey
  {
  }

  /** The three letter pages differ only in the shift key and the case of the letters. */
  lemma UppercasePagesDifferOnlyInShift()
    ensures PageRows(UppercaseToggled)[0] == PageRows(Uppercase)[0]
    ensures PageRows(UppercaseToggled)[1] == PageRows(Uppercase)[1]
    ensures PageRows(UppercaseToggled)[3] == PageRows(Uppercase)[3]
    ensures PageRows(UppercaseToggled)[2].characters[1..] == PageRows(Uppercase)[2].characters[1..]
    ensures PageRows(UppercaseToggled)[2].characters[0] != PageRows(Uppercase)[2].characters[0]
  {
    assert ShiftKey(ShiftOn) != ShiftKey(ShiftOnce) by {
      ParseRawValue(ShiftOn);
    }
    ThirdRowsDifferInModeKey(ShiftKey(ShiftOn), ShiftKey(ShiftOnce), UpperBottom);
    assert PageRows(UppercaseToggled)[2] == ThirdRow(ShiftKey(ShiftOn), UpperBottom);
    assert PageRows(Uppercase)[2] == ThirdRow(ShiftKey(ShiftOnce), UpperBottom);
  }

  /** Every row on every page gives both bottom paddings and has a child that takes a share of its width. */
  lemma RowsAreLaidOut(p: Page, i: int)
    requires 0 <= i < |PageRows(p)|
    ensures Resolved(PageRows(p)[i].style)
    ensures DynamicSlots(PageRows(p)[i].characters) > 0
  {
    UpperRowsShape(p);
    ThirdRowShape(ModeKey(p), ThirdRowKeys(p));
    BottomRowShape(p);
    EachOfFour(TopRow(p), MiddleRow(p), ThirdRow(ModeKey(p), ThirdRowKeys(p)), BottomRow(p), i);
  }

  /** The nested row of the third row has no paddings of its own, so it is exactly one share wide. */
  lemma NestedRowIsOneShare(p: Page, width: real, isPortrait: bool)
    ensures var r := PageRows(p)[2].(isPortrait := isPortrait);
            ChildWidthAt(Adopted(r), width, 1) == UsedOptimum(Adopted(r), width)
  {
  }

  /** A page whose first two rows hold only character keys finds a third-row key before any other. */
  lemma FoundInThirdRow(rows: seq<Row>, id: Identifier, bi: int)
    requires |rows| >= 3 && 0 <= bi < |rows[2].characters|
    requires AllCharacterKeys(rows[0]) && AllCharacterKeys(rows[1])
    requires Keyed(id, rows[2].characters[bi])
    requires forall bj :: 0 <= bj < bi ==> !Keyed(id, rows[2].characters[bj])
    ensures IsFirstWithIdentifier(rows, RawValue(id), 2, bi)
  {
    forall rj, bj | 0 <= rj < 2 && 0 <= bj < |rows[rj].characters|
      ensures !HasIdentifier(rows[rj].characters[bj], RawValue(id))
    {
    }
  }

  /** The first two rows of every page hold only character keys. */
  lemma TopRowsAreCharacterKeys(p: Page)
    ensures |PageRows(p)| == 4 && AllCharacterKeys(PageRows(p)[0]) && AllCharacterKeys(PageRows(p)[1])
  {
    UpperRowsShape(p);
    FirstTwoOfFour(TopRow(p), MiddleRow(p), ThirdRow(ModeKey(p), ThirdRowKeys(p)), BottomRow(p));
  }

  /** No page's mode key carries the backspace identifier. */
  lemma ModeKeyIsNotBackspace(p: Page)
    ensures ModeKey(p).identifier != Id(Backspace)
  {
    ParseRawValue(Backspace);
    match p
    case NumbersPage => ParseRawValue(Symbols);
    case SymbolsPage => ParseRawValue(Numbers);
    case _ => ParseRawValue(ShiftIdentifierOf(p));
  }

  /** A third row whose mode key is not backspace has backspace only as its last child. */
  lemma ThirdRowBackspaceLast(modeKey: KeyboardButton, keys: seq<string>)
    requires modeKey.identifier != Id(Backspace)
    ensures var cs := ThirdRow(modeKey, keys).characters;
            |cs| == 3 && (forall bj :: 0 <= bj < 2 ==> !Keyed(Backspace, cs[bj])) && Keyed(Backspace, cs[2])
  {
    ThirdRowShape(modeKey, keys);
  }

  /** On every page backspace is the third child of the third row, and neither child before it carries that identifier. */
  lemma ThirdRowLeadsWithOtherKeys(p: Page)
    ensures |PageRows(p)| == 4 && |PageRows(p)[2].characters| == 3
    ensures forall bj :: 0 <= bj < 2 ==> !Keyed(Backspace, PageRows(p)[2].characters[bj])
    ensures Keyed(Backspace, PageRows(p)[2].characters[2])
  {
    ModeKeyIsNotBackspace(p);
    ThirdRowBackspaceLast(ModeKey(p), ThirdRowKeys(p));
    LastTwoOfFour(TopRow(p), MiddleRow(p), ThirdRow(ModeKey(p), ThirdRowKeys(p)), BottomRow(p));
  }

  /** Backspace is the first key found with its identifier on every page. */
  lemma BackspaceIsFound(p: Page)
    ensures IsFirstWithIdentifier(PageRows(p), RawValue(Backspace), 2, 2)
  {
    TopRowsAreCharacterKeys(p);
    ThirdRowLeadsWithOtherKeys(p);
    FoundInThirdRow(PageRows(p), Backspace, 2);
  }

  /**
   * Layout `k` shows page `p` as built: the shared layout style and the page's rows
   * (stated row by row), ready for typing.
   */
  predicate ShowsPage(k: KeyboardLayout, p: Page)
    reads k
  {
    && k.style == CustomKeyboardLayoutStyle && k.typingEnabled && k.pressing.None?
    && |k.rows| == 4 && forall i :: 0 <= i < |k.rows| ==> k.rows[i] == PageRows(p)[i]
  }

  /** A layout built for page `p` has rows that can all be laid out. */
  lemma ShownRowsAreLaidOut(k: KeyboardLayout, p: Page, i: int)
    requires ShowsPage(k, p) && 0 <= i < |k.rows|
    ensures Resolved(k.rows[i].style) && DynamicSlots(k.rows[i].characters) > 0
  {
    RowsAreLaidOut(p, i);
  }

  /** `KeyboardLayout(style: CustomKeyboardLayoutStyle, rows: ...)`: a new layout object for one page. */
  method NewPageLayout(p: Page) returns (k: KeyboardLayout)
    ensures fresh(k) && ShowsPage(k, p)
  {
    k := new KeyboardLayout(CustomKeyboardLayoutStyle, PageRows(p));
  }

  /** The five page layouts `init` builds, in its order. */
  method NewPageLayouts() returns (u: KeyboardLayout, t: KeyboardLayout, l: KeyboardLayout, n: KeyboardLayout, s: KeyboardLayout)
    ensures fresh(u) && fresh(t) && fresh(l) && fresh(n) && fresh(s)
    ensures ShowsPage(u, Uppercase) && ShowsPage(t, UppercaseToggled) && ShowsPage(l, Lowercase)
            && ShowsPage(n, NumbersPage) && ShowsPage(s, SymbolsPage)
    ensures u != t && u != l && u != n && u != s && t != l && t != n && t != s && l != n && l != s && n != s
  {
    u := NewPageLayout(Uppercase);
    t := NewPageLayout(UppercaseToggled);
    l := NewPageLayout(Lowercase);
    n := NewPageLayout(NumbersPage);
    s := NewPageLayout(SymbolsPage);
  }

  /** `CustomKeyboardLayout`: one keyboard layout object per page, all built by `init`. */
  class CustomKeyboardLayout {
    var uppercase: KeyboardLayout
    var uppercaseToggled: KeyboardLayout
    var lowercase: KeyboardLayout
    var numbers: KeyboardLayout
    var symbols: KeyboardLayout

    /**
     * `init`: every page gets a layout object of its own, new and distinct from the
     * others, holding the shared layout style and that page's rows, ready for typing.
     */
    constructor ()
      ensures fresh(uppercase) && fresh(uppercaseToggled) && fresh(lowercase) && fresh(numbers) && fresh(symbols)
      ensures ShowsPage(uppercase, Uppercase) && ShowsPage(uppercaseToggled, UppercaseToggled)
              && ShowsPage(lowercase, Lowercase) && ShowsPage(numbers, NumbersPage) && ShowsPage(symbols, SymbolsPage)
      ensures uppercase != uppercaseToggled && uppercase != lowercase && uppercase != numbers && uppercase != symbols
              && uppercaseToggled != lowercase && uppercaseToggled != numbers && uppercaseToggled != symbols
              && lowercase != numbers && lowercase != symbols && numbers != symbols
    {
      var u, t, l, n, s := NewPageLayouts();
      uppercase, uppercaseToggled, lowercase, numbers, symbols := u, t, l, n, s;
    }
  }
}
