/**
 * The earlier CustomKeyboardLayout: the same five pages, built from a style value handed
 * to the initialiser, with its own identifiers for the three shift keys.
 */
module LegacyCustomKeyboardPages {
  import opened Wrappers
  import opened Buttons
  import opened Rows
  import opened Layouts
  import opened KeyboardIdentifiers
  import CustomKeyboardPages

  /** `CustomKeyboardLayoutStyle`: every style the pages are built from. */
  datatype PageStyle = PageStyle(
    layoutStyle: LayoutStyle,
    rowStyle: RowStyle,
    secondRowStyle: RowStyle,
    thirdRowStyle: RowStyle,
    childRowStyle: RowStyle,
    keyButtonStyle: ButtonStyle,
    leftKeyButtonStyle: ButtonStyle,
    rightKeyButtonStyle: ButtonStyle,
    lowercaseKeyButtonStyle: ButtonStyle,
    lowercaseLeftKeyButtonStyle: ButtonStyle,
    lowercaseRightKeyButtonStyle: ButtonStyle,
    spaceButtonStyle: ButtonStyle,
    backspaceButtonStyle: ButtonStyle,
    shiftButtonStyle: ButtonStyle,
    globeButtonStyle: ButtonStyle,
    returnButtonStyle: ButtonStyle,
    numbersButtonStyle: ButtonStyle)

  /** A style as `CustomKeyboardLayoutStyle()` starts out. */
  const DefaultPageStyle := PageStyle(
    NewLayoutStyle(),
    NewRowStyle(),
    NewRowStyle(leadingPadding := Some(22.0), leadingPaddingLandscape := Some(30.0),
                trailingPadding := Some(22.0), trailingPaddingLandscape := Some(30.0)),
    NewRowStyle(bottomPadding := Some(10.0), bottomPaddingLandscape := Some(6.0), buttonsPadding := Some(15.0)),
    NewRowStyle(leadingPadding := Some(0.0), trailingPadding := Some(0.0)),
    ButtonStyle(None, false, Some(Normal)),
    ButtonStyle(None, false, Some(Left)),
    ButtonStyle(None, false, Some(Right)),
    ButtonStyle(None, false, Some(Normal)),
    ButtonStyle(None, false, Some(Left)),
    ButtonStyle(None, false, Some(Right)),
    DefaultButtonStyle,
    ButtonStyle(Some(20.0), false, None),
    ButtonStyle(Some(20.0), false, None),
    ButtonStyle(Some(20.0), false, None),
    DefaultButtonStyle,
    DefaultButtonStyle)

  /** The third row of the default style is spaced apart and sits lower; nested rows have no side paddings. */
  lemma DefaultStyleRows()
    ensures DefaultPageStyle.thirdRowStyle.bottomPadding == Some(10.0)
    ensures DefaultPageStyle.thirdRowStyle.bottomPaddingLandscape == Some(6.0)
    ensures DefaultPageStyle.thirdRowStyle.buttonsPadding == 15.0
    ensures DefaultPageStyle.thirdRowStyle.buttonsPaddingLandscape == 15.0
    ensures var c := DefaultPageStyle.childRowStyle;
            c.leadingPadding == c.leadingPaddingLandscape == c.trailingPadding == c.trailingPaddingLandscape == 0.0
  {
  }

  function TopRow(s: PageStyle, p: Page): Row
  {
    match p
    case Lowercase =>
      NewRow(s.rowStyle, CustomKeyboardPages.EdgeKeys(CustomKeyboardPages.LowerTop, s.lowercaseLeftKeyButtonStyle,
                                                      s.lowercaseKeyButtonStyle, s.lowercaseRightKeyButtonStyle))
    case _ =>
      NewRow(s.rowStyle, CustomKeyboardPages.EdgeKeys(match p
                                                      case NumbersPage => CustomKeyboardPages.Digits
                                                      case SymbolsPage => CustomKeyboardPages.Brackets
                                                      case _ => CustomKeyboardPages.UpperTop,
                                                      s.leftKeyButtonStyle, s.keyButtonStyle, s.rightKeyButtonStyle))
  }

  function MiddleRow(s: PageStyle, p: Page): Row
  {
    match p
    case Uppercase | UppercaseToggled => NewRow(s.secondRowStyle, CustomKeyboardPages.Keys(CustomKeyboardPages.UpperMiddle, s.keyButtonStyle))
    case Lowercase => NewRow(s.secondRowStyle, CustomKeyboardPages.Keys(CustomKeyboardPages.LowerMiddle, s.lowercaseKeyButtonStyle))
    case NumbersPage =>
      NewRow(s.rowStyle, CustomKeyboardPages.EdgeKeys(CustomKeyboardPages.NumberSigns, s.leftKeyButtonStyle, s.keyButtonStyle, s.rightKeyButtonStyle))
    case SymbolsPage =>
      NewRow(s.rowStyle, CustomKeyboardPages.EdgeKeys(CustomKeyboardPages.SymbolSigns, s.leftKeyButtonStyle, s.keyButtonStyle, s.rightKeyButtonStyle))
  }

  function ModeKey(s: PageStyle, p: Page): KeyboardButton
  {
    match p
    case NumbersPage => NewButton(Text("#+="), s.numbersButtonStyle, Relative(0.115), Id(Symbols))
    case SymbolsPage => NewButton(Text("123"), s.numbersButtonStyle, Relative(0.115), Id(Numbers))
    case _ => NewButton(Image, s.shiftButtonStyle, Relative(0.115), Id(ShiftIdentifierOf(p)))
  }

  /** The nested row of the third row. */
  function ThirdRowKeys(s: PageStyle, p: Page): seq<Child>
  {
    match p
    case Uppercase | UppercaseToggled => CustomKeyboardPages.Keys(CustomKeyboardPages.UpperBottom, s.keyButtonStyle)
    case Lowercase => CustomKeyboardPages.Keys(CustomKeyboardPages.LowerBottom, s.lowercaseKeyButtonStyle)
    case _ => CustomKeyboardPages.Keys(CustomKeyboardPages.Punctuation, s.keyButtonStyle)
  }

  function ThirdRow(s: PageStyle, p: Page): Row
  {
    NewRow(s.thirdRowStyle, [Btn(ModeKey(s, p)), Sub(NewRow(s.childRowStyle, ThirdRowKeys(s, p))),
                             Btn(NewButton(Image, s.backspaceButtonStyle, Relative(0.115), Id(Backspace)))])
  }

  function FourthRow(s: PageStyle, p: Page): Row
  {
    var letters := p in {NumbersPage, SymbolsPage};
    NewRow(s.rowStyle, [
      Btn(NewButton(Text(if letters then "ABC" else "123"), s.numbersButtonStyle, Relative(0.115),
                    Id(if letters then Letters else Numbers))),
      Btn(NewButton(Image, s.globeButtonStyle, Relative(0.115), Id(Globe))),
      Btn(NewButton(Text("space"), s.spaceButtonStyle, Dynamic, Id(Space))),
      Btn(NewButton(Text("return"), s.returnButtonStyle, Relative(0.18), Id(Return)))])
  }

  /** `CustomKeyboardLayout(style:)`: the rows of each page. */
  function PageRows(s: PageStyle, p: Page): seq<Row>
  {
    [TopRow(s, p), MiddleRow(s, p), ThirdRow(s, p), FourthRow(s, p)]
  }

  predicate Keyed(id: Identifier, c: Child)
  {
    c.Btn? && c.button.identifier == Id(id)
  }

  /** Every row takes its style from the style value the pages are built from, and from nothing else. */
  lemma RowsFollowStyle(s: PageStyle, p: Page)
    ensures |PageRows(s, p)| == 4
    ensures PageRows(s, p)[0].style == s.rowStyle && PageRows(s, p)[3].style == s.rowStyle
    ensures PageRows(s, p)[1].style == if p in {NumbersPage, SymbolsPage} then s.rowStyle else s.secondRowStyle
    ensures PageRows(s, p)[2].style == s.thirdRowStyle
    ensures |PageRows(s, p)[2].characters| == 3 && PageRows(s, p)[2].characters[1].Sub?
            && PageRows(s, p)[2].characters[1].row.style == s.childRowStyle
  {
  }

  /** The third row leads with the page's mode key and ends with backspace. */
  lemma ThirdRowKeyed(s: PageStyle, p: Page)
    ensures var cs := ThirdRow(s, p).characters;
            |cs| == 3 && cs[0] == Btn(ModeKey(s, p)) && Keyed(Backspace, cs[2])
  {
  }

  /** The bottom row: the page key, globe, space and return. */
  lemma FourthRowKeyed(s: PageStyle, p: Page)
    ensures var cs := FourthRow(s, p).characters;
            |cs| == 4 && Keyed(if p in {NumbersPage, SymbolsPage} then Letters else Numbers, cs[0])
            && Keyed(Globe, cs[1]) && Keyed(Space, cs[2]) && Keyed(Return, cs[3])
  {
  }

  /** The keys that switch pages sit at the left of the third and fourth rows. */
  lemma PageKeys(s: PageStyle, p: Page)
    ensures |PageRows(s, p)| == 4 && |PageRows(s, p)[2].characters| == 3 && |PageRows(s, p)[3].characters| == 4
    ensures p in {Uppercase, UppercaseToggled, Lowercase} ==>
              Keyed(ShiftIdentifierOf(p), PageRows(s, p)[2].characters[0]) && Keyed(Numbers, PageRows(s, p)[3].characters[0])
    ensures p == NumbersPage ==>
              Keyed(Symbols, PageRows(s, p)[2].characters[0]) && Keyed(Letters, PageRows(s, p)[3].characters[0])
    ensures p == SymbolsPage ==>
              Keyed(Numbers, PageRows(s, p)[2].characters[0]) && Keyed(Letters, PageRows(s, p)[3].characters[0])
    ensures Keyed(Backspace, PageRows(s, p)[2].characters[2]) && Keyed(Globe, PageRows(s, p)[3].characters[1])
            && Keyed(Space, PageRows(s, p)[3].characters[2]) && Keyed(Return, PageRows(s, p)[3].characters[3])
  {
    ThirdRowKeyed(s, p);
    FourthRowKeyed(s, p);
    CustomKeyboardPages.LastTwoOfFour(TopRow(s, p), MiddleRow(s, p), ThirdRow(s, p), FourthRow(s, p));
  }

  /** The third row is a 0.115 key, a nested row and a 0.115 backspace: the nested row is its one share. */
  lemma ThirdRowWidths(s: PageStyle, p: Page)
    ensures var third := PageRows(s, p)[2].characters;
            |third| == 3 && third[0].Btn? && third[0].button.width == Relative(0.115)
            && third[2].Btn? && third[2].button.width == Relative(0.115)
            && DynamicSlots(third) == 1
  {
    CustomKeyboardPages.LastTwoOfFour(TopRow(s, p), MiddleRow(s, p), ThirdRow(s, p), FourthRow(s, p));
    var third := ThirdRow(s, p).characters;
    SlotsOfThree(third[0], third[1], third[2]);
    assert third == [third[0], third[1], third[2]];
  }

  /** The bottom row is 0.115, 0.115, a space bar that takes the rest, and 0.18. */
  lemma BottomRowWidths(s: PageStyle, p: Page)
    ensures var bottom := PageRows(s, p)[3].characters;
            |bottom| == 4 && (forall i :: 0 <= i < 4 ==> bottom[i].Btn?)
            && bottom[0].button.width == Relative(0.115) && bottom[1].button.width == Relative(0.115)
            && bottom[2].button.width == Dynamic && bottom[3].button.width == Relative(0.18)
            && DynamicSlots(bottom) == 1
  {
    var bottom := FourthRow(s, p).characters;
    SlotsOfFour(bottom[0], bottom[1], bottom[2], bottom[3]);
    assert bottom == [bottom[0], bottom[1], bottom[2], bottom[3]];
  }

  /** The two key rows start with a key that takes a share of the width. */
  lemma UpperRowsTakeShares(s: PageStyle, p: Page)
    ensures DynamicSlots(TopRow(s, p).characters) > 0 && DynamicSlots(MiddleRow(s, p).characters) > 0
  {
    ShareReaderMeansSlot(TopRow(s, p).characters, 0);
    ShareReaderMeansSlot(MiddleRow(s, p).characters, 0);
  }

  /** The third row shares its width with the nested row, the bottom row with the space bar. */
  lemma LowerRowsTakeShares(s: PageStyle, p: Page)
    ensures DynamicSlots(ThirdRow(s, p).characters) > 0 && DynamicSlots(FourthRow(s, p).characters) > 0
  {
    ShareReaderMeansSlot(ThirdRow(s, p).characters, 1);
    ShareReaderMeansSlot(FourthRow(s, p).characters, 2);
  }

  lemma EachSharesWidth(a: Row, b: Row, c: Row, d: Row, i: int)
    requires DynamicSlots(a.characters) > 0 && DynamicSlots(b.characters) > 0
    requires DynamicSlots(c.characters) > 0 && DynamicSlots(d.characters) > 0
    requires 0 <= i < 4
    ensures DynamicSlots([a, b, c, d][i].characters) > 0
  {
  }

  /** Every row of every page has a child that takes a share of the width, whatever the style. */
  lemma RowsShareWidth(s: PageStyle, p: Page, i: int)
    requires 0 <= i < |PageRows(s, p)|
    ensures DynamicSlots(PageRows(s, p)[i].characters) > 0
  {
    UpperRowsTakeShares(s, p);
    LowerRowsTakeShares(s, p);
    EachSharesWidth(TopRow(s, p), MiddleRow(s, p), ThirdRow(s, p), FourthRow(s, p), i);
  }

  /**
   * Layout `k` shows page `p` as built from style `s`: the style's layout style and the
   * page's rows (stated row by row), ready for typing.
   */
  predicate ShowsPage(k: KeyboardLayout, s: PageStyle, p: Page)
    reads k
  {
    && k.style == s.layoutStyle && k.typingEnabled && k.pressing.None?
    && |k.rows| == 4 && forall i :: 0 <= i < |k.rows| ==> k.rows[i] == PageRows(s, p)[i]
  }

  /** A layout built for page `p` has rows that each have a child that takes a share of the width. */
  lemma ShownRowsShareWidth(k: KeyboardLayout, s: PageStyle, p: Page, i: int)
    requires ShowsPage(k, s, p) && 0 <= i < |k.rows|
    ensures DynamicSlots(k.rows[i].characters) > 0
  {
    RowsShareWidth(s, p, i);
  }

  /** `KeyboardLayout(style: style.layoutStyle, rows: ...)`: a new layout object for one page. */
  method NewPageLayout(s: PageStyle, p: Page) returns (k: KeyboardLayout)
    ensures fresh(k) && ShowsPage(k, s, p)
  {
    k := new KeyboardLayout(s.layoutStyle, PageRows(s, p));
  }

  /** The five page layouts `init(style:)` builds, in its order. */
  method NewPageLayouts(style: PageStyle)
    returns (u: KeyboardLayout, t: KeyboardLayout, l: KeyboardLayout, n: KeyboardLayout, s: KeyboardLayout)
    ensures fresh(u) && fresh(t) && fresh(l) && fresh(n) && fresh(s)
    ensures ShowsPage(u, style, Uppercase) && ShowsPage(t, style, UppercaseToggled) && ShowsPage(l, style, Lowercase)
            && ShowsPage(n, style, NumbersPage) && ShowsPage(s, style, SymbolsPage)
    ensures u != t && u != l && u != n && u != s && t != l && t != n && t != s && l != n && l != s && n != s
  {
    u := NewPageLayout(style, Uppercase);
    t := NewPageLayout(style, UppercaseToggled);
    l := NewPageLayout(style, Lowercase);
    n := NewPageLayout(style, NumbersPage);
    s := NewPageLayout(style, SymbolsPage);
  }

  /** `CustomKeyboardLayout`: one keyboard layout object per page, all built by `init(style:)` from one style. */
  class CustomKeyboardLayout {
    var uppercase: KeyboardLayout
    var uppercaseToggled: KeyboardLayout
    var lowercase: KeyboardLayout
    var numbers: KeyboardLayout
    var symbols: KeyboardLayout

    /**
     * `init(style:)`: every page gets a layout object of its own, new and distinct from
     * the others, holding the style's layout style and that page's rows, ready for typing.
     */
    constructor (style: PageStyle)
      ensures fresh(uppercase) && fresh(uppercaseToggled) && fresh(lowercase) && fresh(numbers) && fresh(symbols)
      ensures ShowsPage(uppercase, style, Uppercase) && ShowsPage(uppercaseToggled, style, UppercaseToggled)
              && ShowsPage(lowercase, style, Lowercase) && ShowsPage(numbers, style, NumbersPage)
              && ShowsPage(symbols, style, SymbolsPage)
      ensures uppercase != uppercaseToggled && uppercase != lowercase && uppercase != numbers && uppercase != symbols
              && uppercaseToggled != lowercase && uppercaseToggled != numbers && uppercaseToggled != symbols
              && lowercase != numbers && lowercase != symbols && numbers != symbols
    {
      var u, t, l, n, s := NewPageLayouts(style);
      uppercase, uppercaseToggled, lowercase, numbers, symbols := u, t, l, n, s;
    }
  }
}
