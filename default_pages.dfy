/**
 * DefaultKeyboardLayout: the five pages of the DefaultKeyboard, built from fixed styles.
 * Colours and fonts are not modelled; the styles keep the image sizes and the pop-up flag.
 */
module DefaultKeyboardPages {
  import opened Wrappers
  import opened Buttons
  import opened Rows
  import opened Layouts
  import opened KeyboardIdentifiers
  import CustomKeyboardPages

  const LayoutStyle := NewLayoutStyle(topPadding := Some(10.0), bottomPadding := Some(5.0), rowPadding := Some(13.0))

  const RowStyle := NewRowStyle(leadingPadding := Some(5.0), trailingPadding := Some(5.0), buttonsPadding := Some(6.0))
  const SecondRowStyle := NewRowStyle(leadingPadding := Some(20.0), trailingPadding := Some(20.0), buttonsPadding := Some(6.0))
  const ThirdRowStyle := NewRowStyle(leadingPadding := Some(10.0), trailingPadding := Some(10.0), buttonsPadding := Some(6.0))

  /** Character keys show a pop-up; no other key does. */
  const KeyStyle := ButtonStyle(None, true, None)
  /** Shift and backspace draw their icon 18 points across, the globe 20. */
  const DarkImageStyle := ButtonStyle(Some(18.0), false, None)
  const GlobeStyle := ButtonStyle(Some(20.0), false, None)

  /** The third-row keys of the number and symbol pages; the source spells "," twice. */
  const SignPunctuation: seq<string> := [".", ",", "?", "!", ","]

  function TopRow(p: Page): Row
  {
    NewRow(RowStyle, CustomKeyboardPages.Keys(match p
                                              case Lowercase => CustomKeyboardPages.LowerTop
                                              case NumbersPage => CustomKeyboardPages.Digits
                                              case SymbolsPage => CustomKeyboardPages.Brackets
                                              case _ => CustomKeyboardPages.UpperTop, KeyStyle))
  }

  function MiddleRow(p: Page): Row
  {
    match p
    case Uppercase | UppercaseToggled => NewRow(SecondRowStyle, CustomKeyboardPages.Keys(CustomKeyboardPages.UpperMiddle, KeyStyle))
    case Lowercase => NewRow(SecondRowStyle, CustomKeyboardPages.Keys(CustomKeyboardPages.LowerMiddle, KeyStyle))
    case NumbersPage => NewRow(RowStyle, CustomKeyboardPages.Keys(CustomKeyboardPages.NumberSigns, KeyStyle))
    case SymbolsPage => NewRow(RowStyle, CustomKeyboardPages.Keys(CustomKeyboardPages.SymbolSigns, KeyStyle))
  }

  /** The key at the left of the third row: shift on a letter page, otherwise the key to the other sign page. */
  function ModeKey(p: Page): KeyboardButton
  {
    match p
    case NumbersPage => NewButton(Text("#+="), DefaultButtonStyle, Relative(0.13), Id(Symbols))
    case SymbolsPage => NewButton(Text("123"), DefaultButtonStyle, Relative(0.13), Id(Numbers))
    case _ => NewButton(Image, DarkImageStyle, Relative(0.13), Id(ShiftIdentifierOf(p)))
  }

  /** The nested row of the third row. */
  function ThirdRowKeys(p: Page): seq<string>
  {
    match p
    case Uppercase | UppercaseToggled => CustomKeyboardPages.UpperBottom
    case Lowercase => CustomKeyboardPages.LowerBottom
    case _ => SignPunctuation
  }

  function ThirdRow(p: Page): Row
  {
    NewRow(RowStyle, [Btn(ModeKey(p)), Sub(NewRow(ThirdRowStyle, CustomKeyboardPages.Keys(ThirdRowKeys(p), KeyStyle))),
                      Btn(NewButton(Image, DarkImageStyle, Relative(0.13), Id(Backspace)))])
  }

  function FourthRow(p: Page): Row
  {
    var letters := p in {NumbersPage, SymbolsPage};
    NewRow(RowStyle, [
      Btn(NewButton(Text(if letters then "ABC" else "123"), DefaultButtonStyle, Relative(0.13),
                    Id(if letters then Letters else Numbers))),
      Btn(NewButton(Image, GlobeStyle, Static(40.0), Id(Globe))),
      Btn(NewButton(Text("space"), DefaultButtonStyle, Dynamic, Id(Space))),
      Btn(NewButton(Text("return"), DefaultButtonStyle, Relative(0.2), Id(Return)))])
  }

  /** `keyboardLayout`: the rows of each page. */
  function PageRows(p: Page): seq<Row>
  {
    [TopRow(p), MiddleRow(p), ThirdRow(p), FourthRow(p)]
  }

  predicate Keyed(id: Identifier, c: Child)
  {
    c.Btn? && c.button.identifier == Id(id)
  }

  /** The layout style and the row styles: every row uses the plain row style except the letter pages' second row. */
  lemma PageStyles(p: Page)
    ensures LayoutStyle == Layouts.LayoutStyle(10.0, 5.0, 13.0, 6.0)
    ensures RowStyle.leadingPadding == RowStyle.trailingPadding == 5.0 && RowStyle.buttonsPadding == 6.0
    ensures SecondRowStyle.leadingPadding == SecondRowStyle.trailingPadding == 20.0
    ensures ThirdRowStyle.leadingPadding == ThirdRowStyle.trailingPadding == 10.0
    ensures |PageRows(p)| == 4
    ensures PageRows(p)[0].style == RowStyle && PageRows(p)[2].style == RowStyle && PageRows(p)[3].style == RowStyle
    ensures PageRows(p)[1].style == if p in {NumbersPage, SymbolsPage} then RowStyle else SecondRowStyle
    ensures |PageRows(p)[2].characters| == 3 && PageRows(p)[2].characters[1].Sub?
            && PageRows(p)[2].characters[1].row.style == ThirdRowStyle
  {
  }

  /** The third row leads with the page's mode key and ends with backspace. */
  lemma ThirdRowKeyed(p: Page)
    ensures var cs := ThirdRow(p).characters;
            |cs| == 3 && cs[0] == Btn(ModeKey(p)) && Keyed(Backspace, cs[2])
  {
  }

  /** The bottom row: the page key, globe, space and return. */
  lemma FourthRowKeyed(p: Page)
    ensures var cs := FourthRow(p).characters;
            |cs| == 4 && Keyed(if p in {NumbersPage, SymbolsPage} then Letters else Numbers, cs[0])
            && Keyed(Globe, cs[1]) && Keyed(Space, cs[2]) && Keyed(Return, cs[3])
  {
  }

  /** The keys that switch pages sit at the left of the third and fourth rows; the others where the source puts them. */
  lemma PageKeys(p: Page)
    ensures |PageRows(p)| == 4 && |PageRows(p)[2].characters| == 3 && |PageRows(p)[3].characters| == 4
    ensures p in {Uppercase, UppercaseToggled, Lowercase} ==>
              Keyed(ShiftIdentifierOf(p), PageRows(p)[2].characters[0]) && Keyed(Numbers, PageRows(p)[3].characters[0])
    ensures p == NumbersPage ==>
              Keyed(Symbols, PageRows(p)[2].characters[0]) && Keyed(Letters, PageRows(p)[3].characters[0])
    ensures p == SymbolsPage ==>
              Keyed(Numbers, PageRows(p)[2].characters[0]) && Keyed(Letters, PageRows(p)[3].characters[0])
    ensures Keyed(Backspace, PageRows(p)[2].characters[2]) && Keyed(Globe, PageRows(p)[3].characters[1])
            && Keyed(Space, PageRows(p)[3].characters[2]) && Keyed(Return, PageRows(p)[3].characters[3])
  {
    ThirdRowKeyed(p);
    FourthRowKeyed(p);
    CustomKeyboardPages.LastTwoOfFour(TopRow(p), MiddleRow(p), ThirdRow(p), FourthRow(p));
  }

  /** Only the toggled upper-case page differs from the upper-case page, and only in its shift key. */
  lemma UppercasePagesDifferOnlyInShift()
    ensures PageRows(UppercaseToggled)[0] == PageRows(Uppercase)[0]
    ensures PageRows(UppercaseToggled)[1] == PageRows(Uppercase)[1]
    ensures PageRows(UppercaseToggled)[3] == PageRows(Uppercase)[3]
    ensures PageRows(UppercaseToggled)[2].characters[1..] == PageRows(Uppercase)[2].characters[1..]
    ensures PageRows(UppercaseToggled)[2].characters[0] != PageRows(Uppercase)[2].characters[0]
  {
    assert RawValue(ShiftToggled) != RawValue(ShiftToggledOnce);
  }

  /** The number and symbol pages share their third row's keys, and the comma appears on it twice. */
  lemma SignPagesRepeatComma()
    ensures ThirdRowKeys(NumbersPage) == ThirdRowKeys(SymbolsPage)
    ensures ThirdRowKeys(NumbersPage)[1] == ThirdRowKeys(NumbersPage)[4] == ","
    ensures "'" !in ThirdRowKeys(NumbersPage)
  {
  }

  /** The third row is a 0.13 key, the nested row and a 0.13 backspace: the nested row is its one share. */
  lemma ThirdRowWidths(p: Page)
    ensures var third := PageRows(p)[2].characters;
            |third| == 3 && third[0].Btn? && third[0].button.width == Relative(0.13)
            && third[2].Btn? && third[2].button.width == Relative(0.13)
            && DynamicSlots(third) == 1
  {
    CustomKeyboardPages.LastTwoOfFour(TopRow(p), MiddleRow(p), ThirdRow(p), FourthRow(p));
    var third := ThirdRow(p).characters;
    SlotsOfThree(third[0], third[1], third[2]);
    assert third == [third[0], third[1], third[2]];
  }

  /** The bottom row is 0.13, a 40-point globe, a space bar that takes the rest, and 0.2. */
  lemma BottomRowWidths(p: Page)
    ensures var bottom := PageRows(p)[3].characters;
            |bottom| == 4 && (forall i :: 0 <= i < 4 ==> bottom[i].Btn?)
            && bottom[0].button.width == Relative(0.13) && bottom[1].button.width == Static(40.0)
            && bottom[2].button.width == Dynamic && bottom[3].button.width == Relative(0.2)
            && DynamicSlots(bottom) == 1
  {
    CustomKeyboardPages.LastTwoOfFour(TopRow(p), MiddleRow(p), ThirdRow(p), FourthRow(p));
    var bottom := FourthRow(p).characters;
    SlotsOfFour(bottom[0], bottom[1], bottom[2], bottom[3]);
    assert bottom == [bottom[0], bottom[1], bottom[2], bottom[3]];
  }

  /** The two key rows have both bottom paddings and start with a key that takes a share of the width. */
  lemma UpperRowsLaidOut(p: Page)
    ensures CustomKeyboardPages.LaidOut(TopRow(p)) && CustomKeyboardPages.LaidOut(MiddleRow(p))
  {
    ShareReaderMeansSlot(TopRow(p).characters, 0);
    ShareReaderMeansSlot(MiddleRow(p).characters, 0);
  }

  /** The third row shares its width with the nested row, the bottom row with the space bar. */
  lemma LowerRowsLaidOut(p: Page)
    ensures CustomKeyboardPages.LaidOut(ThirdRow(p)) && CustomKeyboardPages.LaidOut(FourthRow(p))
  {
    ShareReaderMeansSlot(ThirdRow(p).characters, 1);
    ShareReaderMeansSlot(FourthRow(p).characters, 2);
  }

  /** Every row on every page gives both bottom paddings and has a child that takes a share of its width. */
  lemma RowsAreLaidOut(p: Page, i: int)
    requires 0 <= i < |PageRows(p)|
    ensures Resolved(PageRows(p)[i].style)
    ensures DynamicSlots(PageRows(p)[i].characters) > 0
  {
    UpperRowsLaidOut(p);
    LowerRowsLaidOut(p);
    CustomKeyboardPages.EachOfFour(TopRow(p), MiddleRow(p), ThirdRow(p), FourthRow(p), i);
  }

  /**
   * `keyboardLayout`: every read builds a new layout object for the page, holding the
   * shared layout style and the page's rows, ready for typing.
   */
  method KeyboardLayoutOf(p: Page) returns (k: KeyboardLayout)
    ensures fresh(k)
    ensures k.style == LayoutStyle && k.rows == PageRows(p)
    ensures k.typingEnabled && k.pressing.None?
  {
    k := new KeyboardLayout(LayoutStyle, PageRows(p));
  }
}
