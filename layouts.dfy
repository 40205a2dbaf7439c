/**
 * KeyboardLayout: one keyboard page. It stacks its rows top to bottom, offers lookup,
 * insertion and removal of keys, and turns touches into key events for its delegate.
 */
module Layouts {
  import opened Wrappers
  import opened Geometry
  import opened Buttons
  import opened Rows

  /** The page's vertical paddings and its fallback spacing between rows. */
  datatype LayoutStyle = LayoutStyle(topPadding: real, bottomPadding: real, rowPadding: real, rowPaddingLandscape: real)

  /** `KeyboardLayoutStyle(...)`: each omitted value takes its default. */
  function NewLayoutStyle(topPadding: Option<real> := None, bottomPadding: Option<real> := None,
                          rowPadding: Option<real> := None, rowPaddingLandscape: Option<real> := None): LayoutStyle
  {
    LayoutStyle(topPadding.GetOr(10.0), bottomPadding.GetOr(4.0), rowPadding.GetOr(12.0), rowPaddingLandscape.GetOr(6.0))
  }

  lemma DefaultLayoutStyle()
    ensures NewLayoutStyle() == LayoutStyle(10.0, 4.0, 12.0, 6.0)
  {
  }

  /** `subscript(safe:)`: the element when the index is in range, otherwise nothing. */
  function AtSafe<T>(s: seq<T>, i: int): (r: Option<T>)
    ensures r.Some? <==> 0 <= i < |s|
    ensures r.Some? ==> r.value == s[i]
  {
    if 0 <= i < |s| then Some(s[i]) else None
  }

  /**
   * `getRowPadding`: the space below a row is the row's own bottom padding for the
   * orientation; in landscape it falls back to the portrait bottom padding, and then to
   * the page's row spacing for that orientation.
   */
  function RowPadding(row: Row, style: LayoutStyle, isPortrait: bool): real
  {
    if isPortrait then row.style.bottomPadding.GetOr(style.rowPadding)
    else match row.style.bottomPaddingLandscape
         case Some(p) => p
         case None => row.style.bottomPadding.GetOr(style.rowPaddingLandscape)
  }

  /** A row built with `NewRowStyle` always supplies its own spacing, so the page's fallbacks are not read. */
  lemma ResolvedRowPadding(row: Row, style: LayoutStyle, isPortrait: bool)
    requires Resolved(row.style)
    ensures RowPadding(row, style, isPortrait)
            == if isPortrait then row.style.bottomPadding.value else row.style.bottomPaddingLandscape.value
  {
  }

  function PaddingSum(rows: seq<Row>, style: LayoutStyle, isPortrait: bool): real
  {
    if rows == [] then 0.0
    else PaddingSum(rows[..|rows| - 1], style, isPortrait) + RowPadding(rows[|rows| - 1], style, isPortrait)
  }

  /** `getRowPaddings`: the spacing below every row except the last one. */
  method GetRowPaddings(rows: seq<Row>, style: LayoutStyle, isPortrait: bool) returns (total: real)
    ensures |rows| == 0 ==> total == 0.0
    ensures |rows| > 0 ==> total == PaddingSum(rows[..|rows| - 1], style, isPortrait)
  {
    total := 0.0;
    var i := 0;
    while i < |rows|
      invariant 0 <= i <= |rows|
      invariant i < |rows| ==> total == PaddingSum(rows[..i], style, isPortrait)
      invariant i == |rows| ==> |rows| == 0
      invariant |rows| == 0 ==> total == 0.0
    {
      if i == |rows| - 1 {
        break;
      }
      assert rows[..i + 1][..i] == rows[..i];
      total := total + RowPadding(rows[i], style, isPortrait);
      i := i + 1;
    }
  }

  /** All the vertical space the rows do not get: every spacing between rows and the page paddings. */
  function TakenHeight(rows: seq<Row>, style: LayoutStyle, isPortrait: bool): real
    requires |rows| > 0
  {
    PaddingSum(rows[..|rows| - 1], style, isPortrait) + style.topPadding + style.bottomPadding
  }

  /**
   * `getOptimumRowHeight`: every row gets the same height, the space left in the
   * superview's height split evenly, and never negative.
   */
  function OptimumRowHeight(rows: seq<Row>, style: LayoutStyle, height: real, isPortrait: bool): (h: real)
    requires |rows| > 0
    ensures h >= 0.0
    ensures height >= TakenHeight(rows, style, isPortrait) ==>
              |rows| as real * h + TakenHeight(rows, style, isPortrait) == height
    ensures height < TakenHeight(rows, style, isPortrait) ==> h == 0.0
  {
    Max(0.0, (height - TakenHeight(rows, style, isPortrait)) / |rows| as real)
  }

  /** Where row `i` starts: `i` rows of height `h` and the spacing below each of them. */
  function RowY(rows: seq<Row>, style: LayoutStyle, isPortrait: bool, h: real, i: int): real
    requires 0 <= i <= |rows|
  {
    i as real * h + PaddingSum(rows[..i], style, isPortrait)
  }

  /** Each row starts one row height and one row spacing below the previous one. */
  lemma RowYStep(rows: seq<Row>, style: LayoutStyle, isPortrait: bool, h: real, i: int)
    requires 0 <= i < |rows|
    ensures RowY(rows, style, isPortrait, h, i + 1)
            == RowY(rows, style, isPortrait, h, i) + h + RowPadding(rows[i], style, isPortrait)
  {
    assert rows[..i + 1][..i] == rows[..i];
  }

  /**
   * The rows fill the page: when there is room for them, the last row ends exactly at
   * the bottom of the layout's frame, which is the superview's height less both paddings.
   */
  lemma RowsFillLayout(rows: seq<Row>, style: LayoutStyle, height: real, isPortrait: bool)
    requires |rows| > 0
    requires height >= TakenHeight(rows, style, isPortrait)
    ensures var h := OptimumRowHeight(rows, style, height, isPortrait);
            RowY(rows, style, isPortrait, h, |rows| - 1) + h == height - style.topPadding - style.bottomPadding
  {
    var n := |rows|;
    var h := OptimumRowHeight(rows, style, height, isPortrait);
    assert RowY(rows, style, isPortrait, h, n - 1) + h == n as real * h + PaddingSum(rows[..n - 1], style, isPortrait);
  }

  /** With non-negative row spacing, each row starts below the end of the previous one. */
  lemma RowsDoNotOverlap(rows: seq<Row>, style: LayoutStyle, isPortrait: bool, h: real, i: int)
    requires 0 <= i < |rows| - 1
    requires RowPadding(rows[i], style, isPortrait) >= 0.0
    ensures RowY(rows, style, isPortrait, h, i) + h <= RowY(rows, style, isPortrait, h, i + 1)
  {
    RowYStep(rows, style, isPortrait, h, i);
  }

  /** Every row takes the orientation the layout read from the screen. */
  function Reoriented(rows: seq<Row>, isPortrait: bool): (r: seq<Row>)
    ensures |r| == |rows|
    ensures forall i :: 0 <= i < |r| ==> r[i] == rows[i].(isPortrait := isPortrait)
  {
    seq(|rows|, i requires 0 <= i < |rows| => rows[i].(isPortrait := isPortrait))
  }

  /** `getKeyboardButton(atRowIndex:buttonIndex:)`: the key at that place, if both indices are in range and the child is a key. */
  function GetKeyboardButton(rows: seq<Row>, rowIndex: int, buttonIndex: int): (r: Option<KeyboardButton>)
    ensures r.Some? <==> 0 <= rowIndex < |rows| && 0 <= buttonIndex < |rows[rowIndex].characters|
                         && rows[rowIndex].characters[buttonIndex].Btn?
    ensures r.Some? ==> rows[rowIndex].characters[buttonIndex] == Btn(r.value)
  {
    match AtSafe(rows, rowIndex)
    case None => None
    case Some(row) =>
      match AtSafe(row.characters, buttonIndex)
      case None => None
      case Some(c) => if c.Btn? then Some(c.button) else None
  }

  /** A direct child that is a key with this identifier. */
  predicate HasIdentifier(c: Child, identifier: string)
  {
    c.Btn? && c.button.identifier == Some(identifier)
  }

  /** Position (`ri`, `bi`) is the first key with this identifier, rows in order and keys in order within a row. */
  predicate IsFirstWithIdentifier(rows: seq<Row>, identifier: string, ri: int, bi: int)
  {
    0 <= ri < |rows| && 0 <= bi < |rows[ri].characters|
    && HasIdentifier(rows[ri].characters[bi], identifier)
    && (forall rj, bj :: 0 <= rj < ri && 0 <= bj < |rows[rj].characters| ==>
          !HasIdentifier(rows[rj].characters[bj], identifier))
    && (forall bj :: 0 <= bj < bi ==> !HasIdentifier(rows[ri].characters[bj], identifier))
  }

  /**
   * `getKeyboardButton(withIdentifier:)`: the first key of the page with the identifier;
   * keys inside nested rows are not searched.
   */
  method GetKeyboardButtonWithIdentifier(rows: seq<Row>, identifier: string) returns (r: Option<KeyboardButton>)
    ensures r.None? <==> forall ri, bi :: 0 <= ri < |rows| && 0 <= bi < |rows[ri].characters| ==>
                                          !HasIdentifier(rows[ri].characters[bi], identifier)
    ensures r.Some? ==> exists ri, bi :: IsFirstWithIdentifier(rows, identifier, ri, bi)
                                         && rows[ri].characters[bi] == Btn(r.value)
  {
    var ri := 0;
    while ri < |rows|
      invariant 0 <= ri <= |rows|
      invariant forall rj, bj :: 0 <= rj < ri && 0 <= bj < |rows[rj].characters| ==>
                  !HasIdentifier(rows[rj].characters[bj], identifier)
    {
      var cs := rows[ri].characters;
      var bi := 0;
      while bi < |cs|
        invariant 0 <= bi <= |cs|
        invariant forall bj :: 0 <= bj < bi ==> !HasIdentifier(cs[bj], identifier)
      {
        if cs[bi].Btn? && cs[bi].button.identifier == Some(identifier) {
          assert IsFirstWithIdentifier(rows, identifier, ri, bi);
          return Some(cs[bi].button);
        }
        bi := bi + 1;
      }
      ri := ri + 1;
    }
    return None;
  }

  /** Where `addKeyboardButton` puts the key: at the index when it is inside the row, else at the end. */
  function InsertPosition(cs: seq<Child>, buttonIndex: Option<int>): (p: nat)
    requires buttonIndex.Some? && buttonIndex.value < |cs| ==> buttonIndex.value >= 0
    ensures p <= |cs|
    ensures buttonIndex.Some? && buttonIndex.value < |cs| ==> p == buttonIndex.value
    ensures buttonIndex.None? || buttonIndex.value >= |cs| ==> p == |cs|
  {
    if buttonIndex.Some? && buttonIndex.value < |cs| then buttonIndex.value else |cs|
  }

  /** The rows after `addKeyboardButton`; nothing changes when the row index is out of range. */
  function AddButton(rows: seq<Row>, button: KeyboardButton, rowIndex: int, buttonIndex: Option<int>): seq<Row>
    requires 0 <= rowIndex < |rows| && buttonIndex.Some? && buttonIndex.value < |rows[rowIndex].characters|
             ==> buttonIndex.value >= 0
  {
    if 0 <= rowIndex < |rows| then
      var cs := rows[rowIndex].characters;
      var p := InsertPosition(cs, buttonIndex);
      rows[rowIndex := rows[rowIndex].(characters := cs[..p] + [Btn(button)] + cs[p..])]
    else rows
  }

  /** The rows after `removeKeyboardButton`, and whether a child was removed. */
  function RemoveButton(rows: seq<Row>, rowIndex: int, buttonIndex: int): (seq<Row>, bool)
  {
    if 0 <= rowIndex < |rows| && 0 <= buttonIndex < |rows[rowIndex].characters| then
      var cs := rows[rowIndex].characters;
      (rows[rowIndex := rows[rowIndex].(characters := cs[..buttonIndex] + cs[buttonIndex + 1..])], true)
    else (rows, false)
  }

  /** After adding, the key is found at its insertion place and the row has one more child. */
  lemma AddThenGet(rows: seq<Row>, button: KeyboardButton, rowIndex: int, buttonIndex: Option<int>)
    requires 0 <= rowIndex < |rows|
    requires buttonIndex.Some? && buttonIndex.value < |rows[rowIndex].characters| ==> buttonIndex.value >= 0
    ensures var after := AddButton(rows, button, rowIndex, buttonIndex);
            |after| == |rows|
            && |after[rowIndex].characters| == |rows[rowIndex].characters| + 1
            && GetKeyboardButton(after, rowIndex, InsertPosition(rows[rowIndex].characters, buttonIndex)) == Some(button)
            && (forall i :: 0 <= i < |rows| && i != rowIndex ==> after[i] == rows[i])
  {
    var cs := rows[rowIndex].characters;
    var p := InsertPosition(cs, buttonIndex);
    assert (cs[..p] + [Btn(button)] + cs[p..])[p] == Btn(button);
  }

  /** Removing the key just added gives the rows back: the two operations are inverse. */
  lemma RemoveUndoesAdd(rows: seq<Row>, button: KeyboardButton, rowIndex: int, buttonIndex: Option<int>)
    requires 0 <= rowIndex < |rows|
    requires buttonIndex.Some? && buttonIndex.value < |rows[rowIndex].characters| ==> buttonIndex.value >= 0
    ensures RemoveButton(AddButton(rows, button, rowIndex, buttonIndex), rowIndex,
                         InsertPosition(rows[rowIndex].characters, buttonIndex)) == (rows, true)
  {
    var cs := rows[rowIndex].characters;
    var p := InsertPosition(cs, buttonIndex);
    var ins := cs[..p] + [Btn(button)] + cs[p..];
    var after := AddButton(rows, button, rowIndex, buttonIndex);
    assert after == rows[rowIndex := rows[rowIndex].(characters := ins)];
    assert after[rowIndex].characters == ins;
    assert ins[..p] + ins[p + 1..] == cs;
    assert after[rowIndex := after[rowIndex].(characters := cs)] == rows;
  }

  /** Removal succeeds exactly when both indices are in range, and then takes away one child. */
  lemma RemoveShrinks(rows: seq<Row>, rowIndex: int, buttonIndex: int)
    ensures RemoveButton(rows, rowIndex, buttonIndex).1
            <==> 0 <= rowIndex < |rows| && 0 <= buttonIndex < |rows[rowIndex].characters|
    ensures RemoveButton(rows, rowIndex, buttonIndex).1 ==>
              |RemoveButton(rows, rowIndex, buttonIndex).0[rowIndex].characters| == |rows[rowIndex].characters| - 1
    ensures !RemoveButton(rows, rowIndex, buttonIndex).1 ==> RemoveButton(rows, rowIndex, buttonIndex).0 == rows
  {
  }

  /** A key under a touch, with the identity of the key's view so that two equal-looking keys stay apart. */
  datatype ButtonHandle = ButtonHandle(ref: nat, button: KeyboardButton)

  /** What a touch lands on: a key, or some other view. */
  type Hit = Option<ButtonHandle>

  /** The calls the layout makes on its delegate, in order. */
  datatype LayoutEvent =
    | DidKeyPressStart(key: ButtonHandle)
    | DidKeyPressEnd(key: ButtonHandle)
    | DidDraggedIn(from: ButtonHandle, to: ButtonHandle)
    | DidTouchesBegin(touches: seq<Hit>)
    | DidTouchesMove(touches: seq<Hit>)
    | DidTouchesEnd(touches: seq<Hit>)
    | DidTouchesCancel(cancelled: Option<seq<Hit>>)

  /** One press-start event for every touch that lands on a key, in touch order. */
  function PressStarts(touches: seq<Hit>): seq<LayoutEvent>
  {
    if touches == [] then []
    else PressStarts(touches[..|touches| - 1])
         + (if touches[|touches| - 1].Some? then [DidKeyPressStart(touches[|touches| - 1].value)] else [])
  }

  /** One press-end event for every touch that lands on a key, in touch order. */
  function PressEnds(touches: seq<Hit>): seq<LayoutEvent>
  {
    if touches == [] then []
    else PressEnds(touches[..|touches| - 1])
         + (if touches[|touches| - 1].Some? then [DidKeyPressEnd(touches[|touches| - 1].value)] else [])
  }

  function HitCount(touches: seq<Hit>): nat
  {
    if touches == [] then 0 else HitCount(touches[..|touches| - 1]) + (if touches[|touches| - 1].Some? then 1 else 0)
  }

  /**
   * A press start is reported for exactly the touches on keys, in touch order: the touch
   * at `i`, when it hit a key, is reported at the place counted by the hits before it.
   */
  lemma {:induction false} PressStartsReportHits(touches: seq<Hit>)
    ensures |PressStarts(touches)| == HitCount(touches)
    ensures forall e :: e in PressStarts(touches) ==> e.DidKeyPressStart? && Some(e.key) in touches
    ensures forall i | 0 <= i < |touches| && touches[i].Some? ::
              HitCount(touches[..i]) < |PressStarts(touches)| && PressStarts(touches)[HitCount(touches[..i])] == DidKeyPressStart(touches[i].value)
    decreases |touches|
  {
    if touches != [] {
      var init := touches[..|touches| - 1];
      PressStartsReportHits(init);
      forall e | e in PressStarts(init) ensures Some(e.key) in touches {
        assert Some(e.key) in init;
        var k :| 0 <= k < |init| && init[k] == Some(e.key);
        assert touches[k] == init[k];
      }
      forall i | 0 <= i < |touches| && touches[i].Some?
        ensures HitCount(touches[..i]) < |PressStarts(touches)| && PressStarts(touches)[HitCount(touches[..i])] == DidKeyPressStart(touches[i].value)
      {
        if i < |init| {
          assert init[..i] == touches[..i];
          assert init[i] == touches[i];
        } else {
          assert touches[..i] == init;
        }
      }
    }
  }


  /** Likewise for press ends. */
  lemma {:induction false} PressEndsReportHits(touches: seq<Hit>)
    ensures |PressEnds(touches)| == HitCount(touches)
    ensures forall e :: e in PressEnds(touches) ==> e.DidKeyPressEnd? && Some(e.key) in touches
    ensures forall i | 0 <= i < |touches| && touches[i].Some? ::
              HitCount(touches[..i]) < |PressEnds(touches)| && PressEnds(touches)[HitCount(touches[..i])] == DidKeyPressEnd(touches[i].value)
    decreases |touches|
  {
    if touches != [] {
      var init := touches[..|touches| - 1];
      PressEndsReportHits(init);
      forall e | e in PressEnds(init) ensures Some(e.key) in touches {
        assert Some(e.key) in init;
        var k :| 0 <= k < |init| && init[k] == Some(e.key);
        assert touches[k] == init[k];
      }
      forall i | 0 <= i < |touches| && touches[i].Some?
        ensures HitCount(touches[..i]) < |PressEnds(touches)| && PressEnds(touches)[HitCount(touches[..i])] == DidKeyPressEnd(touches[i].value)
      {
        if i < |init| {
          assert init[..i] == touches[..i];
          assert init[i] == touches[i];
        } else {
          assert touches[..i] == init;
        }
      }
    }
  }


  class KeyboardLayout {
    var style: LayoutStyle
    var rows: seq<Row>
    /** When false, touches are still reported but no key events are produced. */
    var typingEnabled: bool
    /** The key currently held (`currentlyPressingKeyboardButton`). */
    var pressing: Option<ButtonHandle>

    constructor (style: LayoutStyle, rows: seq<Row>)
      ensures this.style == style && this.rows == rows
      ensures typingEnabled && pressing.None?
    {
      this.style := style;
      this.rows := rows;
      typingEnabled := true;
      pressing := None;
    }

    /**
     * `layoutSubviews`: without a superview nothing happens. Otherwise the layout's frame
     * spans the superview's width below the top padding, every row takes the screen
     * orientation, and rows are stacked from the top, each of the common row height and
     * followed by its own spacing.
     */
    method LayoutSubviews(superview: Option<Rect>, isPortrait: bool) returns (frame: Option<Rect>, rowFrames: seq<Rect>)
      modifies this
      ensures style == old(style) && typingEnabled == old(typingEnabled) && pressing == old(pressing)
      ensures superview.None? ==> frame.None? && rowFrames == [] && rows == old(rows)
      ensures superview.Some? ==>
                frame == Some(Rect(0.0, style.topPadding, superview.value.width,
                                   superview.value.height - style.topPadding - style.bottomPadding))
      ensures superview.Some? ==> rows == Reoriented(old(rows), isPortrait)
      ensures superview.Some? ==> |rowFrames| == |rows|
      ensures superview.Some? ==> forall i :: 0 <= i < |rowFrames| ==>
                rowFrames[i] == Rect(0.0, RowY(rows, style, isPortrait, OptimumRowHeight(rows, style, superview.value.height, isPortrait), i),
                                     superview.value.width, OptimumRowHeight(rows, style, superview.value.height, isPortrait))
    {
      rowFrames := [];
      if superview.None? {
        frame := None;
        return;
      }
      var sv := superview.value;
      var layoutHeight := sv.height - style.topPadding - style.bottomPadding;
      frame := Some(Rect(0.0, style.topPadding, sv.width, layoutHeight));
      rows := Reoriented(rows, isPortrait);
      rowFrames := StackRows(rows, style, isPortrait, sv.width, sv.height);
    }

    /** `addKeyboardButton`; an index below zero inside an existing row would make the insertion trap. */
    method AddKeyboardButton(button: KeyboardButton, rowAtIndex: int, buttonIndex: Option<int>)
      requires 0 <= rowAtIndex < |rows| && buttonIndex.Some? && buttonIndex.value < |rows[rowAtIndex].characters|
               ==> buttonIndex.value >= 0
      modifies this
      ensures rows == AddButton(old(rows), button, rowAtIndex, buttonIndex)
      ensures style == old(style) && typingEnabled == old(typingEnabled) && pressing == old(pressing)
    {
      if 0 <= rowAtIndex < |rows| {
        var row := rows[rowAtIndex];
        var cs := row.characters;
        if buttonIndex.Some? && buttonIndex.value < |cs| {
          var index := buttonIndex.value;
          cs := cs[..index] + [Btn(button)] + cs[index..];
        } else {
          cs := cs + [Btn(button)];
          assert cs == row.characters[..|row.characters|] + [Btn(button)] + row.characters[|row.characters|..];
        }
        rows := rows[rowAtIndex := row.(characters := cs)];
      }
    }

    /** `removeKeyboardButton`: removes the child at that place, button or nested row, and says whether it could. */
    method RemoveKeyboardButton(rowIndex: int, buttonIndex: int) returns (removed: bool)
      modifies this
      ensures (rows, removed) == RemoveButton(old(rows), rowIndex, buttonIndex)
      ensures style == old(style) && typingEnabled == old(typingEnabled) && pressing == old(pressing)
    {
      var row := AtSafe(rows, rowIndex);
      if row.Some? && AtSafe(row.value.characters, buttonIndex).Some? {
        var cs := row.value.characters;
        rows := rows[rowIndex := row.value.(characters := cs[..buttonIndex] + cs[buttonIndex + 1..])];
        return true;
      }
      return false;
    }

    /**
     * `touchesBegan`: the delegate hears of the touches first; when typing is enabled every
     * touch on a key starts a press, and the key under the last touch becomes the held key.
     */
    method TouchesBegan(touches: seq<Hit>) returns (events: seq<LayoutEvent>)
      modifies this
      ensures events == [DidTouchesBegin(touches)] + (if old(typingEnabled) then PressStarts(touches) else [])
      ensures pressing == if old(typingEnabled) && |touches| > 0 && touches[|touches| - 1].Some?
                          then touches[|touches| - 1] else old(pressing)
      ensures style == old(style) && rows == old(rows) && typingEnabled == old(typingEnabled)
    {
      events := [DidTouchesBegin(touches)];
      if !typingEnabled {
        return;
      }
      var index := 0;
      while index < |touches|
        invariant 0 <= index <= |touches|
        invariant events == [DidTouchesBegin(touches)] + PressStarts(touches[..index])
        invariant pressing == if index == |touches| && index > 0 && touches[index - 1].Some?
                              then touches[index - 1] else old(pressing)
        invariant style == old(style) && rows == old(rows) && typingEnabled == old(typingEnabled)
      {
        assert touches[..index + 1][..index] == touches[..index];
        if touches[index].Some? {
          if index == |touches| - 1 {
            pressing := touches[index];
          }
          events := events + [DidKeyPressStart(touches[index].value)];
        }
        index := index + 1;
      }
      assert touches[..index] == touches;
    }

    /**
     * `touchesMoved`: only the first touch counts. Sliding onto a different key makes it the
     * held key, and reports the drag when some key was held before; sliding within the
     * held key or off the keys changes nothing.
     */
    method TouchesMoved(touches: seq<Hit>) returns (events: seq<LayoutEvent>)
      modifies this
      ensures var first: Hit := if |touches| > 0 then touches[0] else None;
              var moves := old(typingEnabled) && first.Some? && first != old(pressing);
              pressing == (if moves then first else old(pressing))
              && events == [DidTouchesMove(touches)]
                           + (if moves && old(pressing).Some? then [DidDraggedIn(old(pressing).value, first.value)] else [])
      ensures style == old(style) && rows == old(rows) && typingEnabled == old(typingEnabled)
    {
      events := [DidTouchesMove(touches)];
      if !typingEnabled {
        return;
      }
      if |touches| > 0 {
        var touch := touches[0];
        if touch.Some? {
          var button := touch.value;
          if pressing == Some(button) {
            return;
          }
          if pressing.Some? {
            events := events + [DidDraggedIn(pressing.value, button)];
          }
          pressing := Some(button);
        }
      }
    }

    /**
     * `touchesEnded`: the delegate hears of the touches first; when typing is enabled the
     * held key is released and every touch on a key ends a press. With typing disabled the
     * held key stays.
     */
    method TouchesEnded(touches: seq<Hit>) returns (events: seq<LayoutEvent>)
      modifies this
      ensures events == [DidTouchesEnd(touches)] + (if old(typingEnabled) then PressEnds(touches) else [])
      ensures pressing == if old(typingEnabled) then None else old(pressing)
      ensures style == old(style) && rows == old(rows) && typingEnabled == old(typingEnabled)
    {
      events := [DidTouchesEnd(touches)];
      if !typingEnabled {
        return;
      }
      pressing := None;
      var index := 0;
      while index < |touches|
        invariant 0 <= index <= |touches|
        invariant events == [DidTouchesEnd(touches)] + PressEnds(touches[..index])
      {
        assert touches[..index + 1][..index] == touches[..index];
        if touches[index].Some? {
          events := events + [DidKeyPressEnd(touches[index].value)];
        }
        index := index + 1;
      }
      assert touches[..index] == touches;
    }

    /** `touchesCancelled`: the held key is always released, whether or not typing is enabled. */
    method TouchesCancelled(touches: Option<seq<Hit>>) returns (events: seq<LayoutEvent>)
      modifies this
      ensures pressing.None? && events == [DidTouchesCancel(touches)]
      ensures style == old(style) && rows == old(rows) && typingEnabled == old(typingEnabled)
    {
      pressing := None;
      events := [DidTouchesCancel(touches)];
    }
  }

  /**
   * The row frames `layoutSubviews` assigns: full width, the common row height, each row
   * starting below the previous one and its spacing.
   */
  method StackRows(rows: seq<Row>, style: LayoutStyle, isPortrait: bool, width: real, height: real)
    returns (rowFrames: seq<Rect>)
    ensures |rowFrames| == |rows|
    ensures forall i :: 0 <= i < |rowFrames| ==>
              rowFrames[i] == Rect(0.0, RowY(rows, style, isPortrait, OptimumRowHeight(rows, style, height, isPortrait), i),
                                   width, OptimumRowHeight(rows, style, height, isPortrait))
  {
    rowFrames := [];
    if |rows| == 0 {
      return;
    }
    var paddings := GetRowPaddings(rows, style, isPortrait);
    var optimumRowHeight := Max(0.0, (height - (paddings + style.topPadding + style.bottomPadding)) / |rows| as real);
    assert optimumRowHeight == OptimumRowHeight(rows, style, height, isPortrait);
    var currentY := 0.0;
    var i := 0;
    while i < |rows|
      invariant 0 <= i <= |rows|
      invariant |rowFrames| == i
      invariant forall j :: 0 <= j < i ==>
                  rowFrames[j] == Rect(0.0, RowY(rows, style, isPortrait, optimumRowHeight, j), width, optimumRowHeight)
      invariant currentY == RowY(rows, style, isPortrait, optimumRowHeight, i)
    {
      rowFrames := rowFrames + [Rect(0.0, currentY, width, optimumRowHeight)];
      RowYStep(rows, style, isPortrait, optimumRowHeight, i);
      currentY := currentY + optimumRowHeight + RowPadding(rows[i], style, isPortrait);
      i := i + 1;
    }
  }
}
