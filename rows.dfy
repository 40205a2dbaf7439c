/**
 * KeyboardRow: a horizontal strip of buttons and nested rows. The row shares its width
 * between its children: fixed and relative keys take their own width, and whatever is
 * left is split evenly between the dynamic keys and the nested rows.
 */
module Rows {
  import opened Wrappers
  import opened Geometry
  import opened Buttons

  /**
   * Paddings of a row, each in portrait and landscape. The bottom paddings are optional
   * because the page layout falls back to its own row spacing when a row gives none.
   */
  datatype RowStyle = RowStyle(
    leadingPadding: real, leadingPaddingLandscape: real,
    trailingPadding: real, trailingPaddingLandscape: real,
    topPadding: real, topPaddingLandscape: real,
    bottomPadding: Option<real>, bottomPaddingLandscape: Option<real>,
    buttonsPadding: real, buttonsPaddingLandscape: real)

  /** Both bottom paddings are present, as for every style built with `NewRowStyle`. */
  predicate Resolved(style: RowStyle)
  {
    style.bottomPadding.Some? && style.bottomPaddingLandscape.Some?
  }

  /**
   * `KeyboardRowStyle(...)`: an omitted portrait value takes its default, an omitted
   * landscape value takes the given portrait value, else its own default.
   */
  function NewRowStyle(
    leadingPadding: Option<real> := None, leadingPaddingLandscape: Option<real> := None,
    trailingPadding: Option<real> := None, trailingPaddingLandscape: Option<real> := None,
    topPadding: Option<real> := None, topPaddingLandscape: Option<real> := None,
    bottomPadding: Option<real> := None, bottomPaddingLandscape: Option<real> := None,
    buttonsPadding: Option<real> := None, buttonsPaddingLandscape: Option<real> := None): (s: RowStyle)
    ensures Resolved(s)
  {
    RowStyle(
      leadingPadding.GetOr(3.0), leadingPaddingLandscape.GetOr(leadingPadding.GetOr(3.0)),
      trailingPadding.GetOr(3.0), trailingPaddingLandscape.GetOr(trailingPadding.GetOr(3.0)),
      topPadding.GetOr(6.0), topPaddingLandscape.GetOr(topPadding.GetOr(6.0)),
      Some(bottomPadding.GetOr(6.0)), Some(bottomPaddingLandscape.GetOr(bottomPadding.GetOr(4.0))),
      buttonsPadding.GetOr(6.0), buttonsPaddingLandscape.GetOr(buttonsPadding.GetOr(5.0)))
  }

  /** The defaults of an all-default style. */
  lemma DefaultRowStyle()
    ensures NewRowStyle() == RowStyle(3.0, 3.0, 3.0, 3.0, 6.0, 6.0, Some(6.0), Some(4.0), 6.0, 5.0)
  {
  }

  /** Giving only the portrait values makes landscape use the same values. */
  lemma LandscapeFollowsPortrait(leading: real, trailing: real, top: real, bottom: real, buttons: real)
    ensures var s := NewRowStyle(leadingPadding := Some(leading), trailingPadding := Some(trailing),
                                 topPadding := Some(top), bottomPadding := Some(bottom),
                                 buttonsPadding := Some(buttons));
            s.leadingPaddingLandscape == s.leadingPadding == leading
            && s.trailingPaddingLandscape == s.trailingPadding == trailing
            && s.topPaddingLandscape == s.topPadding == top
            && s.bottomPaddingLandscape == s.bottomPadding == Some(bottom)
            && s.buttonsPaddingLandscape == s.buttonsPadding == buttons
  {
  }

  /** A child of a row is a button or a nested row. */
  datatype Child = Btn(button: KeyboardButton) | Sub(row: Row)

  /**
   * A row with its children and its two runtime fields: the orientation the enclosing
   * layout last gave it, and whether it is nested inside another row (`parentRow != nil`).
   */
  datatype Row = Row(style: RowStyle, characters: seq<Child>, isPortrait: bool, hasParent: bool)

  /** `KeyboardRow(style:characters:)`: a fresh row starts in portrait and without a parent. */
  function NewRow(style: RowStyle, characters: seq<Child>): (r: Row)
    ensures r.style == style && r.characters == characters
    ensures r.isPortrait && !r.hasParent
  {
    Row(style, characters, true, false)
  }

  function LeadingPadding(r: Row): real
  {
    if r.isPortrait then r.style.leadingPadding else r.style.leadingPaddingLandscape
  }

  function TrailingPadding(r: Row): real
  {
    if r.isPortrait then r.style.trailingPadding else r.style.trailingPaddingLandscape
  }

  function ButtonsPadding(r: Row): real
  {
    if r.isPortrait then r.style.buttonsPadding else r.style.buttonsPaddingLandscape
  }

  /** Each padding getter reads the field of the row's current orientation. */
  lemma PaddingsFollowOrientation(r: Row)
    ensures r.isPortrait ==> LeadingPadding(r) == r.style.leadingPadding
                              && TrailingPadding(r) == r.style.trailingPadding
                              && ButtonsPadding(r) == r.style.buttonsPadding
    ensures !r.isPortrait ==> LeadingPadding(r) == r.style.leadingPaddingLandscape
                               && TrailingPadding(r) == r.style.trailingPaddingLandscape
                               && ButtonsPadding(r) == r.style.buttonsPaddingLandscape
  {
  }

  /**
   * `getRelativeWidthForPercent`: the given share of the row's width once the leading,
   * trailing and inter-key paddings are taken off.
   */
  function RelativeWidth(r: Row, width: real, percent: real): real
  {
    var gaps := Max(0.0, (|r.characters| - 1) as real) * ButtonsPadding(r);
    (width - (gaps + LeadingPadding(r) + TrailingPadding(r))) * percent
  }

  /** Children that take a share of the leftover width: dynamic keys and nested rows. */
  predicate TakesShare(c: Child)
  {
    c.Sub? || c.button.width.Dynamic?
  }

  function DynamicSlots(cs: seq<Child>): nat
  {
    if cs == [] then 0
    else DynamicSlots(cs[..|cs| - 1]) + (if TakesShare(cs[|cs| - 1]) then 1 else 0)
  }

  /** The width a child takes without sharing: static and relative keys. */
  function FixedWidth(r: Row, width: real, c: Child): real
  {
    match c
    case Sub(_) => 0.0
    case Btn(b) =>
      match b.width
      case Dynamic => 0.0
      case Static(w) => w
      case Relative(p) => RelativeWidth(r, width, p)
  }

  function FixedWidthSum(r: Row, width: real, cs: seq<Child>): real
  {
    if cs == [] then 0.0 else FixedWidthSum(r, width, cs[..|cs| - 1]) + FixedWidth(r, width, cs[|cs| - 1])
  }

  /** A nested row's own leading and trailing paddings, in the nested row's orientation. */
  function ChildPadding(c: Child): real
  {
    match c
    case Btn(_) => 0.0
    case Sub(s) => LeadingPadding(s) + TrailingPadding(s)
  }

  function ChildPaddingSum(cs: seq<Child>): real
  {
    if cs == [] then 0.0 else ChildPaddingSum(cs[..|cs| - 1]) + ChildPadding(cs[|cs| - 1])
  }

  /**
   * The width of one share: what is left of the row once every padding, every fixed key
   * and every nested row's own paddings are taken off, split between the sharing children.
   */
  function OptimumWidth(r: Row, width: real): real
    requires DynamicSlots(r.characters) > 0
  {
    var gaps := Max(0.0, (|r.characters| - 1) as real * ButtonsPadding(r));
    var taken := gaps + FixedWidthSum(r, width, r.characters) + ChildPaddingSum(r.characters)
                 + LeadingPadding(r) + TrailingPadding(r);
    (width - taken) / DynamicSlots(r.characters) as real
  }

  /** The share width where one is used; with no sharing child no frame reads it. */
  function UsedOptimum(r: Row, width: real): real
  {
    if DynamicSlots(r.characters) > 0 then OptimumWidth(r, width) else 0.0
  }

  /**
   * `getOptimumButtonWidth`. With no dynamic key and no nested row the source divides
   * by zero, which yields no finite number: the result is then `None`.
   */
  method GetOptimumButtonWidth(r: Row, width: real) returns (opt: Option<real>)
    ensures opt.Some? <==> DynamicSlots(r.characters) > 0
    ensures opt.Some? ==> opt.value == OptimumWidth(r, width)
  {
    var count := 0;
    var staticTotal := 0.0;
    var childRowPadding := 0.0;
    var i := 0;
    while i < |r.characters|
      invariant 0 <= i <= |r.characters|
      invariant count == DynamicSlots(r.characters[..i])
      invariant staticTotal == FixedWidthSum(r, width, r.characters[..i])
      invariant childRowPadding == ChildPaddingSum(r.characters[..i])
    {
      assert r.characters[..i + 1][..i] == r.characters[..i];
      match r.characters[i] {
        case Btn(b) =>
          match b.width {
            case Dynamic => count := count + 1;
            case Static(w) => staticTotal := staticTotal + w;
            case Relative(p) => staticTotal := staticTotal + RelativeWidth(r, width, p);
          }
        case Sub(s) =>
          childRowPadding := childRowPadding + LeadingPadding(s) + TrailingPadding(s);
          count := count + 1;
      }
      i := i + 1;
    }
    assert r.characters[..i] == r.characters;
    var totalButtonPadding := Max(0.0, (|r.characters| - 1) as real * ButtonsPadding(r));
    var totalPadding := totalButtonPadding + staticTotal + childRowPadding + LeadingPadding(r) + TrailingPadding(r);
    if count == 0 {
      opt := None;
    } else {
      opt := Some((width - totalPadding) / count as real);
    }
  }

  /** Every dynamic key or nested row counts in the divisor, so where the share is read it is non-zero. */
  lemma {:induction false} ShareReaderMeansSlot(cs: seq<Child>, i: int)
    requires 0 <= i < |cs| && TakesShare(cs[i])
    ensures DynamicSlots(cs) > 0
    decreases |cs|
  {
    if i < |cs| - 1 {
      assert cs[..|cs| - 1][i] == cs[i];
      ShareReaderMeansSlot(cs[..|cs| - 1], i);
    }
  }

  /** The width `layoutSubviews` gives one child, for a given share width. */
  function ChildWidth(r: Row, width: real, opt: real, c: Child): real
  {
    match c
    case Sub(s) => LeadingPadding(s) + opt + TrailingPadding(s)
    case Btn(b) =>
      match b.width
      case Dynamic => opt
      case Static(w) => w
      case Relative(p) => RelativeWidth(r, width, p)
  }

  function WidthSum(r: Row, width: real, opt: real, cs: seq<Child>): real
  {
    if cs == [] then 0.0 else WidthSum(r, width, opt, cs[..|cs| - 1]) + ChildWidth(r, width, opt, cs[|cs| - 1])
  }

  /** How far the cursor moves past the children: each child's width and one inter-key padding. */
  function Advance(r: Row, width: real, opt: real, cs: seq<Child>): real
  {
    if cs == [] then 0.0
    else Advance(r, width, opt, cs[..|cs| - 1]) + ChildWidth(r, width, opt, cs[|cs| - 1]) + ButtonsPadding(r)
  }

  /** The children's widths: fixed widths, nested rows' paddings, and one share per slot. */
  lemma {:induction false} WidthSumSplits(r: Row, width: real, opt: real, cs: seq<Child>)
    ensures WidthSum(r, width, opt, cs)
            == FixedWidthSum(r, width, cs) + ChildPaddingSum(cs) + DynamicSlots(cs) as real * opt
    decreases |cs|
  {
    if cs != [] {
      WidthSumSplits(r, width, opt, cs[..|cs| - 1]);
    }
  }

  lemma {:induction false} AdvanceIsWidthsAndGaps(r: Row, width: real, opt: real, cs: seq<Child>)
    ensures Advance(r, width, opt, cs) == WidthSum(r, width, opt, cs) + |cs| as real * ButtonsPadding(r)
    decreases |cs|
  {
    if cs != [] {
      AdvanceIsWidthsAndGaps(r, width, opt, cs[..|cs| - 1]);
    }
  }

  /**
   * The row is filled exactly: leading padding, the children's widths, the inter-key
   * paddings (never counted negative) and the trailing padding add up to the row's width.
   */
  lemma RowFillsWidth(r: Row, width: real)
    requires DynamicSlots(r.characters) > 0
    ensures LeadingPadding(r) + WidthSum(r, width, OptimumWidth(r, width), r.characters)
            + Max(0.0, (|r.characters| - 1) as real * ButtonsPadding(r)) + TrailingPadding(r) == width
  {
    var k := DynamicSlots(r.characters) as real;
    var opt := OptimumWidth(r, width);
    WidthSumSplits(r, width, opt, r.characters);
    var taken := Max(0.0, (|r.characters| - 1) as real * ButtonsPadding(r))
                 + FixedWidthSum(r, width, r.characters) + ChildPaddingSum(r.characters)
                 + LeadingPadding(r) + TrailingPadding(r);
    assert opt == (width - taken) / k;
    assert k * opt == width - taken;
  }

  /** A child takes the row's orientation and the row as its parent. */
  function AdoptChild(parent: Row, c: Child): Child
  {
    match c
    case Btn(_) => c
    case Sub(s) => Sub(s.(isPortrait := parent.isPortrait, hasParent := true))
  }

  /** The row after its first `k` children have been adopted. */
  function AdoptPrefix(r: Row, k: int): (a: Row)
    ensures a.style == r.style && a.isPortrait == r.isPortrait && a.hasParent == r.hasParent
    ensures |a.characters| == |r.characters|
  {
    r.(characters := seq(|r.characters|, j requires 0 <= j < |r.characters| =>
                           if j < k then AdoptChild(r, r.characters[j]) else r.characters[j]))
  }

  function Adopted(r: Row): Row
  {
    AdoptPrefix(r, |r.characters|)
  }

  /** Where child `i` starts. */
  function XOffset(r: Row, width: real, i: int): real
    requires 0 <= i <= |r.characters|
  {
    LeadingPadding(r) + Advance(r, width, UsedOptimum(r, width), r.characters[..i])
  }

  function ChildWidthAt(r: Row, width: real, i: int): real
    requires 0 <= i < |r.characters|
  {
    ChildWidth(r, width, UsedOptimum(r, width), r.characters[i])
  }

  /** `buttonHitRangeInsets`: keys reach out over the row's vertical paddings and half the gap on each side. */
  function ButtonHitRangeInsets(r: Row): EdgeInsets
    requires Resolved(r.style)
  {
    EdgeInsets(
      -(if r.isPortrait then r.style.topPadding else r.style.topPaddingLandscape),
      -(r.style.buttonsPadding / 2.0),
      -(if r.isPortrait then r.style.bottomPadding.value else r.style.bottomPaddingLandscape.value),
      -(r.style.buttonsPadding / 2.0))
  }

  /**
   * The hit insets `layoutSubviews` gives key `i`: the row's insets, reaching 20 points
   * further out on the left for the first child of a top-level row, or else on the
   * right for its last child.
   */
  function HitInsets(r: Row, i: int): EdgeInsets
    requires Resolved(r.style)
  {
    var base := ButtonHitRangeInsets(r);
    var first := i == 0 && !r.hasParent;
    var last := i == |r.characters| - 1 && i != 0 && !r.hasParent;
    EdgeInsets(base.top, base.left - (if first then 20.0 else 0.0),
               base.bottom, base.right - (if last then 20.0 else 0.0))
  }

  /** Where `layoutSubviews` puts one child: its frame, and for a key its hit insets. */
  datatype Placed = PlacedButton(frame: Rect, hitRangeInsets: EdgeInsets) | PlacedRow(frame: Rect)

  /**
   * `layoutSubviews`: the children are placed left to right from the leading padding,
   * one inter-key padding apart, each dynamic key one share wide and each nested row its
   * own paddings plus one share; nested rows take this row as parent and its orientation.
   * Nested rows are adopted before the share is computed (see the note on
   * `AsWrittenWidth`); the returned row is the row with its children adopted.
   */
  /** Child `i` of the row placed where `layoutSubviews` puts it, as a key or as a nested row. */
  predicate PlacedAs(r: Row, width: real, height: real, i: int, p: Placed)
    requires Resolved(r.style) && 0 <= i < |r.characters|
  {
    var laidOut := Adopted(r);
    (p.PlacedButton? <==> r.characters[i].Btn?)
    && p.frame == Rect(XOffset(laidOut, width, i), 0.0, ChildWidthAt(laidOut, width, i), height)
    && (p.PlacedButton? ==> p.hitRangeInsets == HitInsets(r, i))
  }

  method LayoutSubviews(r: Row, width: real, height: real) returns (laidOut: Row, placed: seq<Placed>)
    requires Resolved(r.style)
    ensures laidOut == Adopted(r)
    ensures |placed| == |r.characters|
    ensures forall i :: 0 <= i < |placed| ==> (placed[i].PlacedButton? <==> r.characters[i].Btn?)
    ensures forall i :: 0 <= i < |placed| ==>
              placed[i].frame == Rect(XOffset(laidOut, width, i), 0.0, ChildWidthAt(laidOut, width, i), height)
    ensures forall i :: 0 <= i < |placed| && placed[i].PlacedButton? ==>
              placed[i].hitRangeInsets == HitInsets(r, i)
    ensures DynamicSlots(r.characters) > 0 && ButtonsPadding(r) >= 0.0 ==>
              placed[|placed| - 1].frame.x + placed[|placed| - 1].frame.width == width - TrailingPadding(r)
  {
    laidOut := Adopted(r);
    var cs := laidOut.characters;
    var optimum := GetOptimumButtonWidth(laidOut, width);
    var currentX := LeadingPadding(r);
    placed := [];
    var i := 0;
    while i < |cs|
      invariant 0 <= i <= |cs|
      invariant |placed| == i
      invariant currentX == XOffset(laidOut, width, i)
      invariant forall j :: 0 <= j < i ==> PlacedAs(r, width, height, j, placed[j])
    {
      var w := WidthOfChild(laidOut, width, optimum, i);
      var next: Placed;
      if cs[i].Btn? {
        var insets := KeyHitInsets(r, i);
        next := PlacedButton(Rect(currentX, 0.0, w, height), insets);
      } else {
        next := PlacedRow(Rect(currentX, 0.0, w, height));
      }
      assert PlacedAs(r, width, height, i, next);
      XOffsetStep(laidOut, width, i);
      currentX := currentX + w + ButtonsPadding(r);
      placed := placed + [next];
      i := i + 1;
    }
    if DynamicSlots(r.characters) > 0 && ButtonsPadding(r) >= 0.0 {
      assert DynamicSlots(cs) == DynamicSlots(r.characters) by { AdoptedKeepsShape(r); }
      LastEdge(laidOut, width);
    }
  }

  /** One step of the cursor: past child `i` and one inter-key padding. */
  lemma XOffsetStep(r: Row, width: real, i: int)
    requires 0 <= i < |r.characters|
    ensures XOffset(r, width, i + 1) == XOffset(r, width, i) + ChildWidthAt(r, width, i) + ButtonsPadding(r)
  {
    assert r.characters[..i + 1][..i] == r.characters[..i];
  }

  /** The width `layoutSubviews` gives child `i`, from the share `getOptimumButtonWidth` returned. */
  method WidthOfChild(r: Row, width: real, optimum: Option<real>, i: int) returns (w: real)
    requires 0 <= i < |r.characters|
    requires optimum.Some? <==> DynamicSlots(r.characters) > 0
    requires optimum.Some? ==> optimum.value == OptimumWidth(r, width)
    ensures w == ChildWidthAt(r, width, i)
  {
    match r.characters[i] {
      case Btn(b) =>
        match b.width {
          case Dynamic =>
            ShareReaderMeansSlot(r.characters, i);
            w := optimum.value;
          case Static(sw) => w := sw;
          case Relative(p) => w := RelativeWidth(r, width, p);
        }
      case Sub(s) =>
        ShareReaderMeansSlot(r.characters, i);
        w := LeadingPadding(s) + optimum.value + TrailingPadding(s);
    }
  }

  /** The hit insets of key `i`: the first test wins when a key is both first and last. */
  method KeyHitInsets(r: Row, i: int) returns (insets: EdgeInsets)
    requires Resolved(r.style)
    ensures insets == HitInsets(r, i)
  {
    insets := ButtonHitRangeInsets(r);
    if i == 0 && !r.hasParent {
      insets := insets.(left := insets.left - 20.0);
    } else if i == |r.characters| - 1 && !r.hasParent {
      insets := insets.(right := insets.right - 20.0);
    }
  }

  /** Adoption changes neither the number of shares, the fixed widths, nor the paddings read here. */
  lemma AdoptedKeepsShape(r: Row)
    ensures DynamicSlots(Adopted(r).characters) == DynamicSlots(r.characters)
  {
    SlotsAgree(Adopted(r).characters, r.characters);
  }

  lemma {:induction false} SlotsAgree(a: seq<Child>, b: seq<Child>)
    requires |a| == |b|
    requires forall j :: 0 <= j < |a| ==> (TakesShare(a[j]) <==> TakesShare(b[j]))
    ensures DynamicSlots(a) == DynamicSlots(b)
    decreases |a|
  {
    if a != [] {
      SlotsAgree(a[..|a| - 1], b[..|b| - 1]);
    }
  }

  /** The last child ends exactly at the trailing padding when the inter-key padding is not negative. */
  lemma LastEdge(r: Row, width: real)
    requires DynamicSlots(r.characters) > 0 && ButtonsPadding(r) >= 0.0
    ensures XOffset(r, width, |r.characters| - 1) + ChildWidthAt(r, width, |r.characters| - 1)
            == width - TrailingPadding(r)
  {
    var cs := r.characters;
    var n := |cs|;
    var opt := OptimumWidth(r, width);
    assert n > 0;
    RowFillsWidth(r, width);
    AdvanceIsWidthsAndGaps(r, width, opt, cs[..n - 1]);
    assert cs[..n][..n - 1] == cs[..n - 1];
    assert cs[..n] == cs;
    assert WidthSum(r, width, opt, cs) == WidthSum(r, width, opt, cs[..n - 1]) + ChildWidth(r, width, opt, cs[n - 1]);
    assert Max(0.0, (n - 1) as real * ButtonsPadding(r)) == (n - 1) as real * ButtonsPadding(r);
  }

  /**
   * The widths `layoutSubviews` gives as the source orders its steps: the share read by
   * nested rows is computed before any nested row takes the parent's orientation, so it
   * counts their paddings in the orientation of the previous pass; the share of dynamic
   * key `i` is computed again when the key is reached, with the nested rows before it
   * already re-oriented.
   */
  function AsWrittenWidth(r: Row, width: real, i: int): real
    requires 0 <= i < |r.characters| && DynamicSlots(r.characters) > 0
  {
    match r.characters[i]
    case Sub(_) => ChildWidth(r, width, OptimumWidth(r, width), AdoptChild(r, r.characters[i]))
    case Btn(b) =>
      if b.width.Dynamic? then
        SlotsAgree(AdoptPrefix(r, i).characters, r.characters);
        OptimumWidth(AdoptPrefix(r, i), width)
      else ChildWidth(r, width, 0.0, r.characters[i])
  }

  /** A landscape row holding a nested row that is still portrait, whose landscape leading padding is larger. */
  function StaleExample(): Row
  {
    var key := Btn(NewButton(Key("a"), DefaultButtonStyle));
    var nested := NewRow(NewRowStyle(leadingPadding := Some(0.0), leadingPaddingLandscape := Some(10.0),
                                     trailingPadding := Some(0.0)), [key]);
    Row(NewRowStyle(), [Sub(nested), key], false, false)
  }

  /** As written, this 100-point row overfills by 5 points whenever its nested row's stored orientation differs from its own. */
  lemma StaleShareOverfills()
    ensures var r := StaleExample();
            DynamicSlots(r.characters) == 2
            && LeadingPadding(r) + AsWrittenWidth(r, 100.0, 0) + ButtonsPadding(r) + AsWrittenWidth(r, 100.0, 1)
               + TrailingPadding(r) == 105.0
  {
    var r := StaleExample();
    var cs := r.characters;
    assert cs[..|cs| - 1] == [cs[0]];
    assert [cs[0]][..0] == [];
    assert TakesShare(cs[0]) && TakesShare(cs[1]);
    assert DynamicSlots([cs[0]]) == 1;
    assert DynamicSlots(cs) == 2;
    assert FixedWidth(r, 100.0, cs[0]) == 0.0 && FixedWidth(r, 100.0, cs[1]) == 0.0;
    assert FixedWidthSum(r, 100.0, [cs[0]]) == 0.0;
    assert FixedWidthSum(r, 100.0, cs) == 0.0;
    assert ChildPadding(cs[0]) == 0.0 && ChildPadding(cs[1]) == 0.0;
    assert ChildPaddingSum([cs[0]]) == 0.0;
    assert ChildPaddingSum(cs) == 0.0;
    assert OptimumWidth(r, 100.0) == 44.5;
    var a := AdoptPrefix(r, 1);
    var ds := a.characters;
    assert ds[..|ds| - 1] == [ds[0]];
    assert [ds[0]][..0] == [];
    assert TakesShare(ds[0]) && TakesShare(ds[1]);
    assert DynamicSlots([ds[0]]) == 1;
    assert DynamicSlots(ds) == 2;
    assert FixedWidth(a, 100.0, ds[0]) == 0.0 && FixedWidth(a, 100.0, ds[1]) == 0.0;
    assert FixedWidthSum(a, 100.0, [ds[0]]) == 0.0;
    assert FixedWidthSum(a, 100.0, ds) == 0.0;
    assert ChildPadding(ds[0]) == 10.0 && ChildPadding(ds[1]) == 0.0;
    assert ChildPaddingSum([ds[0]]) == 10.0;
    assert ChildPaddingSum(ds) == 10.0;
    assert OptimumWidth(a, 100.0) == 39.5;
  }

  /** Two rows that agree on every quantity the share reads have the same share. */
  lemma {:induction false} SumsAgree(a: Row, b: Row, width: real, x: seq<Child>, y: seq<Child>)
    requires |x| == |y|
    requires forall j :: 0 <= j < |x| ==> FixedWidth(a, width, x[j]) == FixedWidth(b, width, y[j])
    requires forall j :: 0 <= j < |x| ==> ChildPadding(x[j]) == ChildPadding(y[j])
    ensures FixedWidthSum(a, width, x) == FixedWidthSum(b, width, y)
    ensures ChildPaddingSum(x) == ChildPaddingSum(y)
    decreases |x|
  {
    if x != [] {
      SumsAgree(a, b, width, x[..|x| - 1], y[..|y| - 1]);
    }
  }

  /** A nested row already in its parent's orientation. */
  predicate Steady(r: Row)
  {
    forall j :: 0 <= j < |r.characters| && r.characters[j].Sub? ==> r.characters[j].row.isPortrait == r.isPortrait
  }

  /** Adopting a child already in its parent's orientation changes neither its fixed width nor its paddings. */
  lemma SteadyChildAgrees(r: Row, k: int, width: real, j: int)
    requires Steady(r) && 0 <= j < |r.characters|
    ensures FixedWidth(AdoptPrefix(r, k), width, AdoptPrefix(r, k).characters[j]) == FixedWidth(r, width, r.characters[j])
    ensures ChildPadding(AdoptPrefix(r, k).characters[j]) == ChildPadding(r.characters[j])
  {
    var c := r.characters[j];
    assert AdoptPrefix(r, k).characters[j] == if j < k then AdoptChild(r, c) else c;
  }

  lemma SteadyShare(r: Row, k: int, width: real)
    requires Steady(r) && 0 <= k && DynamicSlots(r.characters) > 0
    ensures DynamicSlots(AdoptPrefix(r, k).characters) == DynamicSlots(r.characters)
    ensures OptimumWidth(AdoptPrefix(r, k), width) == OptimumWidth(r, width)
  {
    var a := AdoptPrefix(r, k);
    SlotsAgree(a.characters, r.characters);
    forall j | 0 <= j < |a.characters|
      ensures FixedWidth(a, width, a.characters[j]) == FixedWidth(r, width, r.characters[j])
      ensures ChildPadding(a.characters[j]) == ChildPadding(r.characters[j])
    {
      SteadyChildAgrees(r, k, width, j);
    }
    SumsAgree(a, r, width, a.characters, r.characters);
    assert LeadingPadding(a) == LeadingPadding(r) && TrailingPadding(a) == TrailingPadding(r)
           && ButtonsPadding(a) == ButtonsPadding(r);
  }

  /** Once the nested rows are in the parent's orientation, the source's order gives the same widths as `LayoutSubviews`. */
  lemma AsWrittenAgreesWhenSteady(r: Row, width: real, i: int)
    requires Steady(r) && 0 <= i < |r.characters| && DynamicSlots(r.characters) > 0
    ensures DynamicSlots(Adopted(r).characters) > 0
    ensures AsWrittenWidth(r, width, i) == ChildWidthAt(Adopted(r), width, i)
  {
    SteadyShare(r, i, width);
    SteadyShare(r, |r.characters|, width);
  }

  /** `point(inside:with:)`: a point is inside a row when it lies in the row's bounds grown by its hit insets. */
  function PointInside(r: Row, bounds: Rect, p: Point): (inside: bool)
    requires Resolved(r.style)
    ensures inside <==> Contains(InsetRect(bounds, ButtonHitRangeInsets(r)), p)
  {
    if ButtonHitRangeInsets(r) == ZeroInsets then Contains(bounds, p)
    else Contains(InsetRect(bounds, ButtonHitRangeInsets(r)), p)
  }

  /** With non-negative paddings the hit area only grows: every point of the bounds is inside. */
  lemma BoundsInsideHitArea(r: Row, bounds: Rect, p: Point)
    requires Resolved(r.style)
    requires r.style.topPadding >= 0.0 && r.style.topPaddingLandscape >= 0.0
    requires r.style.bottomPadding.value >= 0.0 && r.style.bottomPaddingLandscape.value >= 0.0
    requires r.style.buttonsPadding >= 0.0
    requires Contains(bounds, p)
    ensures PointInside(r, bounds, p)
  {
  }

  /** The shares of a row of three children, one by one. */
  lemma SlotsOfThree(a: Child, b: Child, c: Child)
    ensures DynamicSlots([a, b, c]) == (if TakesShare(a) then 1 else 0) + (if TakesShare(b) then 1 else 0)
                                       + (if TakesShare(c) then 1 else 0)
  {
    assert [a, b, c][..2] == [a, b] && [a, b][..1] == [a] && [a][..0] == [];
    assert DynamicSlots([a]) == if TakesShare(a) then 1 else 0;
    assert DynamicSlots([a, b]) == DynamicSlots([a]) + if TakesShare(b) then 1 else 0;
  }

  /** The shares of a row of four children, one by one. */
  lemma SlotsOfFour(a: Child, b: Child, c: Child, d: Child)
    ensures DynamicSlots([a, b, c, d]) == (if TakesShare(a) then 1 else 0) + (if TakesShare(b) then 1 else 0)
                                          + (if TakesShare(c) then 1 else 0) + (if TakesShare(d) then 1 else 0)
  {
    assert [a, b, c, d][..3] == [a, b, c];
    SlotsOfThree(a, b, c);
  }
}
