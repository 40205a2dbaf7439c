/**
 * KeyboardButton: one key of a keyboard page. A button is a value here; the row that
 * holds it identifies it by its position.
 */
module Buttons {
  import opened Wrappers
  import opened Geometry

  /** What the key shows: a typed key, a caption, or an image. */
  datatype ButtonType = Key(text: string) | Text(text: string) | Image

  /** How the row sizes the key. */
  datatype ButtonWidth = Dynamic | Static(width: real) | Relative(percent: real)

  /** Which way a key's pop-up bubble leans. */
  datatype KeyPopType = Normal | Left | Right

  /**
   * The layout-relevant part of `KeyboardButtonStyle`: the image size, the pop-up flag,
   * and the key-pop kind that the keyboard controllers read.
   */
  datatype ButtonStyle = ButtonStyle(imageSize: Option<real>, showsPopup: bool, keyPopType: Option<KeyPopType>)

  /** `KeyboardButtonStyle()` with every argument left at its default. */
  const DefaultButtonStyle := ButtonStyle(None, false, None)

  /** A key menu attached to a button, reduced to how many items it offers. */
  datatype KeyMenu = KeyMenu(itemCount: nat)

  datatype KeyboardButton = KeyboardButton(
    buttonType: ButtonType,
    style: ButtonStyle,
    width: ButtonWidth,
    identifier: Option<string>,
    highlighted: bool,
    keyMenu: Option<KeyMenu>)

  /** The subviews `init` creates: a label with the key's text, or an image view. */
  datatype Subviews = Subviews(textLabel: Option<string>, hasImageView: bool)

  /** `KeyboardButton(type:style:width:identifier:)`; width and identifier are optional. */
  function NewButton(buttonType: ButtonType, style: ButtonStyle, width: ButtonWidth := Dynamic,
                     identifier: Option<string> := None): (b: KeyboardButton)
    ensures b.buttonType == buttonType && b.style == style
    ensures b.width == width && b.identifier == identifier
    ensures !b.highlighted && b.keyMenu.None?
  {
    KeyboardButton(buttonType, style, width, identifier, false, None)
  }

  /** A button built without width or identifier is dynamically sized and anonymous. */
  lemma NewButtonDefaults(buttonType: ButtonType, style: ButtonStyle)
    ensures NewButton(buttonType, style).width == Dynamic
    ensures NewButton(buttonType, style).identifier == None
  {
  }

  /** The subviews `init` adds for each kind of button. */
  function SubviewsOf(buttonType: ButtonType): (v: Subviews)
    ensures buttonType.Image? <==> v.hasImageView
    ensures buttonType.Image? <==> v.textLabel.None?
    ensures !buttonType.Image? ==> v.textLabel == Some(buttonType.text)
  {
    match buttonType
    case Key(s) => Subviews(Some(s), false)
    case Text(s) => Subviews(Some(s), false)
    case Image => Subviews(None, true)
  }

  /**
   * Setting `highlighted` stores the flag; its observer asks for a pop-up whose two
   * branches do nothing, so no other part of the button changes.
   */
  function SetHighlighted(b: KeyboardButton, highlighted: bool): (r: KeyboardButton)
    ensures r.highlighted == highlighted
    ensures r.buttonType == b.buttonType && r.style == b.style && r.width == b.width
    ensures r.identifier == b.identifier && r.keyMenu == b.keyMenu
  {
    b.(highlighted := highlighted)
  }

  /** The fixed margin between a button's edge and its label. */
  const LabelPadding: real := 5.0

  /** A rectangle inside a `width` by `height` frame with the same margin on all four sides. */
  function Centered(padding: real, width: real, height: real): Rect
  {
    Rect(padding, padding, width - padding * 2.0, height - padding * 2.0)
  }

  /**
   * `layoutSubviews`: the label sits 5 points inside the frame; the image view too,
   * unless the style fixes an image size, in which case the margin is chosen so that
   * the image's shorter side is exactly that size and the image is centred.
   */
  method LayoutSubviews(b: KeyboardButton, width: real, height: real)
    returns (labelFrame: Option<Rect>, imageFrame: Option<Rect>)
    ensures labelFrame.Some? <==> !b.buttonType.Image?
    ensures imageFrame.Some? <==> b.buttonType.Image?
    ensures labelFrame.Some? ==> labelFrame.value == Rect(5.0, 5.0, width - 10.0, height - 10.0)
    ensures imageFrame.Some? && b.style.imageSize.None? ==>
              imageFrame.value == Rect(5.0, 5.0, width - 10.0, height - 10.0)
    ensures imageFrame.Some? && b.style.imageSize.Some? ==>
              Min(imageFrame.value.width, imageFrame.value.height) == b.style.imageSize.value
              && imageFrame.value.x == imageFrame.value.y
              && width - imageFrame.value.width == height - imageFrame.value.height == 2.0 * imageFrame.value.x
  {
    var views := SubviewsOf(b.buttonType);
    var padding := LabelPadding;
    labelFrame := None;
    if views.textLabel.Some? {
      labelFrame := Some(Centered(padding, width, height));
    }
    if b.style.imageSize.Some? {
      padding := (Min(height, width) - b.style.imageSize.value) / 2.0;
    }
    imageFrame := None;
    if views.hasImageView {
      imageFrame := Some(Centered(padding, width, height));
    }
  }
}
