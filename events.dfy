/**
 * What a keyboard controller reports to its delegate: the pressed button, the typed key's
 * text, the special keys, and the key-menu item actions it runs.
 */
module KeyboardEvents {
  import opened Buttons

  datatype Output =
    | KeyboardButtonPressed(button: KeyboardButton)
    | KeyButtonPressed(key: string)
    | SpaceButtonPressed
    | BackspaceButtonPressed
    | GlobeButtonPressed
    | ReturnButtonPressed
    | KeyMenuItemAction(index: nat)
}
