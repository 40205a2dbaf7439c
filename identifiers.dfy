/**
 * The identifiers that the earlier CustomKeyboard and the DefaultKeyboard give their
 * special keys, and the five pages both keyboards show. `CustomKeyboardIdentifier` and
 * `DefaultKeyboardIdentifier` have the same ten cases with the same raw values, and the two
 * layout enumerations the same five pages, so each is one type here.
 */
module KeyboardIdentifiers {
  import opened Wrappers

  /** The identifiers that special keys carry; each is stored as its own name. */
  datatype Identifier = Space | Backspace | Globe | Return | Numbers | Letters | Symbols | Shift | ShiftToggled | ShiftToggledOnce

  function RawValue(id: Identifier): string
  {
    match id
    case Space => "Space"
    case Backspace => "Backspace"
    case Globe => "Globe"
    case Return => "Return"
    case Numbers => "Numbers"
    case Letters => "Letters"
    case Symbols => "Symbols"
    case Shift => "Shift"
    case ShiftToggled => "ShiftToggled"
    case ShiftToggledOnce => "ShiftToggledOnce"
  }

  /** `init(rawValue:)`: the identifier whose name is the string, if any. */
  function ParseIdentifier(s: string): (r: Option<Identifier>)
    ensures r.Some? ==> RawValue(r.value) == s
    ensures r.None? ==> forall id :: RawValue(id) != s
  {
    if s == "Space" then Some(Space)
    else if s == "Backspace" then Some(Backspace)
    else if s == "Globe" then Some(Globe)
    else if s == "Return" then Some(Return)
    else if s == "Numbers" then Some(Numbers)
    else if s == "Letters" then Some(Letters)
    else if s == "Symbols" then Some(Symbols)
    else if s == "Shift" then Some(Shift)
    else if s == "ShiftToggled" then Some(ShiftToggled)
    else if s == "ShiftToggledOnce" then Some(ShiftToggledOnce)
    else None
  }

  /** Parsing a stored identifier gives it back; so no two identifiers share a name. */
  lemma ParseRawValue(id: Identifier)
    ensures ParseIdentifier(RawValue(id)) == Some(id)
  {
  }

  function Id(id: Identifier): Option<string>
  {
    Some(RawValue(id))
  }

  datatype Page = Uppercase | UppercaseToggled | Lowercase | NumbersPage | SymbolsPage

  /** The shift key each letter page shows. */
  function ShiftIdentifierOf(p: Page): Identifier
  {
    match p
    case Uppercase => ShiftToggledOnce
    case UppercaseToggled => ShiftToggled
    case _ => Shift
  }
}
