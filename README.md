# KeyboardLayoutEngine, modelled in Dafny

KeyboardLayoutEngine builds iOS keyboards out of three nested views:

- a `KeyboardLayout` is a page of `KeyboardRow`s;
- a row is a line of `KeyboardButton`s and nested rows;
- each button is a typed key, a caption or an image.

A row shares its width among its children. Static and relative keys take a fixed width, and dynamic keys and nested rows split what is left. The layout stacks its rows and turns touches into key press events for a delegate. Three keyboard controllers sit on top of the engine, each with its own pages:

- `CustomKeyboard` is a state machine over letters (shift off, once or on), numbers and symbols. It has shift double-tap, backspace auto-repeat and long-press key menus.
- The older `CustomKeyboard` is flag based. It uses `uppercaseOnce`, `shiftCanBeToggled` and a pointer to the current layout object, and observes its five page fields.
- `DefaultKeyboard` is a smaller flag-based controller with shift and backspace timers.

How the model is built:

- Buttons, rows and the pages are values: datatypes and functions.
- `KeyboardLayout` and the three controllers update fields in place, so they are classes. Every method of a class is specified by a pure step function on a snapshot of its fields: `Snapshot() == Step(old(Snapshot()), ...)`.
- The behaviour the source promises is proved as lemmas about those step functions: round trips, invariants and whole sequences of taps. Each step function (`PressStart`, `PressEnd`, `TouchesFinish`, `FireDelete`, `FireAutoDeleteMode` and the rest) is covered by the row of the class method it specifies and by the lemmas about it.
- The page classes `CustomKeyboardLayout` keep one `KeyboardLayout` object per page, and their constructors build all five. The rows of each page are a function of the page, and the page lemmas are stated about those functions.
- `EachOfFour`, `FirstTwoOfFour`, `LastTwoOfFour` and `EachSharesWidth` are proof helpers about four abstract rows. They have no rows in the table.
- Timers are flags meaning "scheduled", and a timer firing is a step of its own.
- `CGFloat` is `real`.

Files:

| file | models |
|---|---|
| `buttons.dfy` | `KeyboardLayoutEngine/KeyboardButton.swift` |
| `rows.dfy` | `KeyboardLayoutEngine/KeyboardRow.swift` |
| `layouts.dfy` | `KeyboardLayoutEngine/KeyboardLayout.swift` |
| `events.dfy` | the events the controllers report to their delegates |
| `custom_pages.dfy`, `custom_machine.dfy` | `CustomKeyboard/CustomKeyboardLayout.swift`, `CustomKeyboard/CustomKeyboard.swift` |
| `identifiers.dfy` | the key identifiers shared by `DefaultKeyboard/CustomKeyboardLayout.swift` and `DefaultKeyboard/DefaultKeyboardLayout.swift` |
| `legacy_custom_pages.dfy`, `legacy_custom_machine.dfy` | `DefaultKeyboard/CustomKeyboardLayout.swift`, `DefaultKeyboard/CustomKeyboard.swift` |
| `default_pages.dfy`, `default_machine.dfy` | `DefaultKeyboard/DefaultKeyboardLayout.swift`, `DefaultKeyboard/DefaultKeyboard.swift` |
| `wrappers.dfy`, `geometry.dfy` | `Option`, rectangles and insets |

Where the code and its documentation disagree, the model follows the code. Three cases:

- `DefaultKeyboard`'s Shift key always goes to upper case and restarts the timer. There is no double-tap check on that key.
- On the number and symbol pages, `DefaultKeyboardLayout` lists "," twice in the third row.
- The older `CustomKeyboard`'s ShiftToggledOnce key, when it falls to lower case, restarts the shift timer.

## Model

| member | source | states |
|---|---|---|
| Buttons.NewButton | Keyboard/KeyboardLayoutEngine/KeyboardButton.swift:98-134 | a new button keeps its type, style, width and identifier, is not highlighted and has no key menu |
| Buttons.NewButtonDefaults | Keyboard/KeyboardLayoutEngine/KeyboardButton.swift:98-102 | without width or identifier, a button is dynamic and has no identifier |
| Buttons.SubviewsOf | Keyboard/KeyboardLayoutEngine/KeyboardButton.swift:112-133 | a key or text button gets a label showing its text; an image button gets an image view |
| Buttons.SetHighlighted | Keyboard/KeyboardLayoutEngine/KeyboardButton.swift:91-95 | highlighting stores the flag and changes no other part of the button, since the pop-up it asks for does nothing |
| Buttons.LayoutSubviews | Keyboard/KeyboardLayoutEngine/KeyboardButton.swift:155-173 | a label sits 5 points inside the frame on every side; so does an image, unless the style sets an image size, and then the image is centred with its shorter side at that size |
| Rows.NewRowStyle | Keyboard/KeyboardLayoutEngine/KeyboardRow.swift:28-50 | a style built by the initializer always supplies both bottom paddings |
| Rows.DefaultRowStyle | Keyboard/KeyboardLayoutEngine/KeyboardRow.swift:28-50 | the all-default style has side paddings 3, top padding 6, bottom padding 6 (4 in landscape) and buttons padding 6 (5 in landscape) |
| Rows.LandscapeFollowsPortrait | Keyboard/KeyboardLayoutEngine/KeyboardRow.swift:28-50 | a style given only portrait values uses the same values in landscape |
| Rows.NewRow | Keyboard/KeyboardLayoutEngine/KeyboardRow.swift:72-87 | a new row keeps its style and children, starts in portrait and has no parent |
| Rows.PaddingsFollowOrientation | Keyboard/KeyboardLayoutEngine/KeyboardRow.swift:95-105 | each padding getter returns the portrait or the landscape field, matching the row's orientation |
| Rows.GetOptimumButtonWidth | Keyboard/KeyboardLayoutEngine/KeyboardRow.swift:160-191 | the loop returns the leftover width divided by the number of sharing children: the width less the fixed widths, the nested rows' paddings, the inter-key paddings and the row's own side paddings; it returns none exactly when no child shares |
| Rows.ShareReaderMeansSlot | Keyboard/KeyboardLayoutEngine/KeyboardRow.swift:149-158 | any child that reads the share is counted in the divisor, so the divisor is non-zero wherever the share is used |
| Rows.WidthSumSplits | Keyboard/KeyboardLayoutEngine/KeyboardRow.swift:128-158 | the children's widths add up to the fixed widths, plus the nested rows' paddings, plus one share per sharing child |
| Rows.AdvanceIsWidthsAndGaps | Keyboard/KeyboardLayoutEngine/KeyboardRow.swift:113-138 | the cursor moves by the children's widths plus one inter-key padding per child |
| Rows.RowFillsWidth | Keyboard/KeyboardLayoutEngine/KeyboardRow.swift:108-191 | with at least one sharing child, leading padding plus children plus gaps plus trailing padding is exactly the row width |
| Rows.AdoptPrefix | Keyboard/KeyboardLayoutEngine/KeyboardRow.swift:128-131 | adopting children keeps the row's style, orientation, parent and number of children |
| Rows.LayoutSubviews | Keyboard/KeyboardLayoutEngine/KeyboardRow.swift:108-140 | each child gets the frame at its x offset with its width and the row's full height; keys, and only keys, get hit insets; the row's children are adopted; with a sharing child and a non-negative gap the last child ends where the trailing padding starts |
| Rows.XOffsetStep | Keyboard/KeyboardLayoutEngine/KeyboardRow.swift:113-138 | each child starts where the previous one ended, plus one inter-key padding |
| Rows.WidthOfChild | Keyboard/KeyboardLayoutEngine/KeyboardRow.swift:149-158 | the width the loop gives child i, with the share returned by the optimum-width computation, is that child's width at its place in the row |
| Rows.KeyHitInsets | Keyboard/KeyboardLayoutEngine/KeyboardRow.swift:120-126 | a key gets the row's insets; in a top-level row the first key reaches 20 points further left, and otherwise the last key 20 points further right |
| Rows.AdoptedKeepsShape | Keyboard/KeyboardLayoutEngine/KeyboardRow.swift:128-131 | adopting the children does not change the number of shares |
| Rows.SlotsAgree | Keyboard/KeyboardLayoutEngine/KeyboardRow.swift:160-191 | two child lists that agree, child by child, on which children take a share count the same number of shares |
| Rows.LastEdge | Keyboard/KeyboardLayoutEngine/KeyboardRow.swift:108-140 | with a sharing child and a non-negative inter-key padding, the last child ends exactly where the trailing padding starts |
| Rows.StaleShareOverfills | Keyboard/KeyboardLayoutEngine/KeyboardRow.swift:110-177 | as written, whenever a nested row's stored orientation differs from its parent's, a 100-point row holding that nested row ends 5 points past its width; nested rows start in portrait, so a page laid out in landscape from the start is affected too |
| Rows.SumsAgree | Keyboard/KeyboardLayoutEngine/KeyboardRow.swift:160-191 | two child lists that agree, child by child, on fixed widths and nested-row paddings have the same sums of both |
| Rows.SteadyShare | Keyboard/KeyboardLayoutEngine/KeyboardRow.swift:160-191 | when the nested rows already have the parent's orientation, adopting them leaves the share unchanged |
| Rows.SteadyChildAgrees | Keyboard/KeyboardLayoutEngine/KeyboardRow.swift:160-191 | adopting a nested row already in its parent's orientation changes neither its fixed width nor its paddings |
| Rows.AsWrittenAgreesWhenSteady | Keyboard/KeyboardLayoutEngine/KeyboardRow.swift:110-136 | once the orientations have settled, the source's order of steps gives the same widths as the corrected layout |
| Rows.PointInside | Keyboard/KeyboardLayoutEngine/KeyboardRow.swift:194-201 | a point is inside a row exactly when it lies in the bounds grown by the row's hit insets (the zero-inset test gives the same answer) |
| Rows.BoundsInsideHitArea | Keyboard/KeyboardLayoutEngine/KeyboardRow.swift:194-201 | with non-negative paddings, every point of the bounds is inside the row |
| Rows.SlotsOfThree | Keyboard/KeyboardLayoutEngine/KeyboardRow.swift:160-191 | the number of shares in a three-child row is the sum over its children |
| Rows.SlotsOfFour | Keyboard/KeyboardLayoutEngine/KeyboardRow.swift:160-191 | the number of shares in a four-child row is the sum over its children |
| Layouts.DefaultLayoutStyle | Keyboard/KeyboardLayoutEngine/KeyboardLayout.swift:40-51 | by default the top padding is 10, the bottom padding 4 and the row spacing 12, or 6 in landscape |
| Layouts.AtSafe | Keyboard/KeyboardLayoutEngine/KeyboardLayout.swift:12-17 | the safe subscript gives the element exactly when the index is in range, and nothing otherwise |
| Layouts.ResolvedRowPadding | Keyboard/KeyboardLayoutEngine/KeyboardLayout.swift:110-112 | a row whose style supplies both bottom paddings uses its own spacing, for its orientation |
| Layouts.GetRowPaddings | Keyboard/KeyboardLayoutEngine/KeyboardLayout.swift:114-121 | the loop adds the spacing below every row except the last |
| Layouts.OptimumRowHeight | Keyboard/KeyboardLayoutEngine/KeyboardLayout.swift:123-127 | the row height is never negative; when the height allows, n rows of it plus the spacings and the page paddings fill the height exactly, and otherwise it is 0 |
| Layouts.RowYStep | Keyboard/KeyboardLayoutEngine/KeyboardLayout.swift:96-106 | each row starts one row height and one spacing below the previous one |
| Layouts.RowsFillLayout | Keyboard/KeyboardLayoutEngine/KeyboardLayout.swift:89-127 | when the height allows, the last row ends exactly at the bottom of the layout frame, where the bottom padding starts |
| Layouts.RowsDoNotOverlap | Keyboard/KeyboardLayoutEngine/KeyboardLayout.swift:96-106 | with non-negative spacing, each row starts at or below the end of the previous one |
| Layouts.Reoriented | Keyboard/KeyboardLayoutEngine/KeyboardLayout.swift:96-106 | every row takes the orientation read from the screen and keeps everything else |
| Layouts.GetKeyboardButton | Keyboard/KeyboardLayoutEngine/KeyboardLayout.swift:130-135 | the result is the key at that place when both indices are in range and the child is a key, and none otherwise |
| Layouts.GetKeyboardButtonWithIdentifier | Keyboard/KeyboardLayoutEngine/KeyboardLayout.swift:137-146 | the search returns the first key with that identifier, rows in order and keys within a row in order, and returns none exactly when no direct child has it |
| Layouts.InsertPosition | Keyboard/KeyboardLayoutEngine/KeyboardLayout.swift:148-157 | the key goes in at its index when that lies within the row, and at the end otherwise |
| Layouts.AddThenGet | Keyboard/KeyboardLayoutEngine/KeyboardLayout.swift:130-157 | after adding, the row has one more child, the key is found at its insertion place, and the other rows are unchanged |
| Layouts.RemoveUndoesAdd | Keyboard/KeyboardLayoutEngine/KeyboardLayout.swift:148-166 | removing the key just added gives back the original rows |
| Layouts.RemoveShrinks | Keyboard/KeyboardLayoutEngine/KeyboardLayout.swift:159-166 | removal succeeds exactly when both indices are in range, and then the row has one child less; otherwise nothing changes |
| Layouts.PressStartsReportHits | Keyboard/KeyboardLayoutEngine/KeyboardLayout.swift:169-185 | one press start is reported for each touch on a key, in order, and each report names that touch's key |
| Layouts.PressEndsReportHits | Keyboard/KeyboardLayoutEngine/KeyboardLayout.swift:211-225 | one press end is reported for each touch on a key, in order, and each report names that touch's key |
| Layouts.StackRows | Keyboard/KeyboardLayoutEngine/KeyboardLayout.swift:89-108 | the loop gives each row its frame: the full width, the optimum height, at its y offset |
| Layouts.KeyboardLayout.constructor | Keyboard/KeyboardLayoutEngine/KeyboardLayout.swift:65-82 | a new layout holds its style and rows, types, and has no key held |
| Layouts.KeyboardLayout.LayoutSubviews | Keyboard/KeyboardLayoutEngine/KeyboardLayout.swift:89-108 | without a superview nothing changes; with one the frame spans the superview less the page paddings, the rows take the orientation, and each row gets the full width, the optimum height and its y offset |
| Layouts.KeyboardLayout.AddKeyboardButton | Keyboard/KeyboardLayoutEngine/KeyboardLayout.swift:148-157 | the rows become the rows with the key added, and nothing else changes |
| Layouts.KeyboardLayout.RemoveKeyboardButton | Keyboard/KeyboardLayoutEngine/KeyboardLayout.swift:159-166 | the rows become the rows with the child removed, the result says whether a child was removed, and nothing else changes |
| Layouts.KeyboardLayout.TouchesBegan | Keyboard/KeyboardLayoutEngine/KeyboardLayout.swift:169-185 | the touches are reported; when typing is on, each touch on a key is reported as a press start, and the last touch, when on a key, becomes the held key |
| Layouts.KeyboardLayout.TouchesMoved | Keyboard/KeyboardLayoutEngine/KeyboardLayout.swift:187-209 | the move is reported; when typing is on and the first touch is on a different key, that key becomes held, and a drag from the old held key to it is reported |
| Layouts.KeyboardLayout.TouchesEnded | Keyboard/KeyboardLayoutEngine/KeyboardLayout.swift:211-225 | the touches are reported; when typing is on, the held key is released and each touch on a key is reported as a press end |
| Layouts.KeyboardLayout.TouchesCancelled | Keyboard/KeyboardLayoutEngine/KeyboardLayout.swift:227-231 | the held key is always released and the cancel is reported |
| CustomKeyboardPages.ParseIdentifier | Keyboard/CustomKeyboard/CustomKeyboardLayout.swift:70-81 | a string parses to the identifier of that name, and to none when no identifier has that name |
| CustomKeyboardPages.ParseRawValue | Keyboard/CustomKeyboard/CustomKeyboardLayout.swift:70-81 | parsing an identifier's raw value gives the identifier back, so raw values are pairwise distinct |
| CustomKeyboardPages.Keys | Keyboard/CustomKeyboard/CustomKeyboardLayout.swift:135-145 | one character key per string, in order, all in the given style |
| CustomKeyboardPages.EdgeKeys | Keyboard/CustomKeyboard/CustomKeyboardLayout.swift:95-108 | the first and last keys get the left and the right styles, the others the middle style |
| CustomKeyboardPages.LeaningKeys | Keyboard/CustomKeyboard/CustomKeyboardLayout.swift:95-108 | a row whose end keys lean their pop-ups inwards has one character key per string |
| CustomKeyboardPages.NewPageLayout | Keyboard/CustomKeyboard/CustomKeyboardLayout.swift:92-94 | the layout built for a page is a new object that shows it: the shared layout style, the page's rows, typing enabled and no key held |
| CustomKeyboardPages.NewPageLayouts | Keyboard/CustomKeyboard/CustomKeyboardLayout.swift:91-558 | the five layouts `init` builds are new, pairwise distinct objects, each showing its own page |
| CustomKeyboardPages.CustomKeyboardLayout.constructor | Keyboard/CustomKeyboard/CustomKeyboardLayout.swift:84-558 | the five page fields hold new, pairwise distinct layouts, each showing its own page |
| CustomKeyboardPages.ShownRowsAreLaidOut | Keyboard/CustomKeyboard/CustomKeyboardLayout.swift:92-560 | every row of a layout built for a page gives both bottom paddings and has a child that shares its width, so the row's share width exists |
| CustomKeyboardPages.PageKeys | Keyboard/CustomKeyboard/CustomKeyboardLayout.swift:124-182 | shift or the other sign page leads the third row; Numbers, or Letters on the sign pages, leads the bottom row; backspace and globe are where the source puts them |
| CustomKeyboardPages.ThirdRowShape | Keyboard/CustomKeyboard/CustomKeyboardLayout.swift:124-156 | any third row has three children: its mode key, a nested row that takes a share, and backspace; it gives both bottom paddings |
| CustomKeyboardPages.FourthRowShape | Keyboard/CustomKeyboard/CustomKeyboardLayout.swift:157-182 | any bottom row is the page key, globe, a space bar that takes a share, and return; it gives both bottom paddings |
| CustomKeyboardPages.BottomRowShape | Keyboard/CustomKeyboard/CustomKeyboardLayout.swift:157-182 | the bottom row of every page leads with Letters on the sign pages and Numbers otherwise, then globe, space and return |
| CustomKeyboardPages.UpperRowsShape | Keyboard/CustomKeyboard/CustomKeyboardLayout.swift:95-123 | the first two rows of every page give both bottom paddings, have a sharing child, and hold only character keys |
| CustomKeyboardPages.UppercasePagesDifferOnlyInShift | Keyboard/CustomKeyboard/CustomKeyboardLayout.swift:92-281 | the two upper-case pages differ only in the shift key |
| CustomKeyboardPages.ThirdRowsDifferInModeKey | Keyboard/CustomKeyboard/CustomKeyboardLayout.swift:124-156 | two third rows built on the same keys agree after their first child, and their first children agree exactly when the mode keys do |
| CustomKeyboardPages.RowsAreLaidOut | Keyboard/CustomKeyboard/CustomKeyboardLayout.swift:92-560 | every row gives both bottom paddings and has a child that shares its width |
| CustomKeyboardPages.NestedRowIsOneShare | Keyboard/CustomKeyboard/CustomKeyboardLayout.swift:29-31 | the nested third-row row has no side paddings, so its width is exactly one share |
| CustomKeyboardPages.FoundInThirdRow | Keyboard/KeyboardLayoutEngine/KeyboardLayout.swift:137-146 | on a page whose first two rows hold only character keys, a third-row key is the first found with its identifier |
| CustomKeyboardPages.TopRowsAreCharacterKeys | Keyboard/CustomKeyboard/CustomKeyboardLayout.swift:95-123 | every page has four rows, and its first two hold only character keys |
| CustomKeyboardPages.ThirdRowLeadsWithOtherKeys | Keyboard/CustomKeyboard/CustomKeyboardLayout.swift:124-156 | backspace is the third child of the third row, and neither child before it carries that identifier |
| CustomKeyboardPages.ModeKeyIsNotBackspace | Keyboard/CustomKeyboard/CustomKeyboardLayout.swift:124-156 | no page's mode key carries the backspace identifier |
| CustomKeyboardPages.ThirdRowBackspaceLast | Keyboard/CustomKeyboard/CustomKeyboardLayout.swift:124-156 | in a third row whose mode key is not backspace, backspace is the last child and only there |
| CustomKeyboardPages.BackspaceIsFound | Keyboard/CustomKeyboard/CustomKeyboardLayout.swift:147-154 | searching a page for the backspace identifier finds its third-row key |
| CustomKeyboardMachine.PageOfIsBijective | Keyboard/CustomKeyboard/CustomKeyboard.swift:106-122 | distinct states show distinct pages, and every page is shown by some state |
| CustomKeyboardMachine.ShiftKeyNamesState | Keyboard/CustomKeyboard/CustomKeyboardLayout.swift:124-134 | the shift key on each letter page names the shift state that shows that page |
| CustomKeyboardMachine.InitValid | Keyboard/CustomKeyboard/CustomKeyboard.swift:89-92 | the initial state shows the upper-case page and meets the invariant |
| CustomKeyboardMachine.TypingUpdateFollowsMenu | Keyboard/CustomKeyboard/CustomKeyboard.swift:60-71 | after a deferred update, the shown page types exactly when no menu is open and none is locked |
| CustomKeyboardMachine.StepsKeepValid | Keyboard/CustomKeyboard/CustomKeyboard.swift:177-398 | every press, touch, timer and deferred step keeps the invariant |
| CustomKeyboardMachine.PressEndChangesOnlyState | Keyboard/CustomKeyboard/CustomKeyboard.swift:273-333 | ending a press changes only the layout state and the shift timer; timers, menus and typing flags stay |
| CustomKeyboardMachine.TouchesFinishKeepsValid | Keyboard/CustomKeyboard/CustomKeyboard.swift:348-399 | finishing the touches keeps the invariant and leaves the backspace and key-menu timers cancelled |
| CustomKeyboardMachine.KeyAfterOnceGoesLowercase | Keyboard/CustomKeyboard/CustomKeyboard.swift:277-285 | a character key on the shift-once page reports itself and moves to shift off |
| CustomKeyboardMachine.PlainKeyKeepsState | Keyboard/CustomKeyboard/CustomKeyboard.swift:277-285 | a character key in any other state only reports the button and the text |
| CustomKeyboardMachine.ActionKeysOnlyReport | Keyboard/CustomKeyboard/CustomKeyboard.swift:292-299 | space, backspace, globe and return report their event and change nothing |
| CustomKeyboardMachine.ShiftTap | Keyboard/CustomKeyboard/CustomKeyboard.swift:310-329 | with no timer running, the shift key shown goes from off to once and from once or on to off, arming the timer except from on; with the timer running it goes to on and clears the timer, except that on the locked page it leaves the timer running |
| CustomKeyboardMachine.DoubleTapLocksCaps | Keyboard/CustomKeyboard/CustomKeyboard.swift:310-325 | two taps without the timer firing, from shift off or shift once, end at shift on with no timer |
| CustomKeyboardMachine.SlowTapsToggleBack | Keyboard/CustomKeyboard/CustomKeyboard.swift:310-325 | when the timer fires between the taps, two taps return to the starting shift state |
| CustomKeyboardMachine.ModeKeys | Keyboard/CustomKeyboard/CustomKeyboard.swift:302-307 | from any state, Letters goes to shift off and Numbers and Symbols go to their pages; only the button is reported, and the shift timer and everything else stay as they are |
| CustomKeyboardMachine.BackspaceHoldRepeats | Keyboard/CustomKeyboard/CustomKeyboard.swift:205-259 | after backspace is pressed and auto-delete mode starts, k firings of the delete timer report k backspaces, and after the release the delete timer reports nothing |
| CustomKeyboardMachine.QuickBackspaceDoesNotRepeat | Keyboard/CustomKeyboard/CustomKeyboard.swift:348-352 | releasing backspace before auto-delete mode starts cancels every repeat |
| CustomKeyboardMachine.MenuLocksThenCloses | Keyboard/CustomKeyboard/CustomKeyboard.swift:363-370 | lifting with no item selected locks an open menu, and the next lift closes it |
| CustomKeyboardMachine.SelectionClosesMenu | Keyboard/CustomKeyboard/CustomKeyboard.swift:357-362 | choosing an index runs an item only when the index names one, and always closes and unlocks the menu |
| CustomKeyboardMachine.CustomKeyboard.constructor | Keyboard/CustomKeyboard/CustomKeyboard.swift:74-92 | the fields start in the initial state |
| CustomKeyboardMachine.CustomKeyboard.CurrentPage | Keyboard/CustomKeyboard/CustomKeyboard.swift:124-126 | the page shown is the one that the state maps to |
| CustomKeyboardMachine.CustomKeyboard.Reload | Keyboard/CustomKeyboard/CustomKeyboard.swift:157-165 | reloading keeps the state and gives fresh pages, all of them typing |
| CustomKeyboardMachine.CustomKeyboard.SwitchToLetters | Keyboard/CustomKeyboard/CustomKeyboard.swift:168-170 | the state becomes letters with the given shift state |
| CustomKeyboardMachine.CustomKeyboard.Capitalize | Keyboard/CustomKeyboard/CustomKeyboard.swift:172-174 | the state becomes letters with shift once |
| CustomKeyboardMachine.CustomKeyboard.SetKeyMenuShowing | Keyboard/CustomKeyboard/CustomKeyboard.swift:60-71 | the menu key is set and one deferred typing update is scheduled |
| CustomKeyboardMachine.CustomKeyboard.RunDeferredTypingUpdate | Keyboard/CustomKeyboard/CustomKeyboard.swift:66-69 | one pending update runs on the page shown at that moment |
| CustomKeyboardMachine.CustomKeyboard.FireBackspaceAutoDeleteModeTimer | Keyboard/CustomKeyboard/CustomKeyboard.swift:205-208 | the repeating delete timer starts |
| CustomKeyboardMachine.CustomKeyboard.FireBackspaceDeleteTimer | Keyboard/CustomKeyboard/CustomKeyboard.swift:210-212 | one backspace is reported while the delete timer is scheduled |
| CustomKeyboardMachine.CustomKeyboard.FireShiftToggleTimer | Keyboard/CustomKeyboard/CustomKeyboard.swift:224-227 | the shift timer is cleared |
| CustomKeyboardMachine.CustomKeyboard.FireKeyMenuOpenTimer | Keyboard/CustomKeyboard/CustomKeyboard.swift:244-248 | the menu of the key the timer was started for opens |
| CustomKeyboardMachine.CustomKeyboard.InvalidateTouchTimers | Keyboard/CustomKeyboard/CustomKeyboard.swift:195-242 | both backspace timers and the menu timer are cancelled |
| CustomKeyboardMachine.CustomKeyboard.DidKeyPressStart | Keyboard/CustomKeyboard/CustomKeyboard.swift:251-271 | the timers are cancelled; backspace arms auto-delete mode; a pop-up key with a menu arms the menu timer; a menu key without a pop-up opens its menu unlocked |
| CustomKeyboardMachine.CustomKeyboard.DidKeyPressEnd | Keyboard/CustomKeyboard/CustomKeyboard.swift:273-332 | the outputs and the new state are the press-end step of the state machine |
| CustomKeyboardMachine.CustomKeyboard.DidTouchesFinish | Keyboard/CustomKeyboard/CustomKeyboard.swift:348-398 | the outputs and the new state are the step for a touch that ends or is cancelled |
| KeyboardIdentifiers.ParseIdentifier | Keyboard/DefaultKeyboard/CustomKeyboardLayout.swift:13-24 | a string parses to the identifier of that name, and to none when no identifier has that name |
| KeyboardIdentifiers.ParseRawValue | Keyboard/DefaultKeyboard/CustomKeyboardLayout.swift:13-24 | parsing an identifier's raw value gives the identifier back, so raw values are pairwise distinct |
| LegacyCustomKeyboardPages.DefaultStyleRows | Keyboard/DefaultKeyboard/CustomKeyboardLayout.swift:46-53 | the default third row has bottom 10, 6 in landscape, and buttons padding 15; the nested row has no side paddings |
| LegacyCustomKeyboardPages.UpperRowsTakeShares | Keyboard/DefaultKeyboard/CustomKeyboardLayout.swift:98-135 | for any style, the first two rows of every page start with a key that shares the width |
| LegacyCustomKeyboardPages.LowerRowsTakeShares | Keyboard/DefaultKeyboard/CustomKeyboardLayout.swift:136-188 | for any style, the third row shares its width with the nested row and the bottom row with the space bar |
| LegacyCustomKeyboardPages.RowsShareWidth | Keyboard/DefaultKeyboard/CustomKeyboardLayout.swift:97-564 | for any style, every row of every page has a child that shares its width, so the row's share width exists |
| LegacyCustomKeyboardPages.NewPageLayout | Keyboard/DefaultKeyboard/CustomKeyboardLayout.swift:98-100 | the layout built for a page is a new object that shows it: the style's layout style, the page's rows, typing enabled and no key held |
| LegacyCustomKeyboardPages.NewPageLayouts | Keyboard/DefaultKeyboard/CustomKeyboardLayout.swift:97-564 | the five layouts `init(style:)` builds are new, pairwise distinct objects, each showing its own page in that style |
| LegacyCustomKeyboardPages.CustomKeyboardLayout.constructor | Keyboard/DefaultKeyboard/CustomKeyboardLayout.swift:88-564 | the five page fields hold new, pairwise distinct layouts, each showing its own page in the given style |
| LegacyCustomKeyboardPages.ShownRowsShareWidth | Keyboard/DefaultKeyboard/CustomKeyboardLayout.swift:97-564 | every row of a layout built for a page has a child that shares its width |
| LegacyCustomKeyboardPages.RowsFollowStyle | Keyboard/DefaultKeyboard/CustomKeyboardLayout.swift:88-99 | every row takes its style from the style value passed in: the row style, the second-row style on letter pages, and the third-row style |
| LegacyCustomKeyboardPages.PageKeys | Keyboard/DefaultKeyboard/CustomKeyboardLayout.swift:136-188 | shift or the other sign page leads the third row, and the page keys lead the bottom row; backspace and globe are where the source puts them |
| LegacyCustomKeyboardPages.ThirdRowKeyed | Keyboard/DefaultKeyboard/CustomKeyboardLayout.swift:136-161 | any page's third row has three children, leads with its mode key and ends with backspace |
| LegacyCustomKeyboardPages.FourthRowKeyed | Keyboard/DefaultKeyboard/CustomKeyboardLayout.swift:163-188 | any page's bottom row leads with Letters on the sign pages and Numbers otherwise, then globe, space and return |
| LegacyCustomKeyboardPages.ThirdRowWidths | Keyboard/DefaultKeyboard/CustomKeyboardLayout.swift:136-161 | the third row is a relative 0.115 key, the nested row as its one share, and a relative 0.115 backspace |
| LegacyCustomKeyboardPages.BottomRowWidths | Keyboard/DefaultKeyboard/CustomKeyboardLayout.swift:163-188 | the bottom row is relative 0.115, relative 0.115, a dynamic space bar and relative 0.18 |
| LegacyCustomKeyboard.SlotsDistinct | Keyboard/DefaultKeyboard/CustomKeyboard.swift:53-91 | in a valid state the five page fields hold distinct layouts, all of them built already |
| LegacyCustomKeyboard.CurrentPageIsSlot | Keyboard/DefaultKeyboard/CustomKeyboard.swift:93-100 | with distinct fields, the page shown is p exactly when the current layout is the one p's field holds |
| LegacyCustomKeyboard.GoToShows | Keyboard/DefaultKeyboard/CustomKeyboard.swift:93-100 | switching to a page field's layout shows that page and keeps the invariant |
| LegacyCustomKeyboard.InitState | Keyboard/DefaultKeyboard/CustomKeyboard.swift:120-124 | after setting up, upper case shows, `uppercaseOnce` is set and the shift window is closed |
| LegacyCustomKeyboard.InstallFollows | Keyboard/DefaultKeyboard/CustomKeyboard.swift:53-91 | a field gets a new layout, which also becomes current exactly when the field held the current layout |
| LegacyCustomKeyboard.ReloadKeepsPage | Keyboard/DefaultKeyboard/CustomKeyboard.swift:144-150 | reloading keeps the page shown, now drawn by a fresh layout, and every field gets a fresh layout |
| LegacyCustomKeyboard.ReloadTypes | Keyboard/DefaultKeyboard/CustomKeyboard.swift:144-150 | reloading keeps the invariant and the page shown, and the new current layout types |
| LegacyCustomKeyboard.TypingUpdateFollowsMenu | Keyboard/DefaultKeyboard/CustomKeyboard.swift:38-51 | after a deferred update, the current layout types exactly when no menu is open and none is locked |
| LegacyCustomKeyboard.SpecialKeyKeepsValid | Keyboard/DefaultKeyboard/CustomKeyboard.swift:264-307 | every special key keeps the invariant |
| LegacyCustomKeyboard.PressKeepsValid | Keyboard/DefaultKeyboard/CustomKeyboard.swift:229-311 | press start and press end keep the invariant |
| LegacyCustomKeyboard.PressStartKeepsValid | Keyboard/DefaultKeyboard/CustomKeyboard.swift:229-251 | starting a press leaves the layouts and the typing flags as they were and keeps the invariant |
| LegacyCustomKeyboard.TouchesKeepValid | Keyboard/DefaultKeyboard/CustomKeyboard.swift:325-374 | touch end and touch cancel keep the invariant |
| LegacyCustomKeyboard.TimersKeepValid | Keyboard/DefaultKeyboard/CustomKeyboard.swift:181-227 | the timers and the deferred update keep the invariant |
| LegacyCustomKeyboard.TypingUpdateKeepsValid | Keyboard/DefaultKeyboard/CustomKeyboard.swift:45-49 | the deferred update keeps the layouts and disables only layouts already handed out, so it keeps the invariant |
| LegacyCustomKeyboard.ForeignLayoutIgnored | Keyboard/DefaultKeyboard/CustomKeyboard.swift:229-254 | from a layout that is not current, press end does nothing and press start only cancels the timers |
| LegacyCustomKeyboard.KeyWhileOnceGoesLowercase | Keyboard/DefaultKeyboard/CustomKeyboard.swift:257-262 | a character key while `uppercaseOnce` reports itself, goes to lower case and clears the flag, from any page |
| LegacyCustomKeyboard.SignPagesKeepOnce | Keyboard/DefaultKeyboard/CustomKeyboard.swift:259-270 | Numbers and Symbols keep `uppercaseOnce`, so the next key goes to lower case |
| LegacyCustomKeyboard.PressDependsOnKind | Keyboard/DefaultKeyboard/CustomKeyboard.swift:253-311 | two buttons with the same identifier and type lead to the same new state and the same outputs, except that the press report names the button pressed |
| LegacyCustomKeyboard.ActionKeys | Keyboard/DefaultKeyboard/CustomKeyboard.swift:274-283 | space and backspace report themselves and clear `uppercaseOnce`; globe and return only report; none changes page |
| LegacyCustomKeyboard.LettersKey | Keyboard/DefaultKeyboard/CustomKeyboard.swift:271-273 | Letters goes to upper case with `uppercaseOnce` set |
| LegacyCustomKeyboard.ShiftTap | Keyboard/DefaultKeyboard/CustomKeyboard.swift:284-306 | the shift key of each letter page moves as the source's three cases say, opening or closing the window |
| LegacyCustomKeyboard.DoubleTapLocksCaps | Keyboard/DefaultKeyboard/CustomKeyboard.swift:284-303 | two taps without the timer firing, from upper or lower case, lock caps with the window closed |
| LegacyCustomKeyboard.SlowTapsToggleBack | Keyboard/DefaultKeyboard/CustomKeyboard.swift:284-303 | when the timer fires between the taps, the second tap goes back to the starting page |
| LegacyCustomKeyboard.BackspaceHoldRepeats | Keyboard/DefaultKeyboard/CustomKeyboard.swift:181-237 | after backspace is pressed on the current layout and auto-delete mode starts, k firings of the delete timer report k backspaces, and after the release the delete timer reports nothing |
| LegacyCustomKeyboard.CancelReenablesTyping | Keyboard/DefaultKeyboard/CustomKeyboard.swift:364-370 | a cancelled touch that closes a locked menu makes the current layout type again at once |
| LegacyCustomKeyboard.CustomKeyboard.constructor | Keyboard/DefaultKeyboard/CustomKeyboard.swift:105-124 | the fields are the state after setting up |
| LegacyCustomKeyboard.CustomKeyboard.AssignSlot | Keyboard/DefaultKeyboard/CustomKeyboard.swift:53-91 | the page field holds the new layout and nothing else changes |
| LegacyCustomKeyboard.CustomKeyboard.SetPageLayout | Keyboard/DefaultKeyboard/CustomKeyboard.swift:53-91 | the field's setter and its `layoutDidChange` hook |
| LegacyCustomKeyboard.CustomKeyboard.InstallPage | Keyboard/DefaultKeyboard/CustomKeyboard.swift:145-149 | a page field gets a newly built layout |
| LegacyCustomKeyboard.CustomKeyboard.Reload | Keyboard/DefaultKeyboard/CustomKeyboard.swift:144-150 | the five fields get new layouts, in the source's order |
| LegacyCustomKeyboard.CustomKeyboard.SetKeyMenuShowing | Keyboard/DefaultKeyboard/CustomKeyboard.swift:38-51 | the menu key is set and one deferred typing update is scheduled |
| LegacyCustomKeyboard.CustomKeyboard.RunDeferredTypingUpdate | Keyboard/DefaultKeyboard/CustomKeyboard.swift:45-49 | one pending update runs on the layout that is current at that moment |
| LegacyCustomKeyboard.CustomKeyboard.InvalidateTouchTimers | Keyboard/DefaultKeyboard/CustomKeyboard.swift:171-220 | both backspace timers and the menu timer are cancelled |
| LegacyCustomKeyboard.CustomKeyboard.StartShiftToggleTimer | Keyboard/DefaultKeyboard/CustomKeyboard.swift:191-199 | the shift window opens and its timer is scheduled |
| LegacyCustomKeyboard.CustomKeyboard.InvalidateShiftToggleTimer | Keyboard/DefaultKeyboard/CustomKeyboard.swift:201-205 | the shift window closes and its timer is cleared |
| LegacyCustomKeyboard.CustomKeyboard.FireShiftToggleTimer | Keyboard/DefaultKeyboard/CustomKeyboard.swift:191-205 | the shift timer fires and closes the window |
| LegacyCustomKeyboard.CustomKeyboard.FireBackspaceAutoDeleteModeTimer | Keyboard/DefaultKeyboard/CustomKeyboard.swift:181-184 | the repeating delete timer starts |
| LegacyCustomKeyboard.CustomKeyboard.FireBackspaceDeleteTimer | Keyboard/DefaultKeyboard/CustomKeyboard.swift:186-189 | one backspace is reported while the delete timer is scheduled |
| LegacyCustomKeyboard.CustomKeyboard.FireKeyMenuOpenTimer | Keyboard/DefaultKeyboard/CustomKeyboard.swift:222-226 | the menu of the key the timer was started for opens |
| LegacyCustomKeyboard.CustomKeyboard.DidKeyPressStart | Keyboard/DefaultKeyboard/CustomKeyboard.swift:229-251 | the new state is the press-start step for the layout the press came from |
| LegacyCustomKeyboard.CustomKeyboard.DidKeyPressEnd | Keyboard/DefaultKeyboard/CustomKeyboard.swift:253-311 | the outputs and the new state are the press-end step for the layout the press came from |
| LegacyCustomKeyboard.CustomKeyboard.ApplySpecialKey | Keyboard/DefaultKeyboard/CustomKeyboard.swift:264-307 | the new state and the added events are the special key's effect |
| LegacyCustomKeyboard.CustomKeyboard.DidTouchesFinish | Keyboard/DefaultKeyboard/CustomKeyboard.swift:325-374 | the outputs and the new state are the step for a touch that ends or is cancelled |
| DefaultKeyboardPages.KeyboardLayoutOf | Keyboard/DefaultKeyboard/DefaultKeyboardLayout.swift:88-101 | every read builds a new layout object holding the shared layout style and the page's rows, with typing enabled and no key held |
| DefaultKeyboardPages.UpperRowsLaidOut | Keyboard/DefaultKeyboard/DefaultKeyboardLayout.swift:103-135 | the first two rows of every page give both bottom paddings and start with a key that shares the width |
| DefaultKeyboardPages.LowerRowsLaidOut | Keyboard/DefaultKeyboard/DefaultKeyboardLayout.swift:136-186 | the third row shares its width with the nested row and the bottom row with the space bar; both give both bottom paddings |
| DefaultKeyboardPages.RowsAreLaidOut | Keyboard/DefaultKeyboard/DefaultKeyboardLayout.swift:103-452 | every row of every page gives both bottom paddings and has a child that shares its width, so the row's share width exists |
| DefaultKeyboardPages.PageStyles | Keyboard/DefaultKeyboard/DefaultKeyboardLayout.swift:12-32 | the layout style is top 10, bottom 5, row padding 13; the row styles have the source's paddings, and only the letter pages' second row is indented |
| DefaultKeyboardPages.PageKeys | Keyboard/DefaultKeyboard/DefaultKeyboardLayout.swift:136-186 | shift or the other sign page leads the third row; Numbers, or Letters on the sign pages, leads the bottom row; backspace and globe are where the source puts them |
| DefaultKeyboardPages.ThirdRowKeyed | Keyboard/DefaultKeyboard/DefaultKeyboardLayout.swift:136-161 | any page's third row has three children, leads with its mode key and ends with backspace |
| DefaultKeyboardPages.FourthRowKeyed | Keyboard/DefaultKeyboard/DefaultKeyboardLayout.swift:162-186 | any page's bottom row leads with Letters on the sign pages and Numbers otherwise, then globe, space and return |
| DefaultKeyboardPages.UppercasePagesDifferOnlyInShift | Keyboard/DefaultKeyboard/DefaultKeyboardLayout.swift:88-143 | the toggled upper-case page differs from the upper-case page only in its shift key |
| DefaultKeyboardPages.SignPagesRepeatComma | Keyboard/DefaultKeyboard/DefaultKeyboardLayout.swift:322-330 | the number and symbol pages share their third-row keys, "," is both the second and the fifth, and "'" is absent |
| DefaultKeyboardPages.ThirdRowWidths | Keyboard/DefaultKeyboard/DefaultKeyboardLayout.swift:136-162 | the third row is a relative 0.13 key, the nested row as its one share, and a relative 0.13 backspace |
| DefaultKeyboardPages.BottomRowWidths | Keyboard/DefaultKeyboard/DefaultKeyboardLayout.swift:163-186 | the bottom row is relative 0.13, a 40-point globe, a dynamic space bar and relative 0.2 |
| DefaultKeyboardMachine.InitValid | Keyboard/DefaultKeyboard/DefaultKeyboard.swift:73-82 | the initial state shows upper case with `uppercaseOnce` set and meets the invariant |
| DefaultKeyboardMachine.StepsKeepValid | Keyboard/DefaultKeyboard/DefaultKeyboard.swift:113-204 | every press, press start and timer step keeps the invariant |
| DefaultKeyboardMachine.SpecialKeyKeepsTimers | Keyboard/DefaultKeyboard/DefaultKeyboard.swift:155-190 | no special key touches the backspace timers, and each keeps the invariant |
| DefaultKeyboardMachine.PressStopsAutoDelete | Keyboard/DefaultKeyboard/DefaultKeyboard.swift:140-143 | after any press the delete timer reports nothing and auto-delete mode is off |
| DefaultKeyboardMachine.ForeignLayoutOnlyReported | Keyboard/DefaultKeyboard/DefaultKeyboard.swift:140-144 | from a layout that is not current, a press only reports the button and cancels the backspace timers |
| DefaultKeyboardMachine.KeyWhileOnceGoesLowercase | Keyboard/DefaultKeyboard/DefaultKeyboard.swift:146-151 | a character key while `uppercaseOnce` reports itself, goes to lower case and clears the flag |
| DefaultKeyboardMachine.KeyKeepsPage | Keyboard/DefaultKeyboard/DefaultKeyboard.swift:146-151 | a character key without `uppercaseOnce` reports the button and its text, and changes nothing but the backspace timers |
| DefaultKeyboardMachine.SignPagesKeepOnce | Keyboard/DefaultKeyboard/DefaultKeyboard.swift:146-172 | Numbers and Symbols keep `uppercaseOnce`, so the next key goes to lower case |
| DefaultKeyboardMachine.PressDependsOnKind | Keyboard/DefaultKeyboard/DefaultKeyboard.swift:140-194 | two buttons with the same identifier and type lead to the same new state and the same outputs, except that the press report names the button pressed |
| DefaultKeyboardMachine.ActionKeys | Keyboard/DefaultKeyboard/DefaultKeyboard.swift:156-165 | space and backspace report themselves and clear `uppercaseOnce`; globe and return only report; none changes page |
| DefaultKeyboardMachine.LettersKey | Keyboard/DefaultKeyboard/DefaultKeyboard.swift:166-168 | Letters goes to upper case with `uppercaseOnce` set and leaves the shift window as it was |
| DefaultKeyboardMachine.ShiftTap | Keyboard/DefaultKeyboard/DefaultKeyboard.swift:173-188 | the shift key shown moves as the three cases say: Shift always opens the window; ShiftToggledOnce locks inside it and otherwise falls to lower case without opening it |
| DefaultKeyboardMachine.ShiftThenShiftOnceLocks | Keyboard/DefaultKeyboard/DefaultKeyboard.swift:173-185 | Shift followed by ShiftToggledOnce, with no timer in between, locks caps from any page |
| DefaultKeyboardMachine.DoubleTapFromLowercaseLocks | Keyboard/DefaultKeyboard/DefaultKeyboard.swift:173-185 | two quick taps on the shift key shown, from lower case, lock caps |
| DefaultKeyboardMachine.DoubleTapFromUppercaseToggles | Keyboard/DefaultKeyboard/DefaultKeyboard.swift:180-188 | from upper case with the window closed, two quick taps go to lower case and back to upper case once |
| DefaultKeyboardMachine.SlowTapsFromLowercaseToggleBack | Keyboard/DefaultKeyboard/DefaultKeyboard.swift:173-188 | when the timer fires between the taps, the second tap goes to lower case instead of locking caps |
| DefaultKeyboardMachine.BackspaceHoldRepeats | Keyboard/DefaultKeyboard/DefaultKeyboard.swift:196-204 | after backspace is pressed on the layout shown and auto-delete mode starts, k firings of the delete timer report k backspaces |
| DefaultKeyboardMachine.QuickBackspaceDoesNotRepeat | Keyboard/DefaultKeyboard/DefaultKeyboard.swift:196-204 | the press reported when backspace is released, if it comes before auto-delete mode starts, cancels every repeat |
| DefaultKeyboardMachine.DefaultKeyboard.constructor | Keyboard/DefaultKeyboard/DefaultKeyboard.swift:58-82 | the fields start in the initial state |
| DefaultKeyboardMachine.DefaultKeyboard.InvalidateBackspaceTimers | Keyboard/DefaultKeyboard/DefaultKeyboard.swift:103-111 | both backspace timers are cancelled |
| DefaultKeyboardMachine.DefaultKeyboard.StartShiftToggleTimer | Keyboard/DefaultKeyboard/DefaultKeyboard.swift:123-131 | the shift window opens and its timer is scheduled |
| DefaultKeyboardMachine.DefaultKeyboard.InvalidateShiftToggleTimer | Keyboard/DefaultKeyboard/DefaultKeyboard.swift:133-137 | the shift window closes and its timer is cleared |
| DefaultKeyboardMachine.DefaultKeyboard.FireShiftToggleTimer | Keyboard/DefaultKeyboard/DefaultKeyboard.swift:123-137 | the shift timer fires and closes the window |
| DefaultKeyboardMachine.DefaultKeyboard.FireBackspaceAutoDeleteModeTimer | Keyboard/DefaultKeyboard/DefaultKeyboard.swift:113-116 | the repeating delete timer starts |
| DefaultKeyboardMachine.DefaultKeyboard.FireBackspaceDeleteTimer | Keyboard/DefaultKeyboard/DefaultKeyboard.swift:118-120 | one backspace is reported while the delete timer is scheduled |
| DefaultKeyboardMachine.DefaultKeyboard.DidPressButton | Keyboard/DefaultKeyboard/DefaultKeyboard.swift:140-194 | the outputs and the new state are the press step for the layout the press came from |
| DefaultKeyboardMachine.DefaultKeyboard.DidStartPressingButton | Keyboard/DefaultKeyboard/DefaultKeyboard.swift:196-204 | the backspace timers are cancelled, and backspace on the current layout arms auto-delete mode |

## Left out

- Drawing: colours, fonts, shadows, corner radii, the pop-up bubble views (`KeyPop`) and the key menu views. The model keeps only which subviews exist and their frames.
- `textOffsetY` in button styles is not modelled. It moves only the drawn label.
- The copy of `CustomKeyboardLayout.swift` under `KeyPop/` is not part of this model. It is a near duplicate of the one under `CustomKeyboard/`.
- `KeyboardViewController.swift` and the `Shadow` pod are not part of this model. They are host-app and drawing code.
- Real time: timer intervals are not modelled. A scheduled timer is a flag, and its firing is an explicit step. The 0.1-second deferred `typingEnabled` update is a count of pending updates plus a step that runs one.
- The views' frames and hit testing are inputs. A touch arrives as the key it landed on (or none); `UITouch` and view lookup are not modelled.
- Key menu selection from a touch location is an input index. The menu's own geometry is left out.
- A key menu item's optional `action` closure is not modelled. A selection in range always reports `KeyMenuItemAction(i)`, where the source runs the item's action only when one is set.
- `didTouchesBegin` and `didTouchesMove` in the two `CustomKeyboard` controllers only move a menu's highlighted item, so they are covered by the input index.
- `enumerateKeyboardLayouts` and `layoutSubviews` of `CustomKeyboard` only visit or resize views; the resize is covered by `Layouts.KeyboardLayout.LayoutSubviews`.
- Floating point: `CGFloat` is `real`, so rounding is not modelled.
- Row bottom paddings are optional values, because the layout falls back with `??`. Every style built through its initializer supplies them.
- Layouts.OptimumRowHeight: requires at least one row. With zero rows the source's quotient (KeyboardLayout.swift:126) divides by zero, and the result is never read because the loop over the rows then runs zero times.
- Layouts.KeyboardLayout.AddKeyboardButton: requires a non-negative button index inside an existing row, because a negative index makes the source's array insertion trap.
- Rows.GetOptimumButtonWidth: returns none instead of a division by zero when no child shares the width. Every reader of the share in the source only runs when a sharing child exists (`Rows.ShareReaderMeansSlot`).
- DefaultKeyboardMachine.FireShiftToggle: Shift arms a new shift timer without cancelling a running one, so an earlier timer can fire and close the window early. The model keeps one timer flag, and this early close is not modelled.
- In `DefaultKeyboardMachine`, a layout is identified by the page it shows. `DefaultKeyboard` never replaces its five layouts, so this loses nothing.
- The three controller generations are written against different versions of the engine's API: the delegate method names and the `CustomKeyboardLayout` that the older `CustomKeyboard` expects. The model uses the shared semantics of the engine as given in `KeyboardLayoutEngine/`.

## Findings

| source | as written | input that shows it | evidently intended | confidence | as-written member | corrected member |
|---|---|---|---|---|---|---|
| Keyboard/KeyboardLayoutEngine/KeyboardRow.swift:110-177 | `layoutSubviews` computes the share width first. The share reads each nested row's side paddings in that row's stored orientation, and the row passes its own orientation to nested rows only afterwards. | A 100-point landscape row with one nested row still in portrait, whose landscape leading padding is larger: the children end 5 points past the row's trailing edge. This happens whenever a nested row's stored orientation differs from its parent's; nested rows start in portrait, so it also happens on a page laid out in landscape from the start. | Nested rows take the parent's orientation before the share is computed, so the children exactly fill the row. | not executed | Rows.AsWrittenWidth, with Rows.StaleShareOverfills | Rows.LayoutSubviews, with Rows.RowFillsWidth and Rows.LastEdge |
