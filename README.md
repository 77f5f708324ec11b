# DashMe core, modelled in Dafny

DashMe lets a user put a top and a bottom caption over a photo, share the
composed image, and keep the result in a session-long list shown in a table.
This project models the parts of the app that carry logic:

- the row-label formatter `generateLabelText`, which folds the two captions
  into one label of at most 25 characters (`label_text.dfy`, module
  `LabelFormat`): a pure specification `LabelText`, the step-by-step method
  `GenerateLabelText` proved equal to it, and lemmas for each shape the label
  can take;
- the shared record list `DashData.allDashs` (`dash_data.dfy`): a `Dash`
  record and a `DashStore` class whose `allDashs: seq<Dash>` is appended to and
  removed from in place;
- the list screen (`table_view.dfy`): the two unwind-permission flags as a
  small state machine with a lemma over whole histories, and a
  `TableViewController` class for row count, row deletion and the empty state;
- the editor screen (`editor.dfy`): the uppercasing splice applied to a text
  field, the share button's enabled state, and saving a record only when a
  share completes.

Strings are `seq<char>`; one `char` stands for one Swift `Character`, so all
counts and offsets are in characters. Images are opaque handles, and a nil
image is `None`. The platform's uppercasing is a function-typed parameter
`upper` of which nothing is assumed (in particular not that it keeps the
length). The composed image, which the source renders from the screen, is a
parameter of `ShareDash`.

The suffix branch of the formatter (`TableViewController.swift:225-229`) is
reached only when the bottom caption is longer than the remaining budget, so
no slice is negative: `GenerateLabelText` has no precondition and every slice
in it is proved in range. `viewDidLoad` sets only the top field to its
default (`EditorViewController.swift:50`); line 51, which would set the
bottom one, is commented out, and `ViewDidLoad` does the same.

## Model

| member | source | states |
|---|---|---|
| LabelFormat.TopSegment | Dash/TableViewController.swift:206-213 | the top segment has min(|top|, 11) characters |
| LabelFormat.TopSegmentIsPrefix | Dash/TableViewController.swift:206-213 | the top segment is a prefix of the top caption (with TopSegment: the whole caption or its first 11 characters) |
| LabelFormat.Room | Dash/TableViewController.swift:202-215 | the budget left for the bottom caption after the top segment always lies between 11 and 22 |
| LabelFormat.Suffix | Dash/TableViewController.swift:227-228 | the back slice `bottomText[index...]` (also lines 242-243) has exactly `n` characters |
| LabelFormat.SuffixCompletesString | Dash/TableViewController.swift:242-243 | the back slice is the string's last `n` characters: what precedes it followed by it is the whole string |
| LabelFormat.BottomPart | Dash/TableViewController.swift:219-245 | what follows the first ellipsis: the whole bottom caption when it fits, otherwise exactly as many characters as the remaining budget; the exact shapes are the LabelWhen… lemmas |
| LabelFormat.LabelText | Dash/TableViewController.swift:192-248 | the specification of the label: it starts with the top segment and an ellipsis and has at most 25 characters; the exact shapes are the LabelWhen… lemmas and LabelLength |
| LabelFormat.GenerateLabelText | Dash/TableViewController.swift:192-248 | the step-by-step construction, with no precondition and every slice offset in range, yields exactly the label `LabelText` specifies |
| LabelFormat.LabelStartsWithTop | Dash/TableViewController.swift:206-217 | the label starts with the whole top caption when it has at most 11 characters, else with its first 11, and an ellipsis follows that segment |
| LabelFormat.LabelWhenBottomFits | Dash/TableViewController.swift:215-222 | when the bottom caption fits in 22 minus the top segment, the label is top segment + "..." + bottom |
| LabelFormat.LabelOfShortCaptions | Dash/TableViewController.swift:206-222 | two captions of at most 11 characters each give top + "..." + bottom exactly |
| LabelFormat.LabelWhenTopFullAndBottomLong | Dash/TableViewController.swift:225-229 | with a top segment of 11 and a bottom caption that does not fit, the label is the first 11 of top + "..." + the last 11 of bottom, so it ends with exactly those 11 |
| LabelFormat.LabelWhenTopShortAndBottomLong | Dash/TableViewController.swift:231-243 | with a top caption shorter than 11 and a bottom caption that does not fit, the label is top + "..." + the first 11-|top| of bottom + "..." + the last 8 of bottom |
| LabelFormat.LabelLength | Dash/TableViewController.swift:194-243 | the label's length is 3 + min(|top segment| + |bottom|, 22): never more than 25, and exactly 25 whenever the bottom caption is cut |
| LabelFormat.ExampleLongTopEmptyBottom | Dash/TableViewController.swift:206-217 | a 16-character top caption over an empty bottom caption gives "ABCDEFGHIJK..." |
| LabelFormat.ExampleLongTopShortBottom | Dash/TableViewController.swift:206-222 | "HELLO WORLD THIS IS LONG" over "SHORT" gives "HELLO WORLD...SHORT" |
| LabelFormat.ExampleSplitBottom | Dash/TableViewController.swift:231-243 | "HI" over a 21-character bottom caption gives "HI..." + its first 9 + "..." + its last 8 |
| DashData.DashStore.constructor | Dash/TableViewController.swift:34-37 | the list starts empty, the state `viewWillAppear` reports as empty |
| DashData.DashStore.Append | Dash/EditorViewController.swift:302 | one record is added at the end; the count grows by one and every earlier record is unchanged |
| DashData.DashStore.RemoveAt | Dash/TableViewController.swift:141 | element `index` is removed, earlier elements keep their positions, later ones move down by one, the count drops by one, and the multiset of records loses exactly that one record |
| TableView.AfterPrepare | Dash/TableViewController.swift:45-69 | after `prepare`, each flag is set iff it was set before or the segue has that flag's identifier; the history property is UnwindAcceptedIffSegueSinceLastUnwind |
| TableView.AfterUnwind | Dash/TableViewController.swift:89-95 | after `unwindFromEditor` both flags are false |
| TableView.CanPerform | Dash/TableViewController.swift:71-84 | an unwind is accepted iff it is `unwindFromEditor` and some segue flag is set; see OtherActionsRefused and NothingAcceptedAfterUnwind |
| TableView.OtherActionsRefused | Dash/TableViewController.swift:81-82 | any unwind action other than `unwindFromEditor` is refused whatever the flags are |
| TableView.NothingAcceptedAfterUnwind | Dash/TableViewController.swift:89-95 | after `unwindFromEditor` resets the flags, no unwind action is accepted |
| TableView.UnwindAcceptedIffSegueSinceLastUnwind | Dash/TableViewController.swift:45-95 | over any history of segues and unwinds from a fresh controller, `unwindFromEditor` is accepted iff one of the two own segues was started and no unwind came after it |
| TableView.TableViewController.constructor | Dash/TableViewController.swift:19-20 | both segue flags start false |
| TableView.TableViewController.ViewWillAppear | Dash/TableViewController.swift:31-43 | the edit button is enabled iff the store is non-empty and the empty message is shown iff it is empty; the flags are unchanged |
| TableView.TableViewController.SetUpTableViewBackground | Dash/TableViewController.swift:160-190 | the empty-list message is shown exactly when `isEmpty` |
| TableView.TableViewController.PrepareForSegue | Dash/TableViewController.swift:45-69 | a missing identifier or an unknown one leaves the flags alone; the detail segue sets `startedDetailSegue`, the editor segue sets `startedEditorSegue` |
| TableView.TableViewController.CanPerformUnwindSegueAction | Dash/TableViewController.swift:71-84 | returns true iff the action is `unwindFromEditor` and `startedDetailSegue || startedEditorSegue`; changes nothing |
| TableView.TableViewController.UnwindFromEditorAction | Dash/TableViewController.swift:89-95 | both flags become false |
| TableView.TableViewController.NumberOfRowsInSection | Dash/TableViewController.swift:102-107 | the row count reported to the table equals the number of records in the store |
| TableView.TableViewController.CommitEditingStyle | Dash/TableViewController.swift:138-155 | a delete removes exactly record `row` (the others shift down, the count drops by one); if the list becomes empty the edit button is titled "Edit", disabled, and the empty message shown; other styles change nothing; the empty state stays consistent with the count |
| Editor.Splice | Dash/EditorViewController.swift:176-177 | the new text keeps the characters before the range, holds the replacement next, then the characters after the range; its length is the old length minus the range plus the replacement |
| Editor.SpliceDeterminedByParts | Dash/EditorViewController.swift:177 | any text with that kept prefix, replacement and kept suffix is the spliced text (the contract of `Splice` pins it down) |
| Editor.SpliceOfEmptyDeletes | Dash/EditorViewController.swift:177 | an empty replacement yields the old text with the range removed |
| Editor.DeletionKeystrokeRemovesRange | Dash/EditorViewController.swift:176-179 | a deletion keystroke (empty replacement string) removes the range from the field, given that uppercasing "" yields "" |
| Editor.SpliceOfEmptyRangeInserts | Dash/EditorViewController.swift:177 | an empty range inserts the replacement at its location |
| Editor.EditorViewController.constructor | Dash/EditorViewController.swift:30-36 | the editor starts without images, not from the detail view, with defaults "TOP" and "BOTTOM" |
| Editor.EditorViewController.ViewDidLoad | Dash/EditorViewController.swift:41-55 | the top field shows the default top text, a handed-over image is displayed, the bottom field is untouched |
| Editor.EditorViewController.ViewWillAppear | Dash/EditorViewController.swift:63 | the share button is enabled iff an image is displayed |
| Editor.EditorViewController.ShouldChangeCharactersIn | Dash/EditorViewController.swift:174-182 | the field text becomes old prefix + upper(replacement) + old suffix, and the delegate answers false so the raw keystroke is never applied; a deletion keystroke (with `upper("") == ""`) leaves the text with the range removed |
| Editor.EditorViewController.SaveDash | Dash/EditorViewController.swift:292-303 | exactly one record is appended, carrying the current top text, bottom text, displayed image and composed image |
| Editor.EditorViewController.ShareDash | Dash/EditorViewController.swift:116-144 | the composed image is kept; a completed share appends the record (with that composed image) and returns to the list; a cancelled share leaves the store untouched |

## Left out

- Image picking and camera availability (`EditorViewController.swift:60-61, 89-114, 149-162`): platform UI; the displayed image is a field the platform sets.
- Rendering the composed image (`generateDashdImage`): opaque drawing, so the composed image arrives as a parameter of `ShareDash`.
- Presenting the share sheet and the asynchronous completion handler: `ShareDash` takes the completion result as a parameter and runs the handler at once.
- Keyboard notifications and moving the view (`EditorViewController.swift:187-232, 262-270`): floating-point geometry and notification plumbing.
- Font styling (`EditorViewController.swift:237-253`) and the layout of the empty-list label: only whether the message is shown is modelled.
- Segue routing beyond the flags, handing the selected record to the detail view, cancelling the editor, and cell dequeueing and tag lookups (`TableViewController.swift:45-69, 109-126`).
- `Dash/DetailViewController.swift`: it only copies fields of the selected record.
- The Swift 4.2 migrator dictionary helpers (`EditorViewController.swift:309-321`).
- Unicode: case mapping is the abstract `upper`, and `NSRange` counts UTF-16 units where the model counts characters; the range is required to lie within the text. Swift's `+=` on strings can merge grapheme clusters: a bottom caption that starts with a combining mark merges with the last `.` of the ellipsis, so Swift's `count` of that label is one less than the length LabelFormat.LabelLength states (the characters themselves, and the branching, which uses the captions' own counts, are the same).
- Optional strings: `UITextField.text` and the record's captions are `String?` in the source and are force-unwrapped where used; the model keeps them as plain strings.
- The `Dash` record and the `DashData` holder are modelled from how the controllers build and read them.
- DashData.DashStore.RemoveAt: `remove(at:)` traps on an index outside the list (`TableViewController.swift:141`); the model requires the index to be inside it instead, as the table only passes existing rows. TableView.TableViewController.CommitEditingStyle carries the same requirement for a delete.
- The `print` of an unknown segue identifier (`TableViewController.swift:67`) is console output and is not modelled.
