# ColorNote note book, modelled in Dafny

ColorNote is a small desktop tool for keeping named lists of colour codes
("notes"). This project models the logic in `main.py`:

- the colour-code test used both when a colour is added to a new note and
  when the main window's preview swatch is refreshed;
- the add-note dialog's pending colour list;
- the main window's ordered note list with its three handlers (add, rename,
  delete), the list widget rebuilt from it after every change, and the
  notes file rewritten after every change;
- the summary each list row shows.

Modules: `ColorCode` (the test and the preview choice), `NoteDialog`
(class `AddNoteDialog`), `NoteListView` (the row summary `NoteListItem`),
`Notes` (class `MainWindow` and the functions that specify its handlers),
and `Wrappers` (an `Option` type).

The outcomes of modal dialogs become method parameters. These are whether
the add-note dialog was accepted, the `ok` flag and text from the rename
input box, the Yes/No answer to the delete question, and the current
selection (`Option<nat>`, a row of the list widget). The notes file is the
field `MainWindow.store`. It holds the notes as values, or `None` while
there is no file.

The colour-code test is looser than the `#FF0000` example in the dialog's
placeholder text suggests. The code checks only for a leading `#` and a
length of seven, so `#GGGGGG` is accepted. The model follows the code.

## Model

| member | source | states |
|---|---|---|
| `ColorCode.ValidCode` | main.py:51 | a code is accepted exactly when it has seven characters and the first is `#`; the other six characters are not inspected |
| `ColorCode.ValidCodeIgnoresTail` | main.py:218 | two codes of the same length with the same first character are accepted or rejected together, so characters 2 to 7 are never inspected |
| `ColorCode.ValidCodeExamples` | main.py:51 | `#FF0000`, `#1a2B3c` and the non-hex `#GGGGGG` are accepted; `#FFF`, `red`, the empty string, `FF0000#` and an eight-character code are rejected |
| `ColorCode.Preview` | main.py:216-221 | the preview background is the entered text when it passes the colour test and white when it fails; so it passes the test exactly when the entered text does |
| `NoteDialog.Accepted` | main.py:49-59 | the pending colour list kept from a series of add attempts is no longer than the attempts and holds only codes that pass the test |
| `NoteDialog.AcceptedAppend` | main.py:56 | the codes kept from two series of attempts, one after the other, are those kept from the first followed by those kept from the second |
| `NoteDialog.AcceptedCount` | main.py:49-59 | each accepted code is kept as many times as it was added (no deduplication), and each rejected code never appears |
| `NoteDialog.AddNoteDialog.constructor` | main.py:20-37 | a new dialog has an empty name, an empty colour field and no pending colours |
| `NoteDialog.AddNoteDialog.SetNameText` | main.py:23 | typing into the name field sets its text |
| `NoteDialog.AddNoteDialog.SetColorText` | main.py:35 | typing into the colour field sets its text |
| `NoteDialog.AddNoteDialog.AddColor` | main.py:49-59 | an accepted code is appended to the end of the pending list and the field is cleared; a rejected code leaves the list and field unchanged and a warning is shown; afterwards the list is still exactly the accepted attempts |
| `NoteDialog.AddNoteDialog.GetNoteData` | main.py:61-62 | returns the name text and the pending colours, which are exactly the accepted attempts and all pass the test |
| `NoteListView.Summary` | main.py:70-87 | a row shows the name and the colour count, swatches for exactly the first min(5, count) colours in order, and an ellipsis exactly when there are more than 5 |
| `NoteListView.SummaryEllipsisMeansHidden` | main.py:78-87 | the ellipsis appears exactly when some colour has no swatch, and the swatches followed by the hidden colours are all the colours |
| `NoteListView.NewNoteListItem` | main.py:64-89 | the row built widget by widget, one swatch per loop step, equals the summary |
| `Notes.AfterAddNewNote` | main.py:263-267 | the list grows by one exactly when the dialog was accepted with a non-empty name and at least one colour; the old notes stay as a prefix, the new note is last, and otherwise nothing changes |
| `Notes.Renamed` | main.py:306-309 | renaming note i keeps the length, gives note i the new name and its old colours, and leaves every other note unchanged |
| `Notes.Removed` | main.py:321-322 | deleting note i shortens the list by one; notes before i keep their places, notes after i move up by one, and exactly note i leaves the multiset |
| `Notes.RenameBack` | main.py:306-309 | renaming a note back to its old name restores the list |
| `Notes.ItemOf` | main.py:275 | the row shown for a note carries its name and colour count, swatches for exactly the first min(5, count) colours, and an ellipsis exactly when there are more than five (so exactly when some colour has no swatch) |
| `Notes.DeleteUndoesAdd` | main.py:261-324 | deleting the last row right after a successful add restores the list |
| `Notes.DisplaysAfterRemove` | main.py:313-324 | if row k showed note k before a delete, then after it row k still shows note k; the rows after the deleted one move up by one |
| `Notes.DisplaysAfterRename` | main.py:302-311 | after a rename only the renamed row changes, and only in its name |
| `Notes.MainWindow.constructor` | main.py:143-147 | the window starts empty with a white preview, then takes the file's notes if the file exists; the display then matches the notes and the file matches memory |
| `Notes.MainWindow.UpdateNoteList` | main.py:271-278 | after the rebuild the list widget has one row per note, and row i shows note i |
| `Notes.MainWindow.SaveNotes` | main.py:280-282 | the file afterwards holds the whole note list |
| `Notes.MainWindow.LoadNotes` | main.py:284-288 | the notes become the file's notes when the file exists and are unchanged otherwise; the display matches them |
| `Notes.MainWindow.AddNewNote` | main.py:261-269 | the note list becomes `AfterAddNewNote` of the dialog's outcome; a new note's colours all pass the test and the file is saved; when nothing is added, the display and file are untouched; row/note correspondence and file sync are kept |
| `Notes.MainWindow.RenameNote` | main.py:302-311 | with a selection, `ok` and a non-empty name, the list becomes `Renamed` at the selected row and is saved; otherwise the list, display and file are unchanged |
| `Notes.MainWindow.DeleteNote` | main.py:313-324 | with a selection and a Yes answer, the list becomes `Removed` at the selected row and is saved; otherwise the list, display and file are unchanged |
| `Notes.MainWindow.ShowNoteDetail` | main.py:326-328 | the note opened for a row is the note at that index, and it is the very note that row displays |
| `Notes.MainWindow.UpdateColorDisplay` | main.py:216-221 | the preview takes the background `Preview` gives for the colour field |
| `Notes.MainWindow.SetColorText` | main.py:202-204 | editing the colour field sets it, and the change signal refreshes the preview |
| `Notes.MainWindow.OpenColorPicker` | main.py:223-236 | a colour handed back by the picker replaces the colour field and the preview follows it; with no hand-off file nothing changes |

## Left out

- Widget construction, layout, sizes, styles, the context menu and the
  detail dialog's rendering. These are user-interface code. The detail
  dialog only reads the note at the clicked row, which `ShowNoteDetail`
  models.
- The label text of a row is kept as its name and its colour count. The
  decimal formatting and surrounding words of the label are not modelled.
- OpenColorPicker: the picker process, reading and stripping the hand-off
  file and deleting it are I/O. A non-zero exit of the picker, or a
  missing interpreter, raises out of the button handler; under PyQt's
  default handling of an uncaught exception this ends the application.
  Neither is modelled. The text read from the file is a parameter with no
  contract on its content. The printed message when the file is missing
  is not modelled.
- `kivy_color_picker.py` is not part of this model. It is a separate user
  interface, and its one computation formats floating-point channels as
  hex.
- SaveNotes / LoadNotes: JSON encoding and parsing are not modelled. The
  file holds the notes as values. A malformed file, on which loading
  raises, and a file whose records are not `{name, colors}` objects are
  not modelled. A failed write (the file is opened relative to the
  working directory, which may be read-only or full) raises out of the
  handler after the note list has already changed; it is not modelled,
  and the model assumes every save succeeds.
- Records are modelled as values. In the source the new note's colour list
  is the dialog's own list object. The dialog is never used again after the
  handler returns (it stays alive only as a hidden child of the window), so
  nothing writes through the shared list and no aliasing is observable.
