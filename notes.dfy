/** The main window's note book: the ordered list of notes, the list widget
    that shows one row per note, the colour-code field with its preview
    swatch, and the notes file that is rewritten after every change. */
module Notes {
  import opened Wrappers
  import opened ColorCode
  import opened NoteDialog
  import opened NoteListView

  /** A note: a name and its colour codes, in order. */
  datatype Note = Note(name: string, colors: seq<string>)

  /** The row the list shows for a note: its name and colour count,
      swatches for exactly the first min(5, count) colours, and an ellipsis
      exactly when there are more than five, that is, exactly when some
      colour is left without a swatch. */
  function ItemOf(note: Note): (item: NoteListItem)
    ensures item.name == note.name && item.colorCount == |note.colors|
    ensures |item.swatches| == Min(MaxSwatches, |note.colors|)
    ensures item.swatches == note.colors[..|item.swatches|]
    ensures item.ellipsis <==> |note.colors| > MaxSwatches
    ensures item.ellipsis <==> |item.swatches| < |note.colors|
  {
    Summary(note.name, note.colors)
  }

  /** The list widget shows one row per note, row i showing note i. */
  ghost predicate Displays(rows: seq<NoteListItem>, notes: seq<Note>) {
    |rows| == |notes| && forall i :: 0 <= i < |rows| ==> rows[i] == ItemOf(notes[i])
  }

  /** The note list after the add-note handler, given whether the dialog
      was accepted and the name and colours it returned: one note appended
      at the end exactly when the dialog was accepted with a non-empty name
      and at least one colour, the list unchanged otherwise. */
  function AfterAddNewNote(notes: seq<Note>, accepted: bool, name: string, colors: seq<string>): (r: seq<Note>)
    ensures |r| == |notes| + 1 <==> accepted && name != "" && colors != []
    ensures |r| != |notes| + 1 ==> r == notes
    ensures r[..|notes|] == notes
    ensures |r| == |notes| + 1 ==> r[|notes|] == Note(name, colors)
  {
    if accepted && name != "" && colors != [] then notes + [Note(name, colors)] else notes
  }

  /** The note list with note i renamed: its colours, every other note and
      the length stay as they were. */
  function Renamed(notes: seq<Note>, i: nat, newName: string): (r: seq<Note>)
    requires i < |notes|
    ensures |r| == |notes|
    ensures r[i].name == newName && r[i].colors == notes[i].colors
    ensures forall j :: 0 <= j < |r| && j != i ==> r[j] == notes[j]
  {
    notes[i := notes[i].(name := newName)]
  }

  /** The sequence with element i removed: the elements before i keep
      their places, those after it move up by one, and the multiset loses
      exactly the removed element. */
  function Removed<T>(s: seq<T>, i: nat): (r: seq<T>)
    requires i < |s|
    ensures |r| == |s| - 1
    ensures forall j :: 0 <= j < i ==> r[j] == s[j]
    ensures forall j :: i <= j < |r| ==> r[j] == s[j + 1]
    ensures multiset(r) + multiset{s[i]} == multiset(s)
  {
    assert s == s[..i] + [s[i]] + s[i + 1..];
    s[..i] + s[i + 1..]
  }

  /** Renaming a note back to its old name restores the list. */
  lemma RenameBack(notes: seq<Note>, i: nat, newName: string)
    requires i < |notes|
    ensures Renamed(Renamed(notes, i, newName), i, notes[i].name) == notes
  {
  }

  /** Deleting the note that was just added restores the list. */
  lemma DeleteUndoesAdd(notes: seq<Note>, name: string, colors: seq<string>)
    requires name != "" && colors != []
    ensures Removed(AfterAddNewNote(notes, true, name, colors), |notes|) == notes
  {
  }

  /** After a delete, the display is the old display without row i: the
      rows below it move up by one, so row indices stay aligned. */
  lemma DisplaysAfterRemove(rows: seq<NoteListItem>, notes: seq<Note>, i: nat)
    requires Displays(rows, notes) && i < |notes|
    ensures Displays(Removed(rows, i), Removed(notes, i))
  {
  }

  /** After a rename, only row i of the display changes, and it shows the
      new name with the note's unchanged colour summary. */
  lemma DisplaysAfterRename(rows: seq<NoteListItem>, notes: seq<Note>, i: nat, newName: string)
    requires Displays(rows, notes) && i < |notes|
    ensures Displays(rows[i := rows[i].(name := newName)], Renamed(notes, i, newName))
  {
  }

  /** The main window. `rows` is the list widget's content, `preview` the
      background of the preview swatch, and `store` the notes file (None
      while it does not exist). */
  class MainWindow {
    var notesData: seq<Note>
    var rows: seq<NoteListItem>
    var colorInput: string
    var preview: string
    var store: Option<seq<Note>>

    /** The file holds what memory holds; before the first save there is
        no file and no note. */
    ghost predicate InSync()
      reads this
    {
      store == Some(notesData) || (store == None && notesData == [])
    }

    /** Row i shows note i, the preview follows the colour field, and the
        file is in step with memory. */
    ghost predicate Valid()
      reads this
    {
      Displays(rows, notesData) && preview == Preview(colorInput) && InSync()
    }

    /** Starts with an empty list, an empty colour field and a white
        preview, then loads the notes file `file` when it exists. */
    constructor (file: Option<seq<Note>>)
      ensures Valid()
      ensures store == file
      ensures notesData == if file.Some? then file.value else []
      ensures colorInput == ""
    {
      notesData := [];
      rows := [];
      colorInput := "";
      preview := White;
      store := file;
      new;
      LoadNotes();
    }

    /** Clears the list widget and adds one row per note, in order. */
    method UpdateNoteList()
      modifies this`rows
      ensures Displays(rows, notesData)
    {
      rows := [];
      for i := 0 to |notesData|
        invariant |rows| == i
        invariant forall k :: 0 <= k < i ==> rows[k] == ItemOf(notesData[k])
      {
        var item := NewNoteListItem(notesData[i].name, notesData[i].colors);
        rows := rows + [item];
      }
    }

    /** Overwrites the notes file with the whole list. */
    method SaveNotes()
      modifies this`store
      ensures store == Some(notesData)
    {
      store := Some(notesData);
    }

    /** Replaces the list with the file's notes when the file exists and
        redisplays it; without a file nothing changes. */
    method LoadNotes()
      requires Displays(rows, notesData)
      modifies this`notesData, this`rows
      ensures Displays(rows, notesData)
      ensures notesData == if store.Some? then store.value else old(notesData)
    {
      if store.Some? {
        notesData := store.value;
        UpdateNoteList();
      }
    }

    /** The add-note handler, run after `dialog` has closed; `accepted` is
        whether it was closed with the finish button. A new note is appended
        only for an accepted dialog with a non-empty name and at least one
        colour, and then the list is redisplayed and saved. */
    method AddNewNote(dialog: AddNoteDialog, accepted: bool)
      requires Valid() && dialog.Valid()
      modifies this`notesData, this`rows, this`store
      ensures Valid()
      ensures notesData == AfterAddNewNote(old(notesData), accepted, dialog.nameInput, dialog.colorBlocks)
      ensures |notesData| == |old(notesData)| + 1 ==>
        store == Some(notesData)
        && forall c :: c in notesData[|notesData| - 1].colors ==> ValidCode(c)
      ensures notesData == old(notesData) ==> store == old(store) && rows == old(rows)
    {
      if accepted {
        var (name, colors) := dialog.GetNoteData();
        if name != "" && colors != [] {
          notesData := notesData + [Note(name, colors)];
          UpdateNoteList();
          SaveNotes();
        }
      }
    }

    /** The rename handler. `selected` is the current row, if any; `ok` and
        `newName` are what the input dialog returned. Only the name of the
        selected note changes, and only when the dialog was confirmed with
        a non-empty name; then the list is redisplayed and saved. */
    method RenameNote(selected: Option<nat>, ok: bool, newName: string)
      requires Valid()
      requires selected.Some? ==> selected.value < |rows|
      modifies this`notesData, this`rows, this`store
      ensures Valid()
      ensures selected.Some? && ok && newName != "" ==>
        notesData == Renamed(old(notesData), selected.value, newName) && store == Some(notesData)
      ensures !(selected.Some? && ok && newName != "") ==>
        notesData == old(notesData) && rows == old(rows) && store == old(store)
    {
      if selected.Some? {
        var index := selected.value;
        if ok && newName != "" {
          notesData := notesData[index := notesData[index].(name := newName)];
          UpdateNoteList();
          SaveNotes();
        }
      }
    }

    /** The delete handler. `selected` is the current row, if any, and
        `confirmed` whether the user answered Yes. Exactly the selected note
        is removed, the others keeping their order; then the list is
        redisplayed and saved. */
    method DeleteNote(selected: Option<nat>, confirmed: bool)
      requires Valid()
      requires selected.Some? ==> selected.value < |rows|
      modifies this`notesData, this`rows, this`store
      ensures Valid()
      ensures selected.Some? && confirmed ==>
        notesData == Removed(old(notesData), selected.value) && store == Some(notesData)
      ensures !(selected.Some? && confirmed) ==>
        notesData == old(notesData) && rows == old(rows) && store == old(store)
    {
      if selected.Some? {
        if confirmed {
          var index := selected.value;
          notesData := notesData[..index] + notesData[index + 1..];
          UpdateNoteList();
          SaveNotes();
        }
      }
    }

    /** The note behind a double-clicked row: the very note that row shows. */
    method ShowNoteDetail(row: nat) returns (note: Note)
      requires Valid()
      requires row < |rows|
      ensures note == notesData[row]
      ensures ItemOf(note) == rows[row]
    {
      note := notesData[row];
    }

    /** Recolours the preview swatch from the colour field. */
    method UpdateColorDisplay()
      modifies this`preview
      ensures preview == Preview(colorInput)
    {
      if StartsWith(colorInput, "#") && |colorInput| == 7 {
        preview := colorInput;
      } else {
        preview := White;
      }
    }

    /** The user edits the colour field; the change signal refreshes the
        preview. */
    method SetColorText(text: string)
      requires Valid()
      modifies this`colorInput, this`preview
      ensures Valid()
      ensures colorInput == text && preview == Preview(text)
    {
      colorInput := text;
      UpdateColorDisplay();
    }

    /** The colour-picker button, after the picker process has exited.
        `picked` is the text read from the hand-off file, or None when
        there was no file; a picked text is put into the colour field. */
    method OpenColorPicker(picked: Option<string>)
      requires Valid()
      modifies this`colorInput, this`preview
      ensures Valid()
      ensures picked.Some? ==> colorInput == picked.value
      ensures picked.None? ==> colorInput == old(colorInput) && preview == old(preview)
    {
      if picked.Some? {
        SetColorText(picked.value);
        UpdateColorDisplay();
      }
    }
  }
}
