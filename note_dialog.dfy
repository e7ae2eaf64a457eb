/** The dialog in which a new note is assembled: a name field, a colour-code
    field and the list of colour codes added so far. */
module NoteDialog {
  import opened ColorCode

  /** The codes kept from a series of add attempts: those that pass the
      colour-code test, in the order they were entered, duplicates kept. */
  function Accepted(attempts: seq<string>): (kept: seq<string>)
    ensures |kept| <= |attempts|
    ensures forall i :: 0 <= i < |kept| ==> ValidCode(kept[i])
  {
    if attempts == [] then []
    else
      var last := attempts[|attempts| - 1];
      Accepted(attempts[..|attempts| - 1]) + (if ValidCode(last) then [last] else [])
  }

  /** Filtering a series of attempts can be done piecewise. */
  lemma {:induction false} AcceptedAppend(xs: seq<string>, ys: seq<string>)
    ensures Accepted(xs + ys) == Accepted(xs) + Accepted(ys)
    decreases |ys|
  {
    if ys == [] {
      assert xs + ys == xs;
    } else {
      var init := ys[..|ys| - 1];
      assert (xs + ys)[..|xs + ys| - 1] == xs + init;
      AcceptedAppend(xs, init);
    }
  }

  /** Every accepted code keeps all of its occurrences and every rejected
      code is dropped entirely: nothing is deduplicated or invented. */
  lemma {:induction false} AcceptedCount(attempts: seq<string>, code: string)
    ensures multiset(Accepted(attempts))[code]
         == if ValidCode(code) then multiset(attempts)[code] else 0
  {
    if attempts != [] {
      var init := attempts[..|attempts| - 1];
      assert attempts == init + [attempts[|attempts| - 1]];
      AcceptedCount(init, code);
    }
  }

  /** The add-note dialog. `colorBlocks` is the pending colour list; the
      ghost `attempts` records every code the add button was pressed with. */
  class AddNoteDialog {
    var nameInput: string
    var colorInput: string
    var colorBlocks: seq<string>
    ghost var attempts: seq<string>

    /** The pending colour list is exactly the accepted attempts. */
    ghost predicate Valid()
      reads this
    {
      colorBlocks == Accepted(attempts)
    }

    /** A fresh dialog: both fields empty and no colours. */
    constructor ()
      ensures Valid()
      ensures nameInput == "" && colorInput == "" && colorBlocks == [] && attempts == []
    {
      nameInput := "";
      colorInput := "";
      colorBlocks := [];
      attempts := [];
    }

    /** The user types into the name field. */
    method SetNameText(text: string)
      modifies this`nameInput
      ensures nameInput == text
    {
      nameInput := text;
    }

    /** The user types into the colour-code field. */
    method SetColorText(text: string)
      modifies this`colorInput
      ensures colorInput == text
    {
      colorInput := text;
    }

    /** The add button. An accepted code is appended to the end of the
        pending list and the field is cleared; a rejected code leaves both
        as they were, and `added` is false when the warning box is shown. */
    method AddColor() returns (added: bool)
      requires Valid()
      modifies this`colorInput, this`colorBlocks, this`attempts
      ensures Valid()
      ensures attempts == old(attempts) + [old(colorInput)]
      ensures added <==> ValidCode(old(colorInput))
      ensures added ==> colorBlocks == old(colorBlocks) + [old(colorInput)] && colorInput == ""
      ensures !added ==> colorBlocks == old(colorBlocks) && colorInput == old(colorInput)
    {
      var code := colorInput;
      attempts := attempts + [code];
      assert attempts[..|attempts| - 1] == old(attempts);
      if StartsWith(code, "#") && |code| == 7 {
        colorBlocks := colorBlocks + [code];
        colorInput := "";
        added := true;
      } else {
        added := false;
      }
    }

    /** The name text and the pending colour list; every colour in it
        passed the colour-code test. */
    function GetNoteData(): (data: (string, seq<string>))
      reads this
      requires Valid()
      ensures data.0 == nameInput
      ensures data.1 == Accepted(attempts)
      ensures forall i :: 0 <= i < |data.1| ==> ValidCode(data.1[i])
    {
      (nameInput, colorBlocks)
    }
  }
}
