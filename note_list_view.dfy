/** One row of the note list: the note's name with its colour count, a
    swatch for each of its first five colours, and an ellipsis when some
    colours are not shown. */
module NoteListView {

  /** The most swatches a row shows. */
  const MaxSwatches: nat := 5

  /** What a row displays. The label is kept as its two parts (the name and
      the colour count) rather than as formatted text. */
  datatype NoteListItem = NoteListItem(name: string, colorCount: nat, swatches: seq<string>, ellipsis: bool)

  function Min(a: nat, b: nat): (m: nat) {
    if a <= b then a else b
  }

  /** The row for a note with this name and these colours. */
  function Summary(name: string, colors: seq<string>): (item: NoteListItem)
    ensures item.name == name && item.colorCount == |colors|
    ensures |item.swatches| == Min(MaxSwatches, |colors|)
    ensures forall i :: 0 <= i < |item.swatches| ==> item.swatches[i] == colors[i]
    ensures item.ellipsis <==> |colors| > MaxSwatches
  {
    var shown := Min(MaxSwatches, |colors|);
    NoteListItem(name, |colors|, colors[..shown], |colors| > MaxSwatches)
  }

  /** The ellipsis appears exactly when some colour has no swatch, and the
      swatches together with the hidden colours are all the colours. */
  lemma SummaryEllipsisMeansHidden(name: string, colors: seq<string>)
    ensures var item := Summary(name, colors);
      && (item.ellipsis <==> |item.swatches| < |colors|)
      && item.swatches + colors[|item.swatches|..] == colors
  {
  }

  /** Builds a row widget by widget: one swatch per colour among the first
      five, in order, then the ellipsis when there are more. */
  method NewNoteListItem(noteName: string, colors: seq<string>) returns (item: NoteListItem)
    ensures item == Summary(noteName, colors)
  {
    var shown := colors[..Min(MaxSwatches, |colors|)];
    var swatches: seq<string> := [];
    for k := 0 to |shown|
      invariant swatches == shown[..k]
    {
      swatches := swatches + [shown[k]];
    }
    item := NoteListItem(noteName, |colors|, swatches, |colors| > MaxSwatches);
  }
}
