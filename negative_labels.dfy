/**
 * Which group a row lands in when its label is negative. PreprocessorSimple looks the group up
 * by Python list indexing, which accepts indices from `-numClass` up to `numClass - 1` and
 * counts negative ones from the end; the rest of this model files rows with `Classify`,
 * which rejects every label outside `[0, numClass)`.
 */
module NegativeLabels {
  import opened Wrappers
  import opened Tensors
  import opened Preprocessing
  import opened SplitProperties

  /** The group Python's `groups[label]` selects: negative labels count from the end and
      anything beyond `numClass` either way is an `IndexError`. */
  function SlotAsWritten<T>(row: seq<T>, numClass: nat, parse: T -> Option<int>): (r: Result<nat, RowFault>)
    ensures r.Ok? ==> |row| > 0 && parse(row[|row| - 1]).Some? && r.value < numClass
    ensures r.Ok? ==> r.value as int == parse(row[|row| - 1]).value % numClass
    ensures r.Ok? <==> (|row| > 0 && parse(row[|row| - 1]).Some?
      && -(numClass as int) <= parse(row[|row| - 1]).value < numClass)
  {
    if |row| == 0 then Err(MissingLabel)
    else match parse(row[|row| - 1])
      case None => Err(LabelNotInteger)
      case Some(index) =>
        if 0 <= index < numClass then Ok(index as nat)
        else if -(numClass as int) <= index < 0 then Ok((index + numClass) as nat)
        else Err(ClassIndexOutOfRange(index))
  }

  /** A row labelled -1 is filed, as written, with the last class, and its one-hot label
      names no class at all; `Classify` rejects it instead. */
  lemma NegativeLabelMisfiled(numClass: nat)
    requires numClass > 0
    ensures SlotAsWritten([7, -1], numClass, ParseInt) == Ok(numClass - 1)
    ensures Classify([7, -1], numClass, ParseInt) == Err(ClassIndexOutOfRange(-1))
    ensures RowSum(UnitRow(-1, numClass)) == 0 && HotIndex(UnitRow(-1, numClass)).None?
    ensures UnitRow(-1, numClass) != UnitRow(numClass - 1, numClass)
  {
    UnitRowIsOneHot(-1, numClass);
    UnitRowIsOneHot(numClass - 1, numClass);
  }

  /** Both lookups agree on every row `Classify` accepts, whose one-hot label then names
      exactly its own group; they disagree only on negative labels. */
  lemma ClassifyCorrectsSlot<T>(row: seq<T>, numClass: nat, parse: T -> Option<int>)
    ensures Classify(row, numClass, parse).Ok? ==> SlotAsWritten(row, numClass, parse) == Classify(row, numClass, parse)
    ensures Classify(row, numClass, parse).Ok? ==>
      HotIndex(UnitRow(parse(row[|row| - 1]).value, numClass)) == Some(Classify(row, numClass, parse).value)
    ensures (SlotAsWritten(row, numClass, parse).Ok? && Classify(row, numClass, parse).Err?) ==>
      parse(row[|row| - 1]).value < 0
  {
    if Classify(row, numClass, parse).Ok? {
      UnitRowIsOneHot(parse(row[|row| - 1]).value, numClass);
    }
  }
}
