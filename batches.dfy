/**
 * Integer token batches of shape (batch, time) as the model function receives
 * them in `features['source']` and `features['target']`; id 0 is padding.
 * Two weight-independent transformations of the target batch live here: the
 * teacher-forcing shift that builds the decoder input, and the padding mask
 * that weights the loss.
 */
module Batches {

  type Row = seq<int>
  type Batch = seq<Row>

  /** The padding id; the mask gives it weight 0. */
  const PadId: int := 0

  /** Every row has `width` tokens: the shape (|b|, width) of a tensor. */
  predicate Rectangular(b: Batch, width: nat) {
    forall r :: 0 <= r < |b| ==> |b[r]| == width
  }

  /**
   * Reference definition of teacher forcing at index level: `d` starts with
   * the start symbol and then repeats `row` one position later, for as many
   * positions as `d` has.
   */
  predicate IsShiftOf(d: Row, row: Row, start: int) {
    && |d| == (if |row| == 0 then 1 else |row|)
    && d[0] == start
    && forall i :: 1 <= i < |d| ==> d[i] == row[i - 1]
  }

  /** One row of `concat([fill(start), targets[:, :-1]])`. */
  function ShiftRight(row: Row, start: int): (d: Row)
    ensures IsShiftOf(d, row, start)
  {
    [start] + (if |row| == 0 then [] else row[..|row| - 1])
  }

  /** `_decoder_input_pip(targets, start_symbol)`: every row shifted right by one. */
  function DecoderInput(targets: Batch, start: int): (d: Batch)
    ensures |d| == |targets|
    ensures forall r :: 0 <= r < |d| ==> IsShiftOf(d[r], targets[r], start)
  {
    seq(|targets|, r requires 0 <= r < |targets| => ShiftRight(targets[r], start))
  }

  /** The index-level description determines the row: both directions. */
  lemma ShiftRightIsUnique(d: Row, row: Row, start: int)
    ensures IsShiftOf(d, row, start) <==> d == ShiftRight(row, start)
  {
  }

  /**
   * A rectangular batch stays rectangular: width w >= 1 is kept, and an empty
   * time axis grows to width 1 (the start symbol alone).
   */
  lemma DecoderInputRectangular(targets: Batch, width: nat, start: int)
    requires Rectangular(targets, width)
    ensures Rectangular(DecoderInput(targets, start), if width == 0 then 1 else width)
  {
  }

  /**
   * Only the last token is lost: the shifted row without its start symbol,
   * followed by the dropped token, is the original row.
   */
  lemma ShiftRightDropsOnlyLast(row: Row, start: int)
    requires |row| >= 1
    ensures ShiftRight(row, start)[1..] + [row[|row| - 1]] == row
  {
  }

  /** The worked example: [a, b, c, d] with start symbol s becomes [s, a, b, c]. */
  lemma ShiftRightExample(a: int, b: int, c: int, d: int, s: int)
    ensures ShiftRight([a, b, c, d], s) == [s, a, b, c]
  {
  }

  /** One row of `to_float(not_equal(targets, 0))`, with 1.0/0.0 written as 1/0. */
  function MaskRow(row: Row): (m: Row)
    ensures |m| == |row|
    ensures forall t :: 0 <= t < |m| ==> (m[t] == 1 <==> row[t] != PadId) && (m[t] == 0 <==> row[t] == PadId)
  {
    seq(|row|, t requires 0 <= t < |row| => if row[t] != PadId then 1 else 0)
  }

  /** The loss weights of the whole target batch: same shape, 1 on real tokens, 0 on padding. */
  function PaddingMask(targets: Batch): (m: Batch)
    ensures |m| == |targets|
    ensures forall r :: 0 <= r < |m| ==> |m[r]| == |targets[r]|
    ensures forall r, t :: 0 <= r < |m| && 0 <= t < |m[r]| ==>
              (m[r][t] == 1 <==> targets[r][t] != PadId) && (m[r][t] == 0 <==> targets[r][t] == PadId)
  {
    seq(|targets|, r requires 0 <= r < |targets| => MaskRow(targets[r]))
  }

  lemma PaddingMaskRectangular(targets: Batch, width: nat)
    requires Rectangular(targets, width)
    ensures Rectangular(PaddingMask(targets), width)
  {
  }

  function Sum(row: Row): int {
    if |row| == 0 then 0 else row[0] + Sum(row[1..])
  }

  /** Number of non-padding tokens in a row. */
  function TokenCount(row: Row): (n: nat)
    ensures n <= |row|
  {
    if |row| == 0 then 0 else (if row[0] != PadId then 1 else 0) + TokenCount(row[1..])
  }

  function BatchSum(b: Batch): int {
    if |b| == 0 then 0 else Sum(b[0]) + BatchSum(b[1..])
  }

  function BatchTokenCount(b: Batch): nat {
    if |b| == 0 then 0 else TokenCount(b[0]) + BatchTokenCount(b[1..])
  }

  /** The weights of a row add up to the number of its real tokens. */
  lemma {:induction false} MaskRowWeightIsTokenCount(row: Row)
    ensures Sum(MaskRow(row)) == TokenCount(row)
  {
    if |row| > 0 {
      assert MaskRow(row)[1..] == MaskRow(row[1..]);
      MaskRowWeightIsTokenCount(row[1..]);
    }
  }

  /**
   * The total weight of the mask, which a weighted sequence loss divides by,
   * is the number of non-padding target tokens in the batch.
   */
  lemma {:induction false} MaskWeightIsTokenCount(targets: Batch)
    ensures BatchSum(PaddingMask(targets)) == BatchTokenCount(targets)
  {
    if |targets| > 0 {
      assert PaddingMask(targets)[1..] == PaddingMask(targets[1..]);
      MaskRowWeightIsTokenCount(targets[0]);
      MaskWeightIsTokenCount(targets[1..]);
    }
  }
}
