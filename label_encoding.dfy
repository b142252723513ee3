/**
 * `extend_y` (tf/lstm_conv2d.py): the binary labels of the sequence model
 * turned into two-slot one-hot rows, `[0, 1]` for label 1 and `[1, 0]` for
 * every other label.
 */
module LabelEncoding {

  /** One slot of the list `temp`: still the label `y.tolist()` put there, or the row that replaced it. */
  datatype Slot = Label(value: int) | Row(row: seq<int>)

  /** The row that replaces a label. */
  function OneHot(lab: int): (r: seq<int>)
    ensures |r| == 2 && r[0] + r[1] == 1 && 0 <= r[0] && 0 <= r[1]
  {
    if lab == 1 then [0, 1] else [1, 0]
  }

  /** `tf.argmax` over a two-slot row: the slot of the larger value (slot 0 on a tie, which one-hot rows never have). */
  function HotSlot(r: seq<int>): nat
    requires |r| == 2
  {
    if r[1] > r[0] then 1 else 0
  }

  /** The rows of `temp` once every slot holds one, as `np.array(temp)` gives them. */
  function RowsOf(slots: seq<Slot>): (rows: seq<seq<int>>)
    requires forall i :: 0 <= i < |slots| ==> slots[i].Row?
    ensures |rows| == |slots| && forall i :: 0 <= i < |slots| ==> rows[i] == slots[i].row
  {
    if slots == [] then [] else RowsOf(slots[..|slots| - 1]) + [slots[|slots| - 1].row]
  }

  /**
   * `extend_y(y)`: copy the labels into a list, overwrite each slot with its
   * one-hot row, return the rows.
   */
  method ExtendY(y: seq<int>) returns (rows: seq<seq<int>>)
    ensures |rows| == |y|
    ensures forall i :: 0 <= i < |y| ==> rows[i] == OneHot(y[i])
  {
    var temp := new Slot[|y|](i requires 0 <= i < |y| => Label(y[i]));
    for i := 0 to |y|
      invariant forall k :: 0 <= k < i ==> temp[k] == Row(OneHot(y[k]))
      invariant forall k :: i <= k < |y| ==> temp[k] == Label(y[k])
    {
      if temp[i].value == 1 {
        temp[i] := Row([0, 1]);
      } else {
        temp[i] := Row([1, 0]);
      }
    }
    rows := RowsOf(temp[..]);
  }

  /** Row `i` is `[0, 1]` exactly when label `i` is 1, and `[1, 0]` exactly when it is not. */
  lemma OneHotCases(lab: int)
    ensures OneHot(lab) == [0, 1] <==> lab == 1
    ensures OneHot(lab) == [1, 0] <==> lab != 1
  {
    if lab == 1 {
      assert OneHot(lab)[0] == 0;
    } else {
      assert OneHot(lab)[0] == 1;
    }
  }

  /** Reading the hot slot back gives 1 for label 1 and 0 otherwise: the encoding loses only which non-1 label it was. */
  lemma HotSlotOfOneHot(lab: int)
    ensures HotSlot(OneHot(lab)) == if lab == 1 then 1 else 0
  {
  }
}
