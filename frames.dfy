/** The part of a pandas DataFrame the feature transformers depend on: an
    ordered list of column labels and, per row, one cell per column. The
    row index is the default 0..n-1, so `concat(axis=1)` pairs rows by
    position. */
module Frames {

  /** A cell: text (ids, codes, gender) or an integer (0/1 indicators). */
  datatype Cell = Text(s: string) | Int(n: int)

  datatype Frame = Frame(columns: seq<string>, rows: seq<seq<Cell>>)

  /** Why a transformer raises instead of returning a frame. */
  datatype FrameError =
    | MissingColumn(name: string)      // `X[name]` raises KeyError
    | DuplicateColumn(name: string)    // `X[name]` selects several columns

  /** Every row has one cell per column. */
  predicate Rectangular(f: Frame) {
    forall k :: 0 <= k < |f.rows| ==> |f.rows[k]| == |f.columns|
  }

  /** Number of columns carrying the label `name`. */
  function Count(labels: seq<string>, name: string): (n: nat)
    ensures n <= |labels|
    ensures n == 0 <==> name !in labels
  {
    if labels == [] then 0
    else (if labels[0] == name then 1 else 0) + Count(labels[1..], name)
  }

  /** Position of the first column labelled `name`. */
  function IndexOf(labels: seq<string>, name: string): (k: nat)
    requires name in labels
    ensures k < |labels| && labels[k] == name && name !in labels[..k]
  {
    if labels[0] == name then 0 else 1 + IndexOf(labels[1..], name)
  }

  /** A label that occurs once occurs nowhere else. */
  lemma {:induction false} CountOne(labels: seq<string>, name: string)
    requires Count(labels, name) == 1
    ensures name !in labels[..IndexOf(labels, name)]
    ensures name !in labels[IndexOf(labels, name) + 1..]
  {
    if labels[0] != name {
      CountOne(labels[1..], name);
      var k := IndexOf(labels[1..], name);
      assert labels[1..][k + 1..] == labels[k + 2..];
    }
  }

  /** The sequence without its element at position `k` (`drop` of one column). */
  function RemoveAt<T>(s: seq<T>, k: nat): (r: seq<T>)
    requires k < |s|
    ensures |r| == |s| - 1
    ensures forall j :: 0 <= j < k ==> r[j] == s[j]
    ensures forall j :: k <= j < |r| ==> r[j] == s[j + 1]
  {
    s[..k] + s[k + 1..]
  }

  /** The cells of column `k`, top to bottom. */
  function Column(f: Frame, k: nat): (col: seq<Cell>)
    requires Rectangular(f) && k < |f.columns|
    ensures |col| == |f.rows|
    ensures forall i :: 0 <= i < |f.rows| ==> col[i] == f.rows[i][k]
  {
    seq(|f.rows|, i requires 0 <= i < |f.rows| => f.rows[i][k])
  }
}
