/** The column shape of `SoundFeatureExtraction.transform` in extraction.py.
    The feature values come from audio analysis and are not modelled; what
    is modelled is which columns come out, in which order and under which
    names: labels get spaces replaced by underscores, the sound-id column is
    dropped, and one column per feature key is appended. */
module SoundFeatures {
  import opened Results
  import opened Text
  import opened Frames

  /** The id column after renaming, the one the loop reads and `drop` removes. */
  const IdColumn := "Heart_Sound_ID"

  /** `n_mfcc=20`: the number of MFCC coefficients, and of loop iterations. */
  const NMfcc: nat := 20

  // ----------------------------------------------------------- renaming

  /** One label with every space turned into an underscore. */
  function Underscored(col: string): (r: string)
    ensures |r| == |col|
    ensures forall i :: 0 <= i < |col| ==> r[i] == if col[i] == ' ' then '_' else col[i]
    ensures r == col <==> ' ' !in col
  {
    seq(|col|, i requires 0 <= i < |col| => if col[i] == ' ' then '_' else col[i])
  }

  /** `Underscored` is what `X.columns.str.replace(" ", "_")` does to each label. */
  lemma UnderscoredIsReplace(col: string)
    ensures Underscored(col) == ReplaceAll(col, [' '], ['_'])
  {
    ReplaceCharPointwise(col, ' ', '_');
  }

  /** The renamed column labels, in their original order. */
  function Renamed(columns: seq<string>): (r: seq<string>)
    ensures |r| == |columns|
    ensures forall k :: 0 <= k < |columns| ==> r[k] == Underscored(columns[k])
  {
    seq(|columns|, k requires 0 <= k < |columns| => Underscored(columns[k]))
  }

  /** No renamed label contains a space. */
  lemma NoSpaceAfterRename(col: string)
    ensures ' ' !in Underscored(col)
  {
  }

  /** The JSON key "Heart Sound ID" becomes the column the loop reads. */
  lemma HeartSoundIdRenamed()
    ensures Underscored("Heart Sound ID") == IdColumn
  {
    var r := Underscored("Heart Sound ID");
    assert forall i :: 0 <= i < |r| ==> r[i] == IdColumn[i];
  }

  // -------------------------------------------------------- feature keys

  /** One key of the per-sound `features` dict. */
  datatype FeatureKey =
    | ZcrMean | ZcrStd | CentroidMean | CentroidStd
    | MfccMean(i: nat) | MfccStd(i: nat) | DeltaMean(i: nat) | Delta2Mean(i: nat)

  /** The dict key as the source spells it ("spactral" included). */
  function Name(k: FeatureKey): string {
    match k
    case ZcrMean => "zcr_mean"
    case ZcrStd => "zcr_std"
    case CentroidMean => "spactral_centroid_mean"
    case CentroidStd => "spactral_centroid_std"
    case MfccMean(i) => "mfcc_mean_" + Decimal(i)
    case MfccStd(i) => "mfcc_std_" + Decimal(i)
    case DeltaMean(i) => "delta_mean_" + Decimal(i)
    case Delta2Mean(i) => "delta2_mean_" + Decimal(i)
  }

  const FixedKeys: seq<FeatureKey> := [ZcrMean, ZcrStd, CentroidMean, CentroidStd]

  /** The four keys one iteration of `for i in range(20)` adds. */
  function IndexKeys(i: nat): seq<FeatureKey> {
    [MfccMean(i), MfccStd(i), DeltaMean(i), Delta2Mean(i)]
  }

  /** The keys of the dict after `n` iterations of the inner loop. */
  function KeysUpTo(n: nat): seq<FeatureKey> {
    if n == 0 then FixedKeys else KeysUpTo(n - 1) + IndexKeys(n - 1)
  }

  function Names(keys: seq<FeatureKey>): (r: seq<string>)
    ensures |r| == |keys|
    ensures forall j :: 0 <= j < |keys| ==> r[j] == Name(keys[j])
  {
    seq(|keys|, j requires 0 <= j < |keys| => Name(keys[j]))
  }

  /** The keys of one row's `features` dict, in insertion order. */
  function FeatureSchema(): seq<string> {
    Names(KeysUpTo(NMfcc))
  }

  /** The dict is built key by key: the four fixed statistics, then four
      keys per MFCC index. */
  method FeatureKeys() returns (keys: seq<string>)
    ensures keys == FeatureSchema()
  {
    keys := ["zcr_mean", "zcr_std", "spactral_centroid_mean", "spactral_centroid_std"];
    for i := 0 to NMfcc
      invariant keys == Names(KeysUpTo(i))
    {
      keys := keys + ["mfcc_mean_" + Decimal(i), "mfcc_std_" + Decimal(i),
                      "delta_mean_" + Decimal(i), "delta2_mean_" + Decimal(i)];
      assert Names(KeysUpTo(i + 1)) == Names(KeysUpTo(i)) + Names(IndexKeys(i));
    }
  }

  // ----------------------------------------------------- schema lemmas

  /** The keys that carry an MFCC index. */
  predicate Indexed(k: FeatureKey) {
    k.MfccMean? || k.MfccStd? || k.DeltaMean? || k.Delta2Mean?
  }

  /** The name of an indexed key without its index. */
  function Prefix(k: FeatureKey): (p: string)
    requires Indexed(k)
    ensures |p| >= 9 && Name(k) == p + Decimal(k.i)
  {
    match k
    case MfccMean(_) => "mfcc_mean_"
    case MfccStd(_) => "mfcc_std_"
    case DeltaMean(_) => "delta_mean_"
    case Delta2Mean(_) => "delta2_mean_"
  }

  /** The first and sixth characters of a prefix tell the four families apart. */
  lemma PrefixKind(a: FeatureKey, b: FeatureKey)
    requires Indexed(a) && Indexed(b)
    requires Prefix(a)[0] == Prefix(b)[0] && Prefix(a)[5] == Prefix(b)[5]
    ensures Prefix(a) == Prefix(b)
    ensures a.i == b.i ==> a == b
  {
  }

  /** A fixed name starts with 'z' or 's', an indexed one with 'm' or 'd'. */
  lemma FixedIsNotIndexed(a: FeatureKey, b: FeatureKey)
    requires !Indexed(a) && Indexed(b)
    ensures Name(a) != Name(b)
  {
    assert Name(b)[0] == Prefix(b)[0];
  }

  /** Different keys have different names. */
  lemma {:induction false} NameInjective(a: FeatureKey, b: FeatureKey)
    requires Name(a) == Name(b)
    ensures a == b
  {
    if Indexed(a) && Indexed(b) {
      var n, pa, pb := Name(a), Prefix(a), Prefix(b);
      assert n[0] == pa[0] == pb[0] && n[5] == pa[5] == pb[5];
      PrefixKind(a, b);
      assert n[|pa|..] == Decimal(a.i);
      assert n[|pb|..] == Decimal(b.i);
      DecimalInjective(a.i, b.i);
    } else if Indexed(a) {
      FixedIsNotIndexed(b, a);
    } else if Indexed(b) {
      FixedIsNotIndexed(a, b);
    }
  }

  /** Every key added in the first `n` iterations has index below `n`. */
  predicate IndexBelow(k: FeatureKey, n: nat) {
    Indexed(k) ==> k.i < n
  }

  lemma {:induction false} KeysUpToShape(n: nat)
    ensures |KeysUpTo(n)| == 4 + 4 * n
    ensures forall j :: 0 <= j < |KeysUpTo(n)| ==> IndexBelow(KeysUpTo(n)[j], n)
    ensures forall j, l :: 0 <= j < l < |KeysUpTo(n)| ==> KeysUpTo(n)[j] != KeysUpTo(n)[l]
  {
    if n > 0 {
      KeysUpToShape(n - 1);
    }
  }

  /** The schema has 84 pairwise distinct names: 4 fixed plus 4 for each
      of the 20 MFCC indices. */
  lemma {:induction false} SchemaShape()
    ensures |FeatureSchema()| == 84
    ensures forall j, l :: 0 <= j < l < 84 ==> FeatureSchema()[j] != FeatureSchema()[l]
  {
    var keys := KeysUpTo(NMfcc);
    KeysUpToShape(NMfcc);
    forall j, l | 0 <= j < l < 84
      ensures FeatureSchema()[j] != FeatureSchema()[l]
    {
      if Name(keys[j]) == Name(keys[l]) {
        NameInjective(keys[j], keys[l]);
      }
    }
  }

  // ------------------------------------------------------ column shape

  /** The output columns of `transform` for input columns `columns` and
      `rowCount` rows. With no rows the loop never runs, `sound_features`
      stays empty and `pd.DataFrame([])` contributes no columns. */
  function TransformColumns(columns: seq<string>, rowCount: nat): (r: Result<seq<string>, FrameError>)
    ensures Count(Renamed(columns), IdColumn) == 0 <==> r == Err(MissingColumn(IdColumn))
    ensures Count(Renamed(columns), IdColumn) > 1 <==> r == Err(DuplicateColumn(IdColumn))
    ensures r.Ok? ==>
      && |r.value| == |columns| - 1 + (if rowCount == 0 then 0 else 84)
      && IdColumn !in r.value[..|columns| - 1]
      && r.value[..|columns| - 1] == RemoveAt(Renamed(columns), IndexOf(Renamed(columns), IdColumn))
      && r.value[|columns| - 1..] == if rowCount == 0 then [] else FeatureSchema()
  {
    var renamed := Renamed(columns);
    var n := Count(renamed, IdColumn);
    if n == 0 then Err(MissingColumn(IdColumn))
    else if n > 1 then Err(DuplicateColumn(IdColumn))
    else
      var k := IndexOf(renamed, IdColumn);
      CountOne(renamed, IdColumn);
      SchemaShape();
      var kept := RemoveAt(renamed, k);
      assert kept == renamed[..k] + renamed[k + 1..];
      Ok(kept + if rowCount == 0 then [] else FeatureSchema())
  }
}
