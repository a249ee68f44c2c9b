/** `LocationFeatureExtraction` of extraction.py: the auscultation-site code
    in the `Location` column becomes nine 0/1 indicator columns, one per
    anatomical token. The source does this with a fixed table, pandas
    `Series.map`, `str.get_dummies(sep=",")` and `reindex(fill_value=0)`;
    each step is a function here, and `OneHot` is an independent reference
    definition the pipeline is proved to agree with. */
module LocationEncoding {
  import opened Results
  import opened Text
  import opened Frames

  /** Site code to comma-separated anatomical tokens (`self.mapping`). */
  const Mapping: map<string, string> := map[
    "Apex" := "apex",
    "LC" := "left,carotid",
    "LLSB" := "left,lower,sternal_border",
    "LUSB" := "left,upper,sternal_border",
    "RC" := "right,carotid",
    "RUSB" := "right,upper,sternal_border",
    "LUA" := "left,upper,anterior",
    "RUA" := "right,upper,anterior",
    "LMA" := "left,mid,anterior",
    "RMA" := "right,mid,anterior",
    "LLA" := "left,lower,anterior",
    "RLA" := "right,lower,anterior"
  ]

  /** The output indicator columns, in output order (`self.location_features`). */
  const LocationFeatures: seq<string> :=
    ["anterior", "apex", "carotid", "left", "lower", "mid", "right", "sternal_border", "upper"]

  /** The separator `get_dummies` splits on. */
  const Sep := ','

  /** The transformer's state, as `__init__` leaves it. */
  datatype LocationFeatureExtraction =
    LocationFeatureExtraction(mapping: map<string, string>, locationFeatures: seq<string>)

  const Default := LocationFeatureExtraction(Mapping, LocationFeatures)

  /** `fit` learns nothing: it hands back the transformer it was called on. */
  function Fit(t: LocationFeatureExtraction, X: Frame): (r: LocationFeatureExtraction)
    ensures r == t
  {
    t
  }

  // ------------------------------------------------------ pandas steps

  /** `X["Location"].map(self.mapping)`: a text cell that is a key becomes
      its token string; anything else becomes NaN (`None`). */
  function MapCodes(mapping: map<string, string>, col: seq<Cell>): (m: seq<Option<string>>)
    ensures |m| == |col|
    ensures forall i :: 0 <= i < |col| ==>
      m[i] == if col[i].Text? && col[i].s in mapping then Some(mapping[col[i].s]) else None
  {
    seq(|col|, i requires 0 <= i < |col| =>
      if col[i].Text? && col[i].s in mapping then Some(mapping[col[i].s]) else None)
  }

  /** 1 when `tag` is one of the separated parts of the value, 0 otherwise (NaN: 0). */
  function Indicator(v: Option<string>, tag: string): int {
    if v.Some? && tag in Split(v.value, Sep) then 1 else 0
  }

  /** The column labels `get_dummies` creates: every non-empty part of every value. */
  function Tags(col: seq<Option<string>>): set<string> {
    set i, tag | 0 <= i < |col| && col[i].Some? && tag in Split(col[i].value, Sep) && tag != "" :: tag
  }

  /** `str.get_dummies(sep=",")`, as a map from each created label to its
      column of indicators (the column order is irrelevant: `reindex`
      imposes its own). */
  function GetDummies(col: seq<Option<string>>): (d: map<string, seq<int>>)
    ensures d.Keys == Tags(col)
    ensures forall tag :: tag in d ==> |d[tag]| == |col|
  {
    map tag | tag in Tags(col) :: seq(|col|, i requires 0 <= i < |col| => Indicator(col[i], tag))
  }

  /** `reindex(columns=labels, fill_value=0)`, row by row: a label the map
      has keeps its column, a label it lacks is filled with 0, and labels
      not asked for are dropped. */
  function Reindex(d: map<string, seq<int>>, labels: seq<string>, n: nat): (m: seq<seq<int>>)
    requires forall tag :: tag in d ==> |d[tag]| == n
    ensures |m| == n
    ensures forall i :: 0 <= i < n ==> |m[i]| == |labels|
  {
    seq(n, i requires 0 <= i < n =>
      seq(|labels|, j requires 0 <= j < |labels| =>
        if labels[j] in d then d[labels[j]][i] else 0))
  }

  function AsCells(flags: seq<int>): (cells: seq<Cell>)
    ensures |cells| == |flags|
    ensures forall j :: 0 <= j < |flags| ==> cells[j] == Int(flags[j])
  {
    seq(|flags|, j requires 0 <= j < |flags| => Int(flags[j]))
  }

  /** `transform`: works on a copy of `X`, so `X` itself is a value that
      does not change. Raises when there is no single `Location` column. */
  function Transform(t: LocationFeatureExtraction, X: Frame): (r: Result<Frame, FrameError>)
    requires Rectangular(X)
    ensures Count(X.columns, "Location") == 0 <==> r == Err(MissingColumn("Location"))
    ensures Count(X.columns, "Location") > 1 <==> r == Err(DuplicateColumn("Location"))
    ensures r.Ok? ==>
      var k := IndexOf(X.columns, "Location");
      && Rectangular(r.value)
      && r.value.columns == RemoveAt(X.columns, k) + t.locationFeatures
      && |r.value.rows| == |X.rows|
      && forall i :: 0 <= i < |X.rows| ==>
           r.value.rows[i][..|X.columns| - 1] == RemoveAt(X.rows[i], k)
  {
    var n := Count(X.columns, "Location");
    if n == 0 then Err(MissingColumn("Location"))
    else if n > 1 then Err(DuplicateColumn("Location"))
    else
      var k := IndexOf(X.columns, "Location");
      var codes := MapCodes(t.mapping, Column(X, k));
      var dummies := Reindex(GetDummies(codes), t.locationFeatures, |X.rows|);
      var rows := seq(|X.rows|, i requires 0 <= i < |X.rows| =>
        RemoveAt(X.rows[i], k) + AsCells(dummies[i]));
      var out := Frame(RemoveAt(X.columns, k) + t.locationFeatures, rows);
      assert forall i :: 0 <= i < |X.rows| ==> rows[i][..|X.columns| - 1] == RemoveAt(X.rows[i], k);
      Ok(out)
  }

  // --------------------------------------------------- reference encoding

  /** The anatomical tokens of each site code, as separate strings. */
  const TokenTable: map<string, seq<string>> := map[
    "Apex" := ["apex"],
    "LC" := ["left", "carotid"],
    "LLSB" := ["left", "lower", "sternal_border"],
    "LUSB" := ["left", "upper", "sternal_border"],
    "RC" := ["right", "carotid"],
    "RUSB" := ["right", "upper", "sternal_border"],
    "LUA" := ["left", "upper", "anterior"],
    "RUA" := ["right", "upper", "anterior"],
    "LMA" := ["left", "mid", "anterior"],
    "RMA" := ["right", "mid", "anterior"],
    "LLA" := ["left", "lower", "anterior"],
    "RLA" := ["right", "lower", "anterior"]
  ]

  /** The token set of one `Location` cell: empty for anything that is not a known code. */
  function TokenSet(cell: Cell): set<string> {
    if cell.Text? && cell.s in TokenTable then set t | t in TokenTable[cell.s] else {}
  }

  /** Position `j` is 1 exactly when `labels[j]` is in `tags`. */
  function Indicators(labels: seq<string>, tags: set<string>): (v: seq<int>)
    ensures |v| == |labels|
  {
    seq(|labels|, j requires 0 <= j < |labels| => if labels[j] in tags then 1 else 0)
  }

  /** Reference encoding of one `Location` cell over the nine features. */
  function OneHot(cell: Cell): (v: seq<int>)
    ensures |v| == |LocationFeatures|
  {
    Indicators(LocationFeatures, TokenSet(cell))
  }

  /** Number of 1 entries. */
  function Ones(v: seq<int>): nat {
    if v == [] then 0 else (if v[0] == 1 then 1 else 0) + Ones(v[1..])
  }

  predicate Distinct<T(==)>(s: seq<T>) {
    forall i, j :: 0 <= i < j < |s| ==> s[i] != s[j]
  }

  // ----------------------------------------------------------- lemmas

  lemma JoinTwo(a: string, b: string)
    ensures Join([a, b], Sep) == a + [Sep] + b
  {
    assert [a, b][1..] == [b];
  }

  lemma JoinThree(a: string, b: string, c: string)
    ensures Join([a, b, c], Sep) == a + [Sep] + b + [Sep] + c
  {
    assert [a, b, c][1..] == [b, c];
    JoinTwo(b, c);
    assert a + [Sep] + (b + [Sep] + c) == a + [Sep] + b + [Sep] + c;
  }

  /** What a table entry must satisfy: the raw value is its tokens joined
      with ",", and the tokens are distinct output features free of ",". */
  predicate WellFormedEntry(code: string)
    requires code in Mapping && code in TokenTable
  {
    var tokens := TokenTable[code];
    && Mapping[code] == Join(tokens, Sep)
    && Distinct(tokens)
    && forall k :: 0 <= k < |tokens| ==> tokens[k] in LocationFeatures && Sep !in tokens[k]
  }

  /** No feature name contains the separator. */
  lemma FeaturesHaveNoSep()
    ensures forall k :: 0 <= k < |LocationFeatures| ==> Sep !in LocationFeatures[k]
  {
  }

  /** An entry of two distinct features joined by "," is well formed. */
  lemma TwoTokens(code: string, a: string, b: string)
    requires code in Mapping && code in TokenTable
    requires TokenTable[code] == [a, b] && Mapping[code] == a + [Sep] + b
    requires a in LocationFeatures && b in LocationFeatures && a != b
    ensures WellFormedEntry(code)
  {
    FeaturesHaveNoSep();
    JoinTwo(a, b);
  }

  /** An entry of three distinct features joined by "," is well formed. */
  lemma ThreeTokens(code: string, a: string, b: string, c: string)
    requires code in Mapping && code in TokenTable
    requires TokenTable[code] == [a, b, c] && Mapping[code] == a + [Sep] + b + [Sep] + c
    requires a in LocationFeatures && b in LocationFeatures && c in LocationFeatures
    requires a != b && a != c && b != c
    ensures WellFormedEntry(code)
  {
    FeaturesHaveNoSep();
    JoinThree(a, b, c);
  }

  lemma ApexEntry()
    ensures WellFormedEntry("Apex")
  {
  }

  lemma LcEntry()
    ensures WellFormedEntry("LC")
  {
    TwoTokens("LC", "left", "carotid");
  }

  lemma LlsbEntry()
    ensures WellFormedEntry("LLSB")
  {
    ThreeTokens("LLSB", "left", "lower", "sternal_border");
  }

  lemma LusbEntry()
    ensures WellFormedEntry("LUSB")
  {
    ThreeTokens("LUSB", "left", "upper", "sternal_border");
  }

  lemma RcEntry()
    ensures WellFormedEntry("RC")
  {
    TwoTokens("RC", "right", "carotid");
  }

  lemma RusbEntry()
    ensures WellFormedEntry("RUSB")
  {
    ThreeTokens("RUSB", "right", "upper", "sternal_border");
  }

  lemma LuaEntry()
    ensures WellFormedEntry("LUA")
  {
    ThreeTokens("LUA", "left", "upper", "anterior");
  }

  lemma RuaEntry()
    ensures WellFormedEntry("RUA")
  {
    ThreeTokens("RUA", "right", "upper", "anterior");
  }

  lemma LmaEntry()
    ensures WellFormedEntry("LMA")
  {
    ThreeTokens("LMA", "left", "mid", "anterior");
  }

  lemma RmaEntry()
    ensures WellFormedEntry("RMA")
  {
    ThreeTokens("RMA", "right", "mid", "anterior");
  }

  lemma LlaEntry()
    ensures WellFormedEntry("LLA")
  {
    ThreeTokens("LLA", "left", "lower", "anterior");
  }

  lemma RlaEntry()
    ensures WellFormedEntry("RLA")
  {
    ThreeTokens("RLA", "right", "lower", "anterior");
  }

  /** Both tables have the same twelve codes, and every entry is well formed. */
  lemma {:induction false} EntryIsWellFormed(code: string)
    requires code in Mapping
    ensures code in TokenTable && WellFormedEntry(code)
  {
    if code == "Apex" {
      ApexEntry();
    } else if code == "LC" {
      LcEntry();
    } else if code == "LLSB" {
      LlsbEntry();
    } else if code == "LUSB" {
      LusbEntry();
    } else if code == "RC" {
      RcEntry();
    } else if code == "RUSB" {
      RusbEntry();
    } else if code == "LUA" {
      LuaEntry();
    } else if code == "RUA" {
      RuaEntry();
    } else if code == "LMA" {
      LmaEntry();
    } else if code == "RMA" {
      RmaEntry();
    } else if code == "LLA" {
      LlaEntry();
    } else {
      RlaEntry();
    }
  }

  /** The twelve site codes, in the table's order. */
  const Codes: seq<string> := ["Apex", "LC", "LLSB", "LUSB", "RC", "RUSB", "LUA", "RUA", "LMA", "RMA", "LLA", "RLA"]

  /** Both tables are keyed by exactly the twelve codes. */
  lemma SameCodes()
    ensures Mapping.Keys == TokenTable.Keys == set c | c in Codes
  {
  }

  /** The raw table has twelve entries. */
  lemma {:induction false} TwelveCodes()
    ensures |Mapping| == 12
  {
    SameCodes();
    assert Distinct(Codes);
    DistinctCard(Codes);
  }

  /** Splitting a table value on "," gives exactly its tokens, each of
      which is one of the nine output features. */
  lemma {:induction false} TokensOf(code: string)
    requires code in Mapping
    ensures code in TokenTable && Split(Mapping[code], Sep) == TokenTable[code]
    ensures forall k :: 0 <= k < |TokenTable[code]| ==> TokenTable[code][k] in LocationFeatures
  {
    EntryIsWellFormed(code);
    SplitJoin(TokenTable[code], Sep);
  }

  /** `reindex` over `get_dummies`: the cell for a non-empty label is the
      indicator of that label in the row's value, whether or not
      `get_dummies` created a column for it. */
  lemma {:induction false} DummiesReindexed(col: seq<Option<string>>, labels: seq<string>, i: nat, j: nat)
    requires i < |col| && j < |labels| && labels[j] != ""
    ensures Reindex(GetDummies(col), labels, |col|)[i][j] == Indicator(col[i], labels[j])
  {
    assert Indicator(col[i], labels[j]) == 1 ==> labels[j] in Tags(col);
  }

  /** The transformer's output cell for row `i` and feature `j` is the
      reference one-hot encoding of that row's `Location` cell. */
  lemma {:induction false} TransformEncodes(X: Frame, i: nat, j: nat)
    requires Rectangular(X) && Count(X.columns, "Location") == 1
    requires i < |X.rows| && j < |LocationFeatures|
    ensures Transform(Default, X).Ok?
    ensures Transform(Default, X).value.rows[i][|X.columns| - 1 + j]
         == Int(OneHot(X.rows[i][IndexOf(X.columns, "Location")])[j])
  {
    var k := IndexOf(X.columns, "Location");
    var codes := MapCodes(Mapping, Column(X, k));
    DummiesReindexed(codes, LocationFeatures, i, j);
    var cell := X.rows[i][k];
    SameCodes();
    if cell.Text? && cell.s in Mapping {
      TokensOf(cell.s);
    }
  }

  /** A `Location` value that is not a key of the table yields nine zeros. */
  lemma UnknownCodeIsZero(cell: Cell)
    requires !(cell.Text? && cell.s in Mapping)
    ensures OneHot(cell) == [0, 0, 0, 0, 0, 0, 0, 0, 0]
  {
    SameCodes();
  }

  lemma FeaturesDistinct()
    ensures Distinct(LocationFeatures)
  {
  }

  /** A sequence without repetitions has as many distinct elements as entries. */
  lemma {:induction false} DistinctCard(s: seq<string>)
    requires Distinct(s)
    ensures |set x | x in s| == |s|
  {
    if s != [] {
      DistinctCard(s[1..]);
      var tail := set x | x in s[1..];
      assert (set x | x in s) == {s[0]} + tail;
      assert s[0] !in tail;
    }
  }

  /** Counting the indicators of a set of labels drawn from a list of
      distinct labels gives the size of the set. */
  lemma {:induction false} OnesOfIndicators(labels: seq<string>, tags: set<string>)
    requires Distinct(labels)
    requires forall t :: t in tags ==> t in labels
    ensures Ones(Indicators(labels, tags)) == |tags|
  {
    if labels == [] {
      assert tags == {};
    } else {
      var rest := tags - {labels[0]};
      forall t | t in rest
        ensures t in labels[1..]
      {
        var k :| 0 <= k < |labels| && labels[k] == t;
        assert labels[1..][k - 1] == t;
      }
      OnesOfIndicators(labels[1..], rest);
      assert Indicators(labels, tags)[1..] == Indicators(labels[1..], rest);
    }
  }

  /** A known code sets exactly as many indicators as it has tokens:
      one for "Apex", two for the carotid sites, three for the others. */
  lemma {:induction false} OnesMatchTokens(code: string)
    requires code in Mapping
    ensures Ones(OneHot(Text(code))) == |Split(Mapping[code], Sep)|
  {
    EntryIsWellFormed(code);
    TokensOf(code);
    FeaturesDistinct();
    OnesOfIndicators(LocationFeatures, TokenSet(Text(code)));
    DistinctCard(TokenTable[code]);
  }

  /** "Apex" sets one indicator. */
  lemma ApexSetsOne()
    ensures Ones(OneHot(Text("Apex"))) == 1
  {
    assert "Apex" in Mapping && TokenTable["Apex"] == ["apex"];
    OnesMatchTokens("Apex");
    TokensOf("Apex");
  }

  /** "LLSB" sets three: left, lower and sternal border. */
  lemma LlsbSetsThree()
    ensures Ones(OneHot(Text("LLSB"))) == 3
  {
    assert "LLSB" in Mapping && |TokenTable["LLSB"]| == 3;
    OnesMatchTokens("LLSB");
    TokensOf("LLSB");
  }
}
