/** How the three programs meet: the body the page posts is the one the
    service validates, the service echoes the page's selection, and the
    one-row frame it builds has the columns the feature transformers expect.
    The site names the page offers are compared with the encoder's codes. */
module EndToEnd {
  import opened Results
  import opened Frames
  import D = Dashboard
  import B = Backend
  import L = LocationEncoding
  import S = SoundFeatures

  const Zeros: seq<int> := [0, 0, 0, 0, 0, 0, 0, 0, 0]
  const ApexVector: seq<int> := [0, 1, 0, 0, 0, 0, 0, 0, 0]

  /** Every code of the encoder's table has at most four characters. */
  lemma CodesAreShort()
    ensures forall c :: c in L.Mapping ==> |c| <= 4
  {
    L.SameCodes();
    forall c | c in L.Mapping
      ensures |c| <= 4
    {
      assert c in L.Codes;
    }
  }

  /** Of the twelve sites the page offers, only "Apex" is a code of the
      encoder's table: the others are display names such as
      "LC (Left,Carotid)", while the table is keyed by "LC". */
  lemma OnlyApexIsACode()
    ensures forall i :: 0 <= i < |D.ValidLocations| ==> (D.ValidLocations[i] in L.Mapping <==> i == 0)
  {
    CodesAreShort();
    ApexIsACode();
    SiteNamesAreLong();
  }

  lemma ApexIsACode()
    ensures "Apex" in L.Mapping
  {
    L.SameCodes();
    assert L.Codes[0] == "Apex";
  }

  /** Every site name after the first is longer than four characters. */
  lemma SiteNamesAreLong()
    ensures D.ValidLocations[0] == "Apex"
    ensures forall i :: 1 <= i < |D.ValidLocations| ==> |D.ValidLocations[i]| > 4
  {
  }

  /** Every site but "Apex" therefore reaches the model as nine zeros. */
  lemma OtherSitesEncodeToZero(i: nat)
    requires 1 <= i < |D.ValidLocations|
    ensures L.OneHot(Text(D.ValidLocations[i])) == Zeros
  {
    OnlyApexIsACode();
    L.UnknownCodeIsZero(Text(D.ValidLocations[i]));
  }

  /** "Apex" sets exactly the "apex" indicator, the second feature. */
  lemma ApexEncoding()
    ensures L.OneHot(Text("Apex")) == ApexVector
  {
    assert L.TokenSet(Text("Apex")) == {"apex"};
  }

  /** The body the page posts passes the service's validation, which reads
      back the page's three fields. */
  lemma RequestParses(g: D.Gender, location: string, id: string)
    ensures B.ParseFeatures(D.RequestBody(g, location, id))
         == Ok(B.HeartsFeatures(D.GenderValue(g), location, id))
  {
    B.ParseBody(B.HeartsFeatures(D.GenderValue(g), location, id));
    assert D.RequestBody(g, location, id) == B.Body(B.HeartsFeatures(D.GenderValue(g), location, id));
  }

  /** The page's request never fails validation: it is answered with the
      classifier's label and the id the page sent, or with a 500 when the
      classifier raises on the request's frame. */
  lemma PredictEchoesSelection(g: D.Gender, location: string, id: string, classify: Frame -> Option<string>)
    ensures var answer := classify(B.InputFrame(B.HeartsFeatures(D.GenderValue(g), location, id)));
      B.Predict(D.RequestBody(g, location, id), classify)
      == if answer.Some? then Ok(B.PredictResponse(answer.value, id)) else Err(B.ServerError)
  {
    RequestParses(g, location, id);
  }

  /** The request's frame, once its labels are renamed, has its id column
      dropped and the 84 feature columns appended by the sound transformer. */
  lemma SoundColumnsOfRequest(f: B.HeartsFeatures)
    ensures S.TransformColumns(B.InputFrame(f).columns, 1) == Ok(["Gender", "Location"] + S.FeatureSchema())
  {
    var columns := B.InputFrame(f).columns;
    RenamedRequestColumns();
    var renamed := S.Renamed(columns);
    assert Count(renamed, S.IdColumn) == 1;
    assert IndexOf(renamed, S.IdColumn) == 2;
    assert RemoveAt(renamed, 2) == ["Gender", "Location"];
    var r := S.TransformColumns(columns, 1);
    assert r.value == r.value[..2] + r.value[2..];
  }

  /** Renaming leaves "Gender" and "Location" alone and turns the id's alias
      into the column name the sound transformer reads. */
  lemma RenamedRequestColumns()
    ensures S.Renamed(["Gender", "Location", "Heart Sound ID"]) == ["Gender", "Location", S.IdColumn]
  {
    S.HeartSoundIdRenamed();
    assert ' ' !in "Gender" && ' ' !in "Location";
  }

  /** The location transformer on the frame of any request: the
      "Location" column is replaced by the nine features, which encode the
      request's location. */
  lemma {:induction false} RequestFrameEncoding(f: B.HeartsFeatures)
    ensures var X := B.InputFrame(f);
      && L.Transform(L.Default, X).Ok?
      && L.Transform(L.Default, X).value.columns == ["Gender", "Heart Sound ID"] + L.LocationFeatures
      && L.Transform(L.Default, X).value.rows
         == [[Text(f.gender), Text(f.heartSoundId)] + L.AsCells(L.OneHot(Text(f.location)))]
  {
    var X := B.InputFrame(f);
    assert Count(X.columns, "Location") == 1;
    assert IndexOf(X.columns, "Location") == 1;
    assert RemoveAt(X.columns, 1) == ["Gender", "Heart Sound ID"];
    assert RemoveAt(X.rows[0], 1) == [Text(f.gender), Text(f.heartSoundId)];
    var out := L.Transform(L.Default, X).value;
    var row := out.rows[0];
    var cells := L.AsCells(L.OneHot(Text(f.location)));
    forall j | 0 <= j < 9
      ensures row[2..][j] == cells[j]
    {
      L.TransformEncodes(X, 0, j);
    }
    assert |out.columns| == 11 && |out.rows| == 1 && |row| == 11;
    assert row[..2] == RemoveAt(X.rows[0], 1);
    assert row[2..] == cells;
    assert row == row[..2] + row[2..];
    assert out.rows == [row];
  }

  /** For the page's site `i` the nine features are all zero, except
      "apex" for the first site. */
  lemma {:induction false} LocationColumnsOfRequest(g: D.Gender, i: nat, id: string)
    requires i < |D.ValidLocations|
    ensures var X := B.InputFrame(B.HeartsFeatures(D.GenderValue(g), D.ValidLocations[i], id));
      && L.Transform(L.Default, X).Ok?
      && L.Transform(L.Default, X).value.rows
         == [[Text(D.GenderValue(g)), Text(id)] + L.AsCells(if i == 0 then ApexVector else Zeros)]
  {
    RequestFrameEncoding(B.HeartsFeatures(D.GenderValue(g), D.ValidLocations[i], id));
    if i == 0 {
      ApexEncoding();
    } else {
      OtherSitesEncodeToZero(i);
    }
  }
}
