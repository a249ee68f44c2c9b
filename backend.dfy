/** The decisions of main.py: `get_sounds` (which directory entries are
    offered, under which ids), `listen_boosted_sound` (which file an id
    names, and the 404 when it is absent), the `HeartsFeatures` request model
    with its "Heart Sound ID" alias, and `predict`, which echoes the id next
    to the label. The directory listing, the set of existing paths and the
    classifier are parameters. */
module Backend {
  import opened Results
  import opened Text
  import opened Frames
  import opened Wire

  const SoundDir := "SoundsConcated"
  const Wav := ".wav"

  /** Why a route answers with an HTTP error. */
  datatype HttpError =
    | NotFound(detail: string)         // 404 raised by the route itself
    | Unprocessable(field: string)     // 422 from request validation
    | ServerError                      // 500 from an exception the route does not catch

  /** The 404 detail of `listen_boosted_sound` ("sound file not found"). */
  const NotFoundDetail := "Ses dosyas\U{0131} bulunamad\U{0131}"

  // ------------------------------------------------------------ get_sounds

  /** `[f.replace(".wav", "") for f in listing if f.endswith(".wav")]`. */
  function GetSounds(listing: seq<string>): (ids: seq<string>)
    ensures |ids| <= |listing|
    ensures forall f :: f in listing && EndsWith(f, Wav) ==> ReplaceAll(f, Wav, "") in ids
    ensures forall id :: id in ids ==>
      exists f :: f in listing && EndsWith(f, Wav) && id == ReplaceAll(f, Wav, "")
  {
    if listing == [] then []
    else
      var rest := GetSounds(listing[1..]);
      assert forall f :: f in listing[1..] ==> f in listing;
      if EndsWith(listing[0], Wav) then [ReplaceAll(listing[0], Wav, "")] + rest else rest
  }

  /** The listing order is kept: the ids of two listings one after the
      other are the ids of the first followed by those of the second. */
  lemma {:induction false} GetSoundsAppend(a: seq<string>, b: seq<string>)
    ensures GetSounds(a + b) == GetSounds(a) + GetSounds(b)
  {
    if a == [] {
      assert a + b == b;
    } else {
      assert (a + b)[0] == a[0];
      assert (a + b)[1..] == a[1..] + b;
      GetSoundsAppend(a[1..], b);
    }
  }

  // ----------------------------------------------------------------- listen

  /** `f"{SOUND_DIR}/{sound_id}.wav"`. */
  function ListenPath(id: string): string {
    SoundDir + "/" + id + Wav
  }

  /** The part of `listen_boosted_sound` before the audio is read: the path
      the id names, or 404 when no such file exists. */
  function Listen(id: string, existing: set<string>): (r: Result<string, HttpError>)
    ensures r.Ok? <==> ListenPath(id) in existing
    ensures r.Ok? ==> r.value == ListenPath(id)
    ensures r.Err? ==> r.error == NotFound(NotFoundDetail)
  {
    if ListenPath(id) !in existing then Err(NotFound(NotFoundDetail)) else Ok(ListenPath(id))
  }

  /** ".wav" has no proper prefix that is also a suffix, so an occurrence
      of it in `x + ".wav"` that starts inside `x` lies wholly inside `x`. */
  lemma {:induction false} NoEarlierOccurrence(x: string)
    requires !Contains(x, Wav)
    ensures forall i :: 0 <= i < |x| ==> !OccursAt(x + Wav, Wav, i)
  {
    var s := x + Wav;
    forall i | 0 <= i < |x|
      ensures !OccursAt(s, Wav, i)
    {
      if i + |Wav| <= |x| {
        assert x[i..i + |Wav|] == s[i..i + |Wav|];
        assert !OccursAt(x, Wav, i);
      } else {
        assert s[|x|] == '.';
        assert s[i..i + |Wav|][|x| - i] == s[|x|];
      }
    }
  }

  /** The id of a file `x + ".wav"` whose stem has no ".wav" is `x`, and
      `listen` builds from it the path of that very file. */
  lemma {:induction false} IdRoundTrip(x: string)
    requires !Contains(x, Wav)
    ensures EndsWith(x + Wav, Wav)
    ensures ReplaceAll(x + Wav, Wav, "") == x
    ensures ListenPath(ReplaceAll(x + Wav, Wav, "")) == SoundDir + "/" + (x + Wav)
  {
    assert (x + Wav)[|x|..] == Wav;
    NoEarlierOccurrence(x);
    RemoveTrailingOccurrence(x, Wav);
  }

  /** When every listed entry exists in the directory, every id derived
      from a file with a single ".wav" can be listened to, and `listen`
      opens that file. */
  lemma {:induction false} ListedIdIsListenable(listing: seq<string>, existing: set<string>, x: string)
    requires forall f :: f in listing ==> SoundDir + "/" + f in existing
    requires x + Wav in listing && !Contains(x, Wav)
    ensures x in GetSounds(listing)
    ensures Listen(x, existing) == Ok(SoundDir + "/" + (x + Wav))
  {
    IdRoundTrip(x);
  }

  /** Counterexample to the round trip when ".wav" occurs twice: the files
      "a.wav" and "a.wav.wav" are both offered as "a", and `listen("a")`
      opens "a.wav" for both. */
  lemma CollidingIds()
    ensures GetSounds(["a.wav", "a.wav.wav"]) == ["a", "a"]
    ensures ListenPath("a") != SoundDir + "/" + "a.wav.wav"
  {
    assert ReplaceAll("a.wav", Wav, "") == "a" by { IdRoundTrip("a"); }
    assert ReplaceAll("a.wav.wav", Wav, "") == "a" by {
      var s := "a.wav.wav";
      assert s[..4] != Wav && s[1..][..4] == Wav && s[5..][..4] == Wav;
      assert s[1..][4..] == s[5..] && s[5..][4..] == [];
    }
  }

  /** Removing every ".wav" can create a new one: "..wavwav.wav" is offered
      as ".wav", an id that still contains ".wav". */
  lemma RemovalCanLeaveWav()
    ensures GetSounds(["..wavwav.wav"]) == [".wav"]
    ensures Contains(".wav", Wav)
  {
    RemovalSteps();
    assert EndsWith("..wavwav.wav", Wav);
    assert OccursAt(".wav", Wav, 0);
  }

  /** The removal on "..wavwav.wav", one character or occurrence at a time. */
  lemma RemovalSteps()
    ensures ReplaceAll("..wavwav.wav", Wav, "") == ".wav"
  {
    RemovalMiddle();
    var s := "..wavwav.wav";
    assert s[..4] != Wav && s[1..] == ".wavwav.wav";
  }

  lemma RemovalMiddle()
    ensures ReplaceAll(".wavwav.wav", Wav, "") == "wav"
  {
    RemovalTail();
    var s := ".wavwav.wav";
    assert s == Wav + "wav.wav";
    assert s[..4] == Wav && s[4..] == "wav.wav";
  }

  lemma RemovalTail()
    ensures ReplaceAll("wav.wav", Wav, "") == "wav"
  {
    RemovalLast();
    var s := "wav.wav";
    assert s[..4] != Wav && s[1..] == "av.wav";
    assert s[1..][..4] != Wav && s[1..][1..] == "v.wav";
  }

  lemma RemovalLast()
    ensures ReplaceAll("v.wav", Wav, "") == "v"
  {
    assert ReplaceAll(".wav", Wav, "") == "" by {
      assert ".wav"[..4] == Wav && ".wav"[4..] == "";
    }
    assert "v.wav"[..4] != Wav && "v.wav"[1..] == ".wav";
  }

  // ------------------------------------------------ corrected derivation

  /** The evidently intended id: the name without its ".wav" suffix. */
  function Stem(f: string): (x: string)
    requires EndsWith(f, Wav)
    ensures x + Wav == f
  {
    f[..|f| - |Wav|]
  }

  /** `get_sounds` with the suffix stripped instead of every occurrence removed. */
  function GetSoundsStripped(listing: seq<string>): (ids: seq<string>)
    ensures |ids| <= |listing|
    ensures forall id :: id in ids ==> exists f :: f in listing && EndsWith(f, Wav) && id + Wav == f
  {
    if listing == [] then []
    else
      var rest := GetSoundsStripped(listing[1..]);
      assert forall f :: f in listing[1..] ==> f in listing;
      assert listing[0] in listing;
      if EndsWith(listing[0], Wav) then [Stem(listing[0])] + rest else rest
  }

  /** With stripped ids every offered id can be listened to, whatever the
      file names, and `listen` opens the file the id came from. */
  lemma {:induction false} StrippedIdsAreListenable(listing: seq<string>, existing: set<string>, k: nat)
    requires forall f :: f in listing ==> SoundDir + "/" + f in existing
    requires k < |GetSoundsStripped(listing)|
    ensures exists f :: f in listing && Listen(GetSoundsStripped(listing)[k], existing) == Ok(SoundDir + "/" + f)
  {
    var id := GetSoundsStripped(listing)[k];
    assert id in GetSoundsStripped(listing);
    var f :| f in listing && EndsWith(f, Wav) && id + Wav == f;
    assert ListenPath(id) == SoundDir + "/" + f;
  }

  /** Distinct files get distinct stripped ids. */
  lemma StemInjective(f: string, g: string)
    requires EndsWith(f, Wav) && EndsWith(g, Wav) && Stem(f) == Stem(g)
    ensures f == g
  {
  }

  /** Where every listed stem is free of ".wav", the derivation as written
      and the corrected one offer the same ids. */
  lemma {:induction false} StrippedAgreesOnSingleWav(listing: seq<string>)
    requires forall f :: f in listing && EndsWith(f, Wav) ==> !Contains(Stem(f), Wav)
    ensures GetSoundsStripped(listing) == GetSounds(listing)
  {
    if listing != [] {
      assert forall f :: f in listing[1..] ==> f in listing;
      StrippedAgreesOnSingleWav(listing[1..]);
      var f := listing[0];
      if EndsWith(f, Wav) {
        assert f in listing;
        IdRoundTrip(Stem(f));
      }
    }
  }

  /** No offered id is longer than the file name it was derived from. */
  lemma IdNoLongerThanName(listing: seq<string>, id: string)
    requires id in GetSounds(listing)
    ensures exists f :: f in listing && EndsWith(f, Wav) && id == ReplaceAll(f, Wav, "") && |id| <= |f|
  {
    var f :| f in listing && EndsWith(f, Wav) && id == ReplaceAll(f, Wav, "");
    RemoveAllShortens(f, Wav);
  }

  // ---------------------------------------------------------------- predict

  /** The validated body of `/predict` (`HeartsFeatures`). */
  datatype HeartsFeatures = HeartsFeatures(gender: string, location: string, heartSoundId: string)

  /** Request validation: the three keys are required and must be strings.
      The id is read under its alias "Heart Sound ID" only, since the model
      does not allow population by field name; other keys are ignored. */
  function ParseFeatures(body: JsonObject): (r: Result<HeartsFeatures, HttpError>)
    ensures r.Ok? <==>
      && "Gender" in body && body["Gender"].JString?
      && "Location" in body && body["Location"].JString?
      && "Heart Sound ID" in body && body["Heart Sound ID"].JString?
    ensures r.Ok? ==> r.value == HeartsFeatures(
      body["Gender"].s, body["Location"].s, body["Heart Sound ID"].s)
  {
    if !("Gender" in body && body["Gender"].JString?) then Err(Unprocessable("Gender"))
    else if !("Location" in body && body["Location"].JString?) then Err(Unprocessable("Location"))
    else if !("Heart Sound ID" in body && body["Heart Sound ID"].JString?) then Err(Unprocessable("Heart Sound ID"))
    else Ok(HeartsFeatures(body["Gender"].s, body["Location"].s, body["Heart Sound ID"].s))
  }

  /** The JSON object a client sends for `f`, with the id under its alias. */
  function Body(f: HeartsFeatures): JsonObject {
    map["Gender" := JString(f.gender), "Location" := JString(f.location),
        "Heart Sound ID" := JString(f.heartSoundId)]
  }

  /** Parsing the body written for a request gives that request back. */
  lemma ParseBody(f: HeartsFeatures)
    ensures ParseFeatures(Body(f)) == Ok(f)
  {
  }

  /** A body that names the id by its field name only is rejected. */
  lemma FieldNameIsNotAccepted(gender: string, location: string, id: string)
    ensures ParseFeatures(map["Gender" := JString(gender), "Location" := JString(location),
                              "Heart_Sound_ID" := JString(id)]).Err?
  {
  }

  /** `pd.DataFrame([features.model_dump(by_alias=True)])`: one row, the
      columns in field order, the id column under its alias. */
  function InputFrame(f: HeartsFeatures): (r: Frame)
    ensures Rectangular(r) && |r.rows| == 1
    ensures r.columns == ["Gender", "Location", "Heart Sound ID"]
    ensures forall k :: 0 <= k < 3 ==>
      r.columns[k] in Body(f) && r.rows[0][k] == Text(Body(f)[r.columns[k]].s)
  {
    Frame(["Gender", "Location", "Heart Sound ID"],
          [[Text(f.gender), Text(f.location), Text(f.heartSoundId)]])
  }

  /** What `/predict` returns. */
  datatype PredictResponse = PredictResponse(prediction: string, soundId: string)

  /** `/predict`: validate, classify the one-row frame, and echo the id.
      The pickled pipeline and label decoder are the parameter `classify`;
      `None` stands for an exception they raise, such as the sound
      transformer failing to load a missing `SoundsConcated/<id>.wav`,
      which FastAPI turns into a 500. */
  function Predict(body: JsonObject, classify: Frame -> Option<string>): (r: Result<PredictResponse, HttpError>)
    ensures r.Ok? <==>
      ParseFeatures(body).Ok? && classify(InputFrame(ParseFeatures(body).value)).Some?
    ensures ParseFeatures(body).Err? ==> r == Err(ParseFeatures(body).error)
    ensures ParseFeatures(body).Ok? && classify(InputFrame(ParseFeatures(body).value)).None? ==>
      r == Err(ServerError)
    ensures r.Ok? ==>
      && r.value.soundId == body["Heart Sound ID"].s
      && r.value.prediction == classify(InputFrame(ParseFeatures(body).value)).value
  {
    match ParseFeatures(body)
    case Err(e) => Err(e)
    case Ok(f) =>
      match classify(InputFrame(f))
      case None => Err(ServerError)
      case Some(answer) => Ok(PredictResponse(answer, f.heartSoundId))
  }
}
