/** The dashboard page of the frontend (frontend/app/page.tsx): five pieces
    of component state, the events that overwrite them (the catalog request
    at mount, the three selects, the analyze button and the completion of
    its request), and the pure decisions the page renders from them. The
    network calls are not modelled: their outcomes arrive as events. */
module Dashboard {
  import opened Results
  import opened Text
  import opened Wire

  /** The auscultation sites offered by the location select, in display order. */
  const ValidLocations: seq<string> := [
    "Apex", "LC (Left,Carotid)", "RC (Right,Carotid)", "LUA (Left,Upper,Anterior)",
    "RUA (Right,Upper,Anterior)", "LMA (Left,Mid,Anterior)", "RMA (Right,Mid,Anterior)",
    "LLA (Left,Lower,Anterior)", "RLA (Right,Lower,Anterior)", "LLSB (Left,Lower,Sternal Border)",
    "LUSB (Left,Upper,Sternal Border)", "RUSB (Right,Upper,Sternal Border)"
  ]

  datatype Gender = M | F

  /** The string the gender select stores and the request carries. */
  function GenderValue(g: Gender): string {
    match g
    case M => "M"
    case F => "F"
  }

  datatype Status = Idle | Loading | Success | Error

  /** The `prediction` state: the text of the last result and where the request stands. */
  datatype Prediction = Prediction(result: string, status: Status)

  /** The result stored when the prediction request fails ("an error occurred"). */
  const ErrorMessage := "Hata olu\U{015F}tu"

  /** The alert raised when the catalog cannot be fetched ("could not reach the backend"). */
  const CatalogAlert := "Backend ba\U{011F}lant\U{0131}s\U{0131} kurulamad\U{0131}!"

  /** The JSON body of the prediction request. */
  function RequestBody(gender: Gender, location: string, soundId: string): (body: JsonObject)
    ensures body.Keys == {"Gender", "Location", "Heart Sound ID"}
    ensures forall k :: k in body ==> body[k].JString?
    ensures body["Gender"].s == GenderValue(gender) && body["Location"].s == location
    ensures body["Heart Sound ID"].s == soundId
  {
    map["Gender" := JString(GenderValue(gender)), "Location" := JString(location),
        "Heart Sound ID" := JString(soundId)]
  }

  // ------------------------------------------------------ display rules

  /** The analyze button is disabled while a request is in flight. */
  function ButtonDisabled(p: Prediction): (d: bool)
    ensures d <==> p.status == Loading
    ensures d ==> ReportBody(p) == Blank && ReportTone(p) == Neutral
  {
    p.status == Loading
  }

  /** A result is reported in the favorable colours when it reads "normal"
      in any letter case. */
  predicate IsFavorable(result: string) {
    Lower(result) == "normal"
  }

  /** The colouring of the report card. */
  datatype Tone = Neutral | Favorable | Unfavorable

  /** The card is coloured favorably exactly when it shows "NORMAL",
      unfavorably exactly when it shows any other label, and neutrally when
      it shows no label. */
  function ReportTone(p: Prediction): (t: Tone)
    ensures t == Favorable <==> ReportBody(p) == Label("NORMAL")
    ensures t == Unfavorable <==> ReportBody(p).Label? && ReportBody(p).text != "NORMAL"
    ensures t == Neutral <==> !ReportBody(p).Label?
  {
    FavorableIffShownNormal(p.result);
    if p.status != Success then Neutral
    else if IsFavorable(p.result) then Favorable
    else Unfavorable
  }

  /** What the report card shows below its title. */
  datatype Shown = Placeholder | Label(text: string) | Blank

  function ReportBody(p: Prediction): (r: Shown)
    ensures r == Placeholder <==> p.status == Idle
    ensures r.Label? <==> p.status == Success
    ensures r == Blank <==> p.status == Loading || p.status == Error
    ensures r.Label? ==> r.text == Upper(p.result)
  {
    match p.status
    case Idle => Placeholder
    case Success => Label(Upper(p.result))
    case _ => Blank
  }

  /** `c` lower-cases to the letter `l` exactly when it upper-cases to the
      capital of `l`: both hold for `l` and its capital and nothing else. */
  lemma LetterCase(c: char, l: char)
    requires 'a' <= l <= 'z'
    ensures LowerChar(c) == l <==> UpperChar(c) == UpperChar(l)
  {
  }

  /** The favorable colour and the text "NORMAL" go together: a result is
      favorable exactly when its upper-cased display is "NORMAL". */
  lemma FavorableIffShownNormal(s: string)
    ensures IsFavorable(s) <==> Upper(s) == "NORMAL"
  {
    if |s| == 6 {
      forall i | 0 <= i < 6
        ensures LowerChar(s[i]) == "normal"[i] <==> UpperChar(s[i]) == "NORMAL"[i]
      {
        LetterCase(s[i], "normal"[i]);
      }
      if IsFavorable(s) {
        assert forall i :: 0 <= i < 6 ==> Upper(s)[i] == "NORMAL"[i];
      }
      if Upper(s) == "NORMAL" {
        assert forall i :: 0 <= i < 6 ==> Lower(s)[i] == "normal"[i];
      }
    }
  }

  /** The decision does not depend on letter case: upper- or lower-casing a
      result first gives the same answer. */
  lemma FavorableIgnoresCase(s: string)
    ensures IsFavorable(Upper(s)) <==> IsFavorable(s)
    ensures IsFavorable(Lower(s)) <==> IsFavorable(s)
  {
    LowerOfUpper(s);
    LowerIdempotent(s);
  }

  /** "Normal", "normal" and "NORMAL" are all favorable; other labels and
      the error message are not. */
  lemma FavorableExamples()
    ensures IsFavorable("Normal") && IsFavorable("normal") && IsFavorable("NORMAL")
    ensures !IsFavorable("Murmur") && !IsFavorable("Abnormal") && !IsFavorable(ErrorMessage)
  {
    FavorableIffShownNormal("Normal");
    FavorableIffShownNormal("NORMAL");
    assert Upper("Normal") == "NORMAL";
    assert Lower("normal") == "normal";
  }

  /** The location select offers twelve distinct sites. */
  lemma ValidLocationsDistinct()
    ensures |ValidLocations| == 12
    ensures forall i, j :: 0 <= i < j < |ValidLocations| ==> ValidLocations[i] != ValidLocations[j]
  {
  }

  // --------------------------------------------------------- the page

  /** The component state of the dashboard and the events that change it. */
  class DashboardPage {
    var soundIds: seq<string>
    var selectedId: string
    var gender: Gender
    var location: string
    var prediction: Prediction

    /** The location is one of the offered sites; before the catalog has
        any sound nothing is selected, afterwards a listed sound is. */
    ghost predicate Valid()
      reads this
    {
      && location in ValidLocations
      && (if soundIds == [] then selectedId == "" else selectedId in soundIds)
    }

    /** The state of a freshly mounted page. */
    constructor ()
      ensures Valid()
      ensures soundIds == [] && selectedId == "" && gender == M
      ensures location == ValidLocations[0] == "Apex"
      ensures prediction == Prediction("", Idle)
    {
      soundIds := [];
      selectedId := "";
      gender := M;
      location := ValidLocations[0];
      prediction := Prediction("", Idle);
    }

    /** The catalog request succeeded with `sounds`. It is issued once, at
        mount, so the catalog is still empty. The first sound is selected
        when there is one. */
    method CatalogLoaded(sounds: seq<string>)
      requires Valid() && soundIds == []
      modifies this
      ensures Valid()
      ensures soundIds == sounds
      ensures selectedId == if sounds == [] then old(selectedId) else sounds[0]
      ensures gender == old(gender) && location == old(location) && prediction == old(prediction)
    {
      soundIds := sounds;
      if |sounds| > 0 {
        selectedId := sounds[0];
      }
    }

    /** The catalog request failed: the page raises an alert and keeps its state. */
    method CatalogFailed() returns (alert: string)
      ensures alert == CatalogAlert
    {
      alert := CatalogAlert;
    }

    /** The sound select changed; it offers the catalog's ids only. */
    method SelectSound(id: string)
      requires Valid() && id in soundIds
      modifies this
      ensures Valid()
      ensures selectedId == id
      ensures soundIds == old(soundIds) && gender == old(gender) && location == old(location)
      ensures prediction == old(prediction)
    {
      selectedId := id;
    }

    /** The gender select changed. */
    method SelectGender(g: Gender)
      requires Valid()
      modifies this
      ensures Valid()
      ensures gender == g
      ensures soundIds == old(soundIds) && selectedId == old(selectedId) && location == old(location)
      ensures prediction == old(prediction)
    {
      gender := g;
    }

    /** The location select changed; it offers the valid sites only. */
    method SelectLocation(loc: string)
      requires Valid() && loc in ValidLocations
      modifies this
      ensures Valid()
      ensures location == loc
      ensures soundIds == old(soundIds) && selectedId == old(selectedId) && gender == old(gender)
      ensures prediction == old(prediction)
    {
      location := loc;
    }

    /** The synchronous part of `handleAnalyze`: whatever the previous
        status, the prediction becomes an empty "loading" one, and the body
        is built from the form as it is now. Nothing checks the catalog, so
        with no sounds the id sent is "". */
    method StartAnalyze() returns (body: JsonObject)
      requires Valid()
      modifies this
      ensures Valid()
      ensures prediction == Prediction("", Loading) && ButtonDisabled(prediction)
      ensures body == RequestBody(old(gender), old(location), old(selectedId))
      ensures soundIds == old(soundIds) && selectedId == old(selectedId)
      ensures gender == old(gender) && location == old(location)
    {
      prediction := Prediction("", Loading);
      body := RequestBody(gender, location, selectedId);
    }

    /** A click on the analyze button: ignored while it is disabled,
        otherwise it starts an analysis. So no second request starts while
        one is in flight. */
    method Click() returns (body: Option<JsonObject>)
      requires Valid()
      modifies this
      ensures Valid()
      ensures old(ButtonDisabled(prediction)) ==> body == None && prediction == old(prediction)
      ensures !old(ButtonDisabled(prediction)) ==>
        && body == Some(RequestBody(old(gender), old(location), old(selectedId)))
        && prediction == Prediction("", Loading)
      ensures soundIds == old(soundIds) && selectedId == old(selectedId)
      ensures gender == old(gender) && location == old(location)
    {
      if ButtonDisabled(prediction) {
        body := None;
      } else {
        var b := StartAnalyze();
        body := Some(b);
      }
    }

    /** The request answered with `answer`, which is stored as it came. */
    method AnalyzeSucceeded(answer: string)
      requires Valid() && prediction.status == Loading
      modifies this
      ensures Valid()
      ensures prediction == Prediction(answer, Success)
      ensures soundIds == old(soundIds) && selectedId == old(selectedId)
      ensures gender == old(gender) && location == old(location)
    {
      prediction := Prediction(answer, Success);
    }

    /** The request failed: the fixed error message is stored. */
    method AnalyzeFailed()
      requires Valid() && prediction.status == Loading
      modifies this
      ensures Valid()
      ensures prediction == Prediction(ErrorMessage, Error)
      ensures soundIds == old(soundIds) && selectedId == old(selectedId)
      ensures gender == old(gender) && location == old(location)
    {
      prediction := Prediction(ErrorMessage, Error);
    }
  }
}
