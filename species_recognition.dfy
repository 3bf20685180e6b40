/**
 * The species-recognition service: a classifier's top label is mapped to an
 * Indian wildlife record through an ordered keyword table, with a lazily loaded
 * on-device model and a remote classification service as fallback.
 *
 * The model library, the canvas conversion and the HTTP request are not part of
 * this model; what they produce is passed in as an abstract outcome.
 */
module SpeciesRecognition {
  import opened Outcomes
  import opened Text
  import opened JsMath

  /** The record a keyword maps to. */
  datatype WildlifeInfo = WildlifeInfo(species: string, behavior: string, location: string)

  /** `SpeciesResult`: what a classification returns to the page. */
  datatype SpeciesResult = SpeciesResult(species: string, confidence: int, behavior: string, location: string)

  /** One `(className, probability)` pair of a classifier's output. */
  datatype Prediction = Prediction(className: string, probability: real)

  /** `wildlifeMapping`, in declaration order; the first matching key wins. */
  const WildlifeMapping: seq<(string, WildlifeInfo)> := [
    ("tiger", WildlifeInfo("Bengal Tiger", "Hunting patrol", "Sundarbans National Park")),
    ("elephant", WildlifeInfo("Asian Elephant", "Feeding", "Kaziranga National Park")),
    ("leopard", WildlifeInfo("Snow Leopard", "Territory marking", "Hemis National Park")),
    ("rhinoceros", WildlifeInfo("Indian Rhinoceros", "Grazing", "Kaziranga National Park")),
    ("lion", WildlifeInfo("Asiatic Lion", "Resting", "Gir National Park")),
    ("bear", WildlifeInfo("Sloth Bear", "Foraging", "Daroji Bear Sanctuary")),
    ("deer", WildlifeInfo("Spotted Deer", "Grazing", "Bandhavgarh National Park")),
    ("monkey", WildlifeInfo("Langur", "Social grooming", "Western Ghats")),
    ("bird", WildlifeInfo("Peacock", "Displaying", "Ranthambore National Park")),
    ("snake", WildlifeInfo("King Cobra", "Basking", "Western Ghats"))
  ]

  const ModelLoadFailed := "Failed to load AI model"
  const ClassificationFailed := "Failed to classify image"
  const ApiKeyMissing := "Hugging Face API key not provided"
  const BackupFailed := "Backup classification failed"

  /** Key k of the table is in `name` and no earlier key is. */
  ghost predicate IsFirstMatch(name: string, k: int) {
    0 <= k < |WildlifeMapping|
    && Contains(name, WildlifeMapping[k].0)
    && forall j :: 0 <= j < k ==> !Contains(name, WildlifeMapping[j].0)
  }

  /** No key of the table is in `name`. */
  ghost predicate NoKeyMatches(name: string) {
    forall j :: 0 <= j < |WildlifeMapping| ==> !Contains(name, WildlifeMapping[j].0)
  }

  /** The `for ... of Object.entries(...)` scan from entry `from` on, returning the first hit. */
  function FirstMatchFrom(name: string, from: nat): (r: Option<nat>)
    requires from <= |WildlifeMapping|
    requires forall j :: 0 <= j < from ==> !Contains(name, WildlifeMapping[j].0)
    ensures r.Some? ==> IsFirstMatch(name, r.value)
    ensures r.None? ==> NoKeyMatches(name)
    decreases |WildlifeMapping| - from
  {
    if from == |WildlifeMapping| then None
    else if Contains(name, WildlifeMapping[from].0) then Some(from)
    else FirstMatchFrom(name, from + 1)
  }

  /** The record returned for a label that matched no key. */
  function Unidentified(className: string, confidence: int): SpeciesResult {
    SpeciesResult("Unidentified Species (" + className + ")", confidence,
                  "Unknown behavior", "Location to be determined")
  }

  /** The fallback species name carries the label as given, between the fixed prefix and ")". */
  lemma UnidentifiedKeepsLabel(className: string, confidence: int)
    ensures var r := Unidentified(className, confidence);
            |r.species| == |className| + 23 && r.species[..22] == "Unidentified Species ("
            && r.species[22..|r.species| - 1] == className && r.species[|r.species| - 1] == ')'
  {
    var r := Unidentified(className, confidence);
    assert r.species[..22] == "Unidentified Species (";
    assert r.species[22..|r.species| - 1] == className;
  }

  /**
   * `mapPredictionToWildlife`: the entry of the first key contained in the
   * lower-cased label, or the "Unidentified Species" record carrying the
   * label as given; the confidence is the rounded percentage either way.
   */
  function MapPredictionToWildlife(className: string, confidence: real): (r: SpeciesResult)
    ensures r.confidence == Round(confidence * 100.0)
    ensures forall k :: IsFirstMatch(ToLower(className), k) ==>
              var info := WildlifeMapping[k].1;
              r == SpeciesResult(info.species, r.confidence, info.behavior, info.location)
    ensures NoKeyMatches(ToLower(className)) ==> r == Unidentified(className, r.confidence)
    ensures r.species != ""
  {
    var percent := Round(confidence * 100.0);
    match FirstMatchFrom(ToLower(className), 0)
    case Some(k) =>
      var info := WildlifeMapping[k].1;
      SpeciesResult(info.species, percent, info.behavior, info.location)
    case None =>
      Unidentified(className, percent)
  }

  /** Exactly one of the two branches applies to every label. */
  lemma MatchOrFallback(name: string)
    ensures NoKeyMatches(name) <==> !exists k :: IsFirstMatch(name, k)
  {
    if !NoKeyMatches(name) {
      var r := FirstMatchFrom(name, 0);
      assert IsFirstMatch(name, r.value);
    }
  }

  /** A first match is unique. */
  lemma FirstMatchUnique(name: string, k1: int, k2: int)
    requires IsFirstMatch(name, k1) && IsFirstMatch(name, k2)
    ensures k1 == k2
  {
  }

  /** Whenever the classifier's probability is in [0, 1], the confidence is a percentage. */
  lemma ConfidenceIsPercentage(className: string, p: real)
    requires 0.0 <= p <= 1.0
    ensures 0 <= MapPredictionToWildlife(className, p).confidence <= 100
  {
    RoundedPercentInRange(p);
  }

  /** A label whose lower-casing contains "tiger" maps to the first entry of the table. */
  lemma TigerMatches(className: string, p: real)
    requires Contains(ToLower(className), "tiger")
    ensures MapPredictionToWildlife(className, p)
         == SpeciesResult("Bengal Tiger", Round(p * 100.0), "Hunting patrol", "Sundarbans National Park")
  {
    assert IsFirstMatch(ToLower(className), 0);
  }

  /** "Bengal tiger, Panthera tigris" at 0.978 is a Bengal Tiger at 98%, whatever the case of the label. */
  lemma BengalTigerExample(tiger: string, shout: string, p: real)
    requires tiger == "Bengal tiger, Panthera tigris" && shout == "BENGAL TIGER" && p == 0.978
    ensures MapPredictionToWildlife(tiger, p)
         == SpeciesResult("Bengal Tiger", 98, "Hunting patrol", "Sundarbans National Park")
    ensures MapPredictionToWildlife(shout, p)
         == SpeciesResult("Bengal Tiger", 98, "Hunting patrol", "Sundarbans National Park")
  {
    assert Round(p * 100.0) == 98;
    var lower := ToLower(tiger);
    forall i | 7 <= i < 12
      ensures lower[i] == "tiger"[i - 7]
    {
      assert tiger[i] == "tiger"[i - 7] && !IsUpper(tiger[i]);
    }
    assert lower[7..12] == "tiger";
    assert OccursAt("tiger", lower, 7);
    TigerMatches(tiger, p);
    var quiet := ToLower(shout);
    forall i | 7 <= i < 12
      ensures quiet[i] == "tiger"[i - 7]
    {
      assert shout[i] == "TIGER"[i - 7];
    }
    assert quiet[7..12] == "tiger";
    assert OccursAt("tiger", quiet, 7);
    TigerMatches(shout, p);
  }

  /** "sports car" at 0.55 matches no key and falls back, keeping the label. */
  lemma SportsCarExample(car: string, p: real)
    requires car == "sports car" && p == 0.55
    ensures MapPredictionToWildlife(car, p)
         == SpeciesResult("Unidentified Species (sports car)", 55,
                          "Unknown behavior", "Location to be determined")
  {
    SportsCarMatchesNoKey(car);
    FallbackWhenNoKey(car, p);
    assert Round(p * 100.0) == 55;
    assert "Unidentified Species (" + car + ")" == "Unidentified Species (sports car)";
  }

  /** "sports car" is already lower case and has neither 'e' nor 'i', so no key is in it. */
  lemma SportsCarMatchesNoKey(car: string)
    requires car == "sports car"
    ensures NoKeyMatches(ToLower(car))
  {
    LowerCaseUnchanged(car);
    NoKeyWithoutEOrI(car);
  }

  /** A label already in lower case is its own lower-casing. */
  lemma LowerCaseUnchanged(s: string)
    requires forall i :: 0 <= i < |s| ==> !IsUpper(s[i])
    ensures ToLower(s) == s
  {
  }

  /** Every key but "lion" and "bird" has an 'e', and those two have an 'i'. */
  lemma NoKeyWithoutEOrI(s: string)
    requires 'e' !in s && 'i' !in s
    ensures NoKeyMatches(s)
  {
    MissingCharNotContained(s, "tiger", 'e');
    MissingCharNotContained(s, "elephant", 'e');
    MissingCharNotContained(s, "leopard", 'e');
    MissingCharNotContained(s, "rhinoceros", 'e');
    MissingCharNotContained(s, "lion", 'i');
    MissingCharNotContained(s, "bear", 'e');
    MissingCharNotContained(s, "deer", 'e');
    MissingCharNotContained(s, "monkey", 'e');
    MissingCharNotContained(s, "bird", 'i');
    MissingCharNotContained(s, "snake", 'e');
  }

  /** A label that contains no key, in any case, yields the fallback record. */
  lemma FallbackWhenNoKey(className: string, p: real)
    requires NoKeyMatches(ToLower(className))
    ensures MapPredictionToWildlife(className, p) == Unidentified(className, Round(p * 100.0))
  {
  }

  /** What `classify` on the loaded on-device model produced: a list, or a thrown error. */
  datatype LocalOutcome = LocalThrew | LocalPredictions(predictions: seq<Prediction>)

  /**
   * What the remote request produced: a failure before a response was read
   * (canvas, network or JSON error), or a response with its `ok` flag and
   * its parsed result list.
   */
  datatype RemoteOutcome = RequestFailed | Response(ok: bool, status: int, results: seq<Prediction>)

  /** The handle `mobilenet.load()` resolves to. */
  datatype MobileNet = MobileNet

  /** `AISpeciesRecognitionService`. */
  class AISpeciesRecognitionService {
    var mobileNetModel: Option<MobileNet>
    var isLoading: bool
    var huggingFaceApiKey: string

    /** While a load is in flight no model is present: a load only starts when there is none. */
    ghost predicate Valid()
      reads this
    {
      isLoading ==> mobileNetModel.None?
    }

    constructor ()
      ensures Valid()
      ensures mobileNetModel == None && !isLoading && huggingFaceApiKey == ""
    {
      mobileNetModel := None;
      isLoading := false;
      huggingFaceApiKey := "";
    }

    /**
     * The synchronous part of `loadMobileNetModel`, up to `await mobilenet.load()`:
     * a load starts only when no model is present and none is in flight.
     */
    method BeginLoad() returns (started: bool)
      requires Valid()
      modifies this`isLoading
      ensures Valid()
      ensures started <==> old(mobileNetModel).None? && !old(isLoading)
      ensures isLoading == (old(isLoading) || started)
    {
      if mobileNetModel.Some? || isLoading {
        return false;
      }
      isLoading := true;
      started := true;
    }

    /**
     * The continuation of a started load: `loaded` is what `mobilenet.load()`
     * resolved to, None when it threw. The `finally` clears `isLoading` on
     * both paths; a failed load leaves no model behind, so a later call retries.
     */
    method FinishLoad(loaded: Option<MobileNet>) returns (r: Result<()>)
      requires Valid() && isLoading
      modifies this`isLoading, this`mobileNetModel
      ensures Valid() && !isLoading
      ensures mobileNetModel == loaded
      ensures r == if loaded.Some? then Ok(()) else Err(ModelLoadFailed)
    {
      if loaded.Some? {
        mobileNetModel := loaded;
        r := Ok(());
      } else {
        r := Err(ModelLoadFailed);
      }
      isLoading := false;
    }

    /** `loadMobileNetModel` when no other load overlaps it. */
    method LoadMobileNetModel(loaded: Option<MobileNet>) returns (r: Result<()>)
      requires Valid()
      modifies this`isLoading, this`mobileNetModel
      ensures Valid()
      ensures old(mobileNetModel).Some? || old(isLoading) ==>
                r == Ok(()) && mobileNetModel == old(mobileNetModel) && isLoading == old(isLoading)
      ensures old(mobileNetModel).None? && !old(isLoading) ==>
                !isLoading && mobileNetModel == loaded &&
                r == if loaded.Some? then Ok(()) else Err(ModelLoadFailed)
    {
      var started := BeginLoad();
      if !started {
        return Ok(());
      }
      r := FinishLoad(loaded);
    }

    /** `setHuggingFaceApiKey`. */
    method SetHuggingFaceApiKey(apiKey: string)
      modifies this`huggingFaceApiKey
      ensures huggingFaceApiKey == apiKey
    {
      huggingFaceApiKey := apiKey;
    }

    /**
     * `classifyWithHuggingFace`: an empty key fails before any request;
     * otherwise the first result of an ok, non-empty response is mapped and
     * every other outcome is reported as the backup failure.
     */
    function ClassifyWithHuggingFace(remote: RemoteOutcome): (r: Result<SpeciesResult>)
      reads this
      ensures huggingFaceApiKey == "" ==> r == Err(ApiKeyMissing)
      ensures huggingFaceApiKey != "" ==>
                (r.Ok? <==> remote.Response? && remote.ok && |remote.results| > 0)
      ensures huggingFaceApiKey != "" && r.Err? ==> r.message == BackupFailed
      ensures r.Ok? ==> r.value == MapPredictionToWildlife(remote.results[0].className,
                                                           remote.results[0].probability)
    {
      if huggingFaceApiKey == "" then Err(ApiKeyMissing)
      else match remote
        case RequestFailed => Err(BackupFailed)
        case Response(ok, _, results) =>
          if !ok then Err(BackupFailed)
          else if |results| > 0 then Ok(MapPredictionToWildlife(results[0].className, results[0].probability))
          else Err(BackupFailed)
    }

    /**
     * `classifyImage`: the loaded model's top prediction when there is one;
     * with no model or an empty prediction list, the remote path; every
     * failure, including a throwing local classifier, surfaces as
     * "Failed to classify image".
     */
    function ClassifyImage(local: LocalOutcome, remote: RemoteOutcome): (r: Result<SpeciesResult>)
      reads this
      ensures r.Err? ==> r.message == ClassificationFailed
      ensures mobileNetModel.Some? && local.LocalPredictions? && |local.predictions| > 0 ==>
                r == Ok(MapPredictionToWildlife(local.predictions[0].className,
                                                local.predictions[0].probability))
      ensures mobileNetModel.Some? && local.LocalThrew? ==> r.Err?
      ensures mobileNetModel.None? || (local.LocalPredictions? && |local.predictions| == 0) ==>
                (r.Ok? <==> ClassifyWithHuggingFace(remote).Ok?) &&
                (r.Ok? ==> r.value == ClassifyWithHuggingFace(remote).value)
    {
      if mobileNetModel.Some? && local.LocalThrew? then
        Err(ClassificationFailed)
      else if mobileNetModel.Some? && local.LocalPredictions? && |local.predictions| > 0 then
        Ok(MapPredictionToWildlife(local.predictions[0].className, local.predictions[0].probability))
      else
        match ClassifyWithHuggingFace(remote)
        case Ok(result) => Ok(result)
        case Err(_) => Err(ClassificationFailed)
    }
  }

  /**
   * Two overlapping `loadMobileNetModel` calls start one load between them.
   * The second call returns at once, successfully, while no model is present
   * and before the first load has finished. Once that load has failed, the
   * next call starts a fresh one.
   */
  method OverlappingLoadsStartOnce(loaded: Option<MobileNet>)
    returns (first: bool, second: Result<()>, modelWhenSecondReturns: Option<MobileNet>,
             r: Result<()>, retried: bool)
    ensures first
    ensures second == Ok(()) && modelWhenSecondReturns.None?
    ensures r.Err? <==> loaded.None?
    ensures retried <==> loaded.None?
  {
    var service := new AISpeciesRecognitionService();
    first := service.BeginLoad();
    second := service.LoadMobileNetModel(loaded);
    modelWhenSecondReturns := service.mobileNetModel;
    r := service.FinishLoad(loaded);
    retried := service.BeginLoad();
  }
}
