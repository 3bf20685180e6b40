/**
 * The acoustic monitoring panel: a listening switch, the 64-bar spectrum it
 * redraws on every tick, and the newest-first list of at most five sound
 * detections.
 *
 * Each tick's `Math.random()` values are parameters; the detection's
 * timestamp and `Date.now()` id are not modelled.
 */
module AcousticAnalyzer {
  import opened JsMath
  import opened BoundedFeed

  /** One entry of `soundTypes`. */
  datatype SoundProfile = SoundProfile(soundType: string, frequency: string, threat: string, color: string)

  const SoundTypes: seq<SoundProfile> := [
    SoundProfile("Tiger Roar", "50-100 Hz", "Low", "#FF6B35"),
    SoundProfile("Elephant Call", "10-30 Hz", "Low", "#8B5FFF"),
    SoundProfile("Gunshot", "500-2000 Hz", "Critical", "#FF4444"),
    SoundProfile("Chainsaw", "2000-4000 Hz", "High", "#FF8800"),
    SoundProfile("Vehicle Engine", "100-500 Hz", "Medium", "#FFAA00"),
    SoundProfile("Forest Ambience", "20-20000 Hz", "Normal", "#39FF6A")
  ]

  /** A detection: the profile's fields spread into it, plus a confidence. */
  datatype Detection = Detection(profile: SoundProfile, confidence: int)

  /** The number of bars in the spectrum. */
  const Bars := 64

  /** The number of previous detections kept when a new one arrives. */
  const KeepPrevious := 4

  /** The tick's detection threshold: a detection needs a draw above 0.7. */
  predicate Detects(listening: bool, r: real) {
    listening && r > 0.7
  }

  /** A detection the table could have produced, with a confidence of 70 to 99. */
  predicate WellFormed(d: Detection) {
    d.profile in SoundTypes && 70 <= d.confidence <= 99
  }

  /** The detection built from the sound draw and the confidence draw. */
  function NewDetection(soundDraw: real, confidenceDraw: real): (d: Detection)
    requires IsUnit(soundDraw) && IsUnit(confidenceDraw)
    ensures WellFormed(d)
    ensures d.profile == SoundTypes[ScaledIndex(soundDraw, |SoundTypes|)]
  {
    Detection(Pick(SoundTypes, soundDraw), RandomConfidence(confidenceDraw))
  }

  /** `Array.from({ length: 64 }, () => Math.random() * 100)`. */
  function Spectrum(draws: seq<real>): (bars: seq<real>)
    requires |draws| == Bars && forall i :: 0 <= i < |draws| ==> IsUnit(draws[i])
    ensures |bars| == Bars
    ensures forall i :: 0 <= i < Bars ==> bars[i] == draws[i] * 100.0
    ensures forall i :: 0 <= i < Bars ==> 0.0 <= bars[i] < 100.0
  {
    var bars := seq(Bars, i requires 0 <= i < Bars => draws[i] * 100.0);
    assert forall i :: 0 <= i < Bars ==> IsUnit(draws[i]) && bars[i] == draws[i] * 100.0;
    bars
  }

  /** The `AcousticAnalyzer` component's state. */
  class AcousticAnalyzer {
    var isListening: bool
    var audioData: seq<real>
    var detectedSounds: seq<Detection>

    /** At most five detections, each from the table. */
    ghost predicate Valid()
      reads this
    {
      |detectedSounds| <= KeepPrevious + 1
      && forall i :: 0 <= i < |detectedSounds| ==> WellFormed(detectedSounds[i])
    }

    constructor ()
      ensures Valid()
      ensures !isListening && audioData == [] && detectedSounds == []
    {
      isListening := false;
      audioData := [];
      detectedSounds := [];
    }

    /** `startListening`: the switch goes on and the list is emptied. */
    method StartListening()
      modifies this`isListening, this`detectedSounds
      ensures Valid()
      ensures isListening && detectedSounds == []
    {
      isListening := true;
      detectedSounds := [];
    }

    /** `stopListening`: the switch goes off; the detections stay. */
    method StopListening()
      modifies this`isListening
      ensures !isListening
    {
      isListening := false;
    }

    /**
     * One interval tick: the spectrum is replaced with 64 new bars; when
     * listening and the detection draw is above 0.7 a new detection is put
     * first and at most four previous ones are kept, in order.
     */
    method Tick(barDraws: seq<real>, detectDraw: real, soundDraw: real, confidenceDraw: real)
      returns (detected: bool)
      requires Valid()
      requires |barDraws| == Bars && forall i :: 0 <= i < |barDraws| ==> IsUnit(barDraws[i])
      requires IsUnit(detectDraw) && IsUnit(soundDraw) && IsUnit(confidenceDraw)
      modifies this`audioData, this`detectedSounds
      ensures Valid()
      ensures audioData == Spectrum(barDraws)
      ensures detected <==> Detects(isListening, detectDraw)
      ensures detected ==>
                detectedSounds == PrependKeep(NewDetection(soundDraw, confidenceDraw), old(detectedSounds), KeepPrevious)
      ensures !detected ==> detectedSounds == old(detectedSounds)
    {
      audioData := Spectrum(barDraws);
      detected := isListening && detectDraw > 0.7;
      if detected {
        var d := NewDetection(soundDraw, confidenceDraw);
        detectedSounds := PrependKeep(d, detectedSounds, KeepPrevious);
      }
    }
  }

  /** The newest detection is the new one, and the four after it are the previous first four, in order. */
  lemma FeedKeepsNewestFive(d: Detection, prev: seq<Detection>)
    ensures var r := PrependKeep(d, prev, KeepPrevious);
            |r| <= 5 && r[0] == d && r[1..] == prev[..|r| - 1]
  {
    var r := PrependKeep(d, prev, KeepPrevious);
    assert r[1..] == prev[..|r| - 1];
  }
}
