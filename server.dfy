/** The Flask server's recording session: the module-level flag
    `is_recording` and the sample buffer `audio_data`, the handlers that
    change them, and the prediction run when a recording stops. */
module Server {
  import opened Wrappers
  import Features

  /** `sample_rate`, also the extractor's default `sr`. */
  const SampleRate: nat := 48000
  /** The extractor's default `n_mfcc`. */
  const NMfcc: nat := 40
  /** The server's guard is `len(audio_data) < sr * 1.0`. */
  const MinDuration: real := 1.0

  /** One block of the input stream: one frame per row, one value per channel. */
  type Frame = seq<real>

  /** What the loaded model yields: the decoded emotion label and, when the
      model has `predict_proba`, the probability of each class. */
  datatype Prediction = Prediction(emotion: string, probabilities: Option<map<string, real>>)

  /** A loaded model together with the scaler and label encoder it is used
      with; `None` when one of them raises. */
  type Classifier = seq<real> -> Option<Prediction>

  datatype StartResponse = AlreadyRecording | RecordingStarted

  datatype StopResponse =
    | NotRecording
    | NoAudio
    | PredictionFailed
    | Success(emotion: string, probabilities: Option<map<string, real>>, duration: real)

  datatype StatusResponse = StatusResponse(isRecording: bool, modelsLoaded: bool)

  /** The `status` field of each response. */
  function StartStatus(r: StartResponse): string
  {
    match r
    case AlreadyRecording => "already_recording"
    case RecordingStarted => "recording_started"
  }

  function StopStatus(r: StopResponse): string
  {
    match r
    case NotRecording => "not_recording"
    case NoAudio => "no_audio"
    case PredictionFailed => "prediction_failed"
    case Success(_, _, _) => "success"
  }

  /** The `error` field, present exactly on the two failures after the stop. */
  function StopError(r: StopResponse): (e: Option<string>)
    ensures e.Some? <==> r.NoAudio? || r.PredictionFailed?
  {
    match r
    case NoAudio => Some("No audio data recorded")
    case PredictionFailed => Some("Could not process audio")
    case _ => None
  }

  /** A client can tell every outcome apart by its `status` string alone. */
  lemma StatusesDistinguishOutcomes(a: StartResponse, b: StartResponse, x: StopResponse, y: StopResponse)
    ensures StartStatus(a) == StartStatus(b) ==> a == b
    ensures StopStatus(x) == StopStatus(y) ==> x.Success? == y.Success? && (!x.Success? ==> x == y)
  {
  }

  /** `indata[:, 0]`: the first channel of every frame. */
  function Mono(indata: seq<Frame>): (samples: seq<real>)
    requires forall i :: 0 <= i < |indata| ==> |indata[i]| > 0
    ensures |samples| == |indata|
    ensures forall i :: 0 <= i < |indata| ==> samples[i] == indata[i][0]
  {
    seq(|indata|, i requires 0 <= i < |indata| => indata[i][0])
  }

  /** `predict_emotion`: extract features with the server's defaults, then
      apply `models['best']`; a missing key raises and yields `None` too. */
  function PredictEmotion(audio: seq<real>, models: map<string, Classifier>, lib: Features.Librosa): (r: Option<Prediction>)
    ensures r.Some? ==> "best" in models
    ensures r.Some? ==> Features.Extract(audio, SampleRate, NMfcc, MinDuration, lib).Some?
    ensures r.Some? ==> r == models["best"](Features.Extract(audio, SampleRate, NMfcc, MinDuration, lib).value)
    ensures r.Some? ==> |audio| >= SampleRate
    ensures Features.Extract(audio, SampleRate, NMfcc, MinDuration, lib).Some? && "best" in models ==>
      r == models["best"](Features.Extract(audio, SampleRate, NMfcc, MinDuration, lib).value)
  {
    match Features.Extract(audio, SampleRate, NMfcc, MinDuration, lib)
    case None => None
    case Some(features) =>
      if "best" !in models then None else models["best"](features)
  }

  /** What `stop_recording` answers once the flag is cleared, for the
      buffer it then holds.  Its outcomes are checked in order: an empty
      buffer, a failed prediction, success. */
  function StopOutcome(buffer: seq<real>, models: map<string, Classifier>, lib: Features.Librosa): (r: StopResponse)
    ensures r != NotRecording
    ensures r == NoAudio <==> |buffer| == 0
    ensures 0 < |buffer| < SampleRate ==> r == PredictionFailed
    ensures r.Success? <==> |buffer| > 0 && PredictEmotion(buffer, models, lib).Some?
    ensures r.Success? ==>
      r.emotion == PredictEmotion(buffer, models, lib).value.emotion &&
      r.probabilities == PredictEmotion(buffer, models, lib).value.probabilities
    ensures r.Success? ==> r.duration == (|buffer| as real) / (SampleRate as real) && r.duration >= 1.0
  {
    if |buffer| == 0 then NoAudio
    else match PredictEmotion(buffer, models, lib)
      case None => PredictionFailed
      case Some(p) => Success(p.emotion, p.probabilities, (|buffer| as real) / (SampleRate as real))
  }

  /** The server process: its one recording slot and what `load_models` loaded. */
  class Recorder {
    var recording: bool
    var buffer: seq<real>
    const models: map<string, Classifier>
    const lib: Features.Librosa

    /** Module start-up: not recording, an empty deque, the loaded models. */
    constructor (models: map<string, Classifier>, lib: Features.Librosa)
      ensures !recording && buffer == []
      ensures this.models == models && this.lib == lib
    {
      recording := false;
      buffer := [];
      this.models := models;
      this.lib := lib;
    }

    /** `start_recording`: refuses while recording; otherwise clears the
        buffer and raises the flag. */
    method StartRecording() returns (r: StartResponse)
      modifies this
      ensures old(recording) ==> r == AlreadyRecording && recording && buffer == old(buffer)
      ensures !old(recording) ==> r == RecordingStarted && recording && buffer == []
    {
      if recording {
        return AlreadyRecording;
      }
      buffer := [];
      recording := true;
      r := RecordingStarted;
    }

    /** The stream callback: appends the first channel of `indata` while
        the flag is up, and does nothing otherwise. */
    method AudioCallback(indata: seq<Frame>)
      requires forall i :: 0 <= i < |indata| ==> |indata[i]| > 0
      modifies this
      ensures recording == old(recording)
      ensures buffer == if old(recording) then old(buffer) + Mono(indata) else old(buffer)
    {
      if recording {
        buffer := buffer + Mono(indata);
      }
    }

    /** `stop_recording`: refuses when not recording; otherwise lowers the
        flag and answers from the buffer, which it leaves in place. */
    method StopRecording() returns (r: StopResponse)
      modifies this
      ensures !recording
      ensures buffer == old(buffer)
      ensures !old(recording) ==> r == NotRecording
      ensures old(recording) ==> r == StopOutcome(buffer, models, lib)
    {
      if !recording {
        return NotRecording;
      }
      recording := false;
      if |buffer| == 0 {
        return NoAudio;
      }
      var prediction := PredictEmotion(buffer, models, lib);
      if prediction.None? {
        return PredictionFailed;
      }
      r := Success(prediction.value.emotion, prediction.value.probabilities,
                   (|buffer| as real) / (SampleRate as real));
    }

    /** `get_status`: reads the flag and whether any model was loaded. */
    method GetStatus() returns (s: StatusResponse)
      ensures s.isRecording <==> recording
      ensures s.modelsLoaded <==> |models| > 0
    {
      s := StatusResponse(recording, |models| > 0);
    }
  }

  /** A stop made while recording leaves the slot free, whatever its
      outcome, so the next start succeeds with an empty buffer. */
  method StopThenStart(rec: Recorder) returns (stopped: StopResponse, started: StartResponse)
    requires rec.recording
    modifies rec
    ensures stopped != NotRecording
    ensures started == RecordingStarted && rec.recording && rec.buffer == []
  {
    stopped := rec.StopRecording();
    started := rec.StartRecording();
  }
}
