# Speech emotion recognition: recording session, features, dataset labelling, model selection

This project is a Dafny model of the speech-emotion-recognition backend's core, with proofs about it. It covers two programs:

- **The Flask server** (`backend/app.py`). One recording slot is held in a flag (`is_recording`) and a sample buffer (`audio_data`). `start_recording` clears the buffer and raises the flag. While the flag is up, the audio stream's callback appends the first channel of each block. `stop_recording` lowers the flag and turns the buffer into a response: `not_recording`, `no_audio`, `prediction_failed` or `success`. On success it reports the emotion, the class probabilities and the duration `len / 48000`. `get_status` reads the flag and whether any model was loaded.
- **The training script** (`backend/save_models.py`). `build_ravdess_dataset` walks the RAVDESS files. For each `.wav` file it takes the emotion code from the third dash-separated field of the name. It keeps the file's features and label, or counts the file as skipped. `train_and_save_models` refuses an empty dataset. Otherwise it trains four classifiers in a fixed order and keeps the first one with the highest test accuracy. A later model replaces it only with a strictly greater accuracy, and nothing is kept when no accuracy exceeds 0.

Each program defines its own `extract_features` (backend/app.py:52, backend/save_models.py:21), and the two copies have the same body once the training copy has loaded the file with `librosa.load` (backend/save_models.py:24), apart from the messages the training copy prints at each rejection. It has a minimum-duration guard (1.0 s at 48000 Hz) and an RMS-energy gate (mean at least 0.005, peak at most 0.95). It builds a fixed-order stack of (mean, standard deviation) pairs over the matrices that librosa computes.

Modules:

- `Wrappers` (`wrappers.dfy`): `Option` and `Result`.
- `Features` (`features.dfy`): the one extractor that models both copies. The librosa calls are opaque fields of the datatype `Librosa`:
  - `rms`;
  - `analyze`, covering every other call, with `None` when one of them raises;
  - `sqrt`, the square root inside `np.std`.
  
  The duration guard, the RMS thresholds, the means, the variances and the stacking order are written out.
- `Server` (`server.dfy`): the class `Recorder`. It has the fields `recording` and `buffer`, plus the loaded `models` and the library as constants. It also holds `PredictEmotion`, and `StopOutcome`, the pure function that specifies what a stop answers.
- `Ravdess` (`ravdess.dfy`):
  - `str.split`, `str.endswith` and `os.path.join`;
  - the emotion-code table;
  - the per-file decision in `Classify`;
  - the loop `BuildDataset`, proved against the specification function `Tallied`.
- `Training` (`training.dfy`): the reference function `Best` (first strict maximum), the loop `SelectBest` proved against it, and `TrainAndSave`.

Facts about the code that the model keeps:

- Prediction uses only `models['best']` (backend/app.py:118).
- The minimum length is `sr * 1.0` samples, that is 1.0 s at 48000 Hz (backend/app.py:24, 55).
- The session state is the flag `is_recording` and the sample buffer `audio_data` (backend/app.py:21-22). The flag is the only status; there is no separate processing state.
- The reported duration is `len(audio_array) / sample_rate` (backend/app.py:198).
- The RMS gate rejects a buffer whose mean RMS is below 0.005, so silence yields no vector (backend/app.py:60-61).
- Only `start_recording` clears the buffer (backend/app.py:155). A stop leaves it in place.

## Model

| member | source | states |
|---|---|---|
| Features.Max | backend/app.py:60 | `np.max` of a non-empty sequence bounds every element and is one of them |
| Features.Whole | backend/app.py:88-95 | the two values are the mean and the standard deviation over every element of the matrix; for a one-row matrix, the (1, t) shape librosa returns at backend/app.py:69-72 and 80, they are that row's mean and standard deviation |
| Features.MeanBounds | backend/app.py:85-96 | `np.mean` of a non-empty sequence lies between its smallest and largest element, and is the constant itself for a constant sequence |
| Features.VarianceBounds | backend/app.py:85-96 | the variance under `np.std` is never negative, and is 0 for a constant sequence |
| Features.LongEnough | backend/app.py:55 | the duration guard; with the 1.0 s minimum it passes exactly when the buffer has at least `sr` samples (the training copy is backend/save_models.py:25) |
| Features.RmsAcceptable | backend/app.py:59-61 | the RMS gate fails when there are no RMS frames, and for a buffer whose every frame is below 0.005 (silence); when it passes, the mean RMS is at least 0.005 and no frame exceeds 0.95; a buffer whose every frame lies between 0.005 and 0.95 passes |
| Features.Stack | backend/app.py:84-97 | the stacked vector has 2 × (rows of the six per-row matrices) + 12 entries; the frame count plays no part |
| Features.Extract | backend/app.py:52-104 | `None` for a buffer shorter than `minDuration × sr` samples, for an RMS gate failure, for a raising library call, and for a statistic over no values; otherwise, when all of these pass, exactly `Some` of the stack of the library's analysis (the training copy, backend/save_models.py:21-77, has the same body after loading the file, apart from its printed messages) |
| Features.ExtractLength | backend/app.py:84-97 | with librosa's row counts, every extracted vector has `6·n_mfcc + 12 + 2·(12 + 7 + 6)` entries |
| Features.LengthIndependentOfDuration | backend/app.py:63-97 | any two successful extractions, from buffers of any two lengths, give vectors of equal length |
| Features.StackStartsWithMfcc | backend/app.py:85 | the vector opens with the MFCC row means, followed by the MFCC row standard deviations |
| Features.StackEndsWithPitch | backend/app.py:96 | the last two entries are the mean and the standard deviation of the pitch track |
| Server.StopError | backend/app.py:179-187 | the response carries an `error` message exactly for `no_audio` and `prediction_failed` |
| Server.StatusesDistinguishOutcomes | backend/app.py:152-187 | equal `status` strings mean equal start responses, and equal stop responses unless both are `success` |
| Server.PredictEmotion | backend/app.py:106-132 | a prediction exists only if extraction succeeds (so the buffer has at least 48000 samples) and a `best` model is loaded; when both hold, the result is exactly that model's output on the features |
| Server.StopOutcome | backend/app.py:177-202 | stop outcomes in order: `no_audio` exactly for an empty buffer; `prediction_failed` for any buffer of 1 to 47999 samples; `success` exactly when the prediction exists, carrying its emotion and probabilities and duration `len/48000 ≥ 1.0`; never `not_recording` |
| Server.Recorder.constructor | backend/app.py:20-29 | at start-up the server is not recording and the buffer is empty |
| Server.Recorder.StartRecording | backend/app.py:146-162 | while recording: `already_recording`, with flag and buffer unchanged; otherwise `recording_started`, flag up, buffer empty |
| Server.Recorder.AudioCallback | backend/app.py:138-140 | while recording, the block's first-channel samples are appended in order; otherwise the buffer is unchanged; the flag never changes |
| Server.Recorder.StopRecording | backend/app.py:164-202 | afterwards the flag is always down and the buffer unchanged; when not recording the answer is `not_recording`; otherwise it is `StopOutcome` of the buffer |
| Server.Recorder.GetStatus | backend/app.py:204-210 | reports the flag, and models loaded exactly when the models dictionary is non-empty; changes nothing |
| Server.StopThenStart | backend/app.py:151-173 | a stop made while recording, whatever its outcome, is followed by a start that succeeds with an empty buffer |
| Ravdess.EndsWith | backend/save_models.py:91 | a name that passes `endswith(".wav")` is what precedes the suffix followed by `.wav` |
| Ravdess.EndsWithConcat | backend/save_models.py:91 | every name of the form prefix + suffix passes `endswith(suffix)` |
| Ravdess.PathOf | backend/save_models.py:101 | `os.path.join(root, name)` starts with the directory and ends with the name, with one `/` between them unless the directory is empty or already ends with `/` |
| Ravdess.Split | backend/save_models.py:93 | `split("-")` yields one more field than there are dashes, and no field holds a dash |
| Ravdess.JoinSplit | backend/save_models.py:93 | joining the fields of a split with the separator gives back the name |
| Ravdess.SplitJoin | backend/save_models.py:93 | splitting dash-free fields joined by dashes gives back the same fields |
| Ravdess.ParseLabel | backend/save_models.py:93-100 | a name gets a label exactly when it has at least three fields and the third is a key of the table; the label is the table's value for that key, one of the eight emotions |
| Ravdess.FewFieldsNoLabel | backend/save_models.py:94-96 | a name with fewer than two dashes (fewer than three fields) gets no label |
| Ravdess.EmotionTable | backend/save_models.py:82-85 | the codes are exactly `01`..`08` and the labels exactly neutral, calm, happy, sad, angry, fearful, disgust, surprised |
| Ravdess.RavdessNameExample | backend/save_models.py:93-97 | the name `03-01-06-01-02-01-12.wav` is labelled `fearful` |
| Ravdess.FileFeatures | backend/save_models.py:21-77 | a file that fails to load has no features; a file that loads gets exactly the extractor's result on its samples at 48000 Hz with 40 MFCCs, so features exist only for at least `1.0 × 48000` samples |
| Ravdess.Classify | backend/save_models.py:90-107 | a file is ignored exactly when its name does not end in `.wav`; a `.wav` name without a label is skipped; a `.wav` name with a label whose features are extracted is kept with that label and those features, and a kept file has nothing else |
| Ravdess.TallyBalanced | backend/save_models.py:86-109 | `total_files` counts the `.wav` names and equals `skipped + len(features)`; features and labels have equal length; every label is one of the eight emotions |
| Ravdess.OtherFilesIgnored | backend/save_models.py:90-92 | removing every non-`.wav` entry from the walk leaves all four results unchanged |
| Ravdess.BuildDataset | backend/save_models.py:79-110 | the loop's lists and counters are those of `Tallied`, so the balance, the pairing and the label range hold of its results |
| Training.BestIsFirstMaximum | backend/save_models.py:153-166 | nothing is kept exactly when no accuracy exceeds 0; otherwise the kept candidate has the maximum accuracy, and every earlier candidate has strictly less (first wins ties) |
| Training.FirstBestUnique | backend/save_models.py:163 | at most one candidate is the first of highest positive accuracy |
| Training.SelectBest | backend/save_models.py:153-166 | `best_model`, `best_acc`, `best_name` are those of the first maximal candidate; `None`, 0 and `""` exactly when no accuracy exceeds 0 |
| Training.Candidates | backend/save_models.py:146-161 | the four candidates come in dictionary order: Random Forest, Logistic Regression, SVM, LightGBM |
| Training.TrainAndSave | backend/save_models.py:112-166 | an empty dataset after cleaning raises instead of training; otherwise the result is the selection over the four candidates trained on the kept features and labels |

## Left out

- librosa's numeric routines are not modelled: MFCC, deltas, spectral centroid, bandwidth, roll-off, zero-crossing rate, chroma, contrast, tonnetz, RMS and YIN. They are opaque functions given as input, and so is the square root in `np.std`. Floating point is modelled as exact reals.
- The `isfinite` check is not modelled separately. Reals cannot be infinite or NaN, so the only non-finite case captured is a statistic over no values. Non-finite values produced inside the library are not represented.
- Features.ExtractLength: the row counts (n_mfcc, 12, 7, 6) are librosa's behaviour, so they are a hypothesis of the lemma, not something proved.
- Scaling, label encoding, `predict`, `predict_proba` and the probability dictionary are not modelled. Server.PredictEmotion treats them together as one opaque classifier that may fail.
- `load_models` and pickle loading and dumping are not modelled: they are file I/O. The loaded models are a constructor argument.
- The temporary WAV written on success and the `audio_file` field of the response are not modelled: they are file I/O.
- The sounddevice stream, the recording thread, `join` and `time.sleep` are not modelled: they are concurrency and device I/O. Blocks of samples arrive as explicit sequential `AudioCallback` calls.
- The float32 conversion of the buffer is not modelled.
- Flask routing, CORS, `jsonify` and the `health` endpoint are not modelled: they are transport. Responses are datatypes. Their wire strings are given by `StartStatus`, `StopStatus` and `StopError`. `StartStatus` and `StopStatus` have no contract of their own; the lemma `StatusesDistinguishOutcomes` states what they guarantee.
- `librosa.load` in the training script is a parameter that may fail. `os.walk` is a given sequence of (directory, file name) entries in walk order. `os.makedirs` is not modelled.
- `LabelEncoder`, `StandardScaler`, `RandomOverSampler`, `train_test_split`, classifier fitting and accuracy scoring are not modelled: they are foreign library calls. One opaque `fit` gives the trained model and its accuracy per name. A fit that raises is not modelled.
- The progress and count output of both scripts is not modelled. `BuildDataset` returns the two counters it prints.
- `start_system.py` is not part of this model. It does process launching, an HTTP probe and file-existence checks.
