# youtube_summarizer — checkpoint and run model

The summarizer watches one YouTube channel. Each run asks the YouTube Data
API for the channel's latest upload. If that upload is not the one recorded
in the checkpoint file `last_video_id.txt`, the run:

1. downloads the video's audio to `<title>.mp4` with yt_dlp;
2. transcribes it with OpenAI Whisper;
3. summarises the transcript with GPT-4;
4. e-mails the summary;
5. records the video in the checkpoint;
6. deletes the audio file.

This project models the part of that program that is its own logic:

- **The checkpoint format** (module `Checkpoint`). `save_last_video_id`
  writes the line `<id>,\t<title>`. `load_last_video_id` reads the file in
  text mode, strips it, splits it at the first comma and strips the first
  field. The file is modelled by its contents, `None` while it does not
  exist.
- **The Python string behaviour the format relies on** (module `PyText`):
  - `str.strip()`, with Python's whitespace set;
  - `str.split(",", 1)`;
  - the universal-newline translation of a text-mode read.
- **One run of `main`** (module `Summarizer`). It exists in two forms:
  - `Run`, a function from the state before the run to the state after it;
  - `Host`, a class whose fields are that state and whose method `Execute`
    changes it step by step as `main` does. `Execute` is proved to end in
    `Run`'s state.

  The state holds the checkpoint file, the audio files on disk, the calls
  made to the collaborators (with their arguments), the mails delivered and
  the log lines. What each collaborator returns or raises in a run is an
  `Outcomes` value given to the run.

The id comes back stripped of surrounding whitespace. Because the file is
read in text mode, a carriage return in it comes back as a line feed
(`Checkpoint.CarriageReturnInId`). The round trip is therefore
`Load(save(id, t)) == Some(Strip(Translate(id)))` for every id without a
comma, and `Some(Strip(id))` for ids that also hold no carriage return.

`send_email` can end three ways, and the model keeps all three:
- the server accepts the mail;
- the call raises before the server accepts it;
- the server accepts the mail and the call raises afterwards, when the
  SMTP connection is closed.

In the third case the mail is out, but the run logs the error and skips the
save. A later run that still sees this upload as the latest therefore
processes it again, and sends the mail again if it gets that far
(`FailedRunIsRetried`).

## Model

| member | source | states |
|---|---|---|
| PyText.Strip | youtube_summarizer.py:102 | The stripped text is empty exactly when the input is all Python whitespace; otherwise it neither starts nor ends with whitespace |
| PyText.StripAround | youtube_summarizer.py:102-105 | Stripping a line with a non-whitespace separator inside removes whitespace only at the line's two outer ends |
| PyText.StripIdempotent | youtube_summarizer.py:102-105 | Stripping an already stripped field changes nothing |
| PyText.SplitOnce | youtube_summarizer.py:104 | `split(",", 1)` gives one part (the whole text) exactly when there is no comma, otherwise two parts joined by that comma; the first part never holds a comma |
| PyText.SplitOnceAtFirst | youtube_summarizer.py:104 | The split happens at the first comma, whatever follows it, including further commas |
| PyText.Translate | youtube_summarizer.py:101 | The text a read in text mode returns is never longer than the file; `TranslateRemovesCr`, `TranslateKeepsComma`, `TranslateNoCarriageReturn` and `TranslateAppend` below state what the read does to the text |
| PyText.TranslateAppend | youtube_summarizer.py:101 | The translation of a concatenation is the concatenation of the translations when the second part does not start with a line feed |
| PyText.TranslateNoCarriageReturn | youtube_summarizer.py:101 | Text without a carriage return reads back unchanged |
| PyText.TranslateRemovesCr | youtube_summarizer.py:101 | No carriage return is left after a text-mode read |
| PyText.TranslateKeepsComma | youtube_summarizer.py:101 | The read holds a comma exactly when the file does |
| Checkpoint.FormatLine | youtube_summarizer.py:113 | The line `save_last_video_id` writes: the id, a comma, a tab and the title; `SavedLineSplits` and `RoundTrip` state what reading it back gives |
| Checkpoint.SavedLineSplits | youtube_summarizer.py:104-113 | For an id without a comma, the saved line splits at its first comma into exactly the id and the tab-led title, whatever the title holds |
| Checkpoint.Load | youtube_summarizer.py:99-108 | No file gives no id; a file gives no id exactly when its translated contents are all whitespace; a loaded id holds no comma and has no surrounding whitespace |
| Checkpoint.LoadBeforeFirstComma | youtube_summarizer.py:102-107 | When the read text is `a + "," + b` with no comma in `a`, the id is `strip(a)`, whatever `b` holds |
| Checkpoint.LoadWithoutComma | youtube_summarizer.py:102-107 | Without a comma the id is the whole stripped text |
| Checkpoint.TranslateSavedLine | youtube_summarizer.py:101-113 | Reading a saved line translates the id and the title separately around the comma and tab |
| Checkpoint.RoundTrip | youtube_summarizer.py:99-113 | For any id without a comma and any title, loading the saved line gives the stripped id as a text-mode read sees it |
| Checkpoint.RoundTripPlain | youtube_summarizer.py:99-113 | For any id with neither a comma nor a carriage return, and any title, loading the saved line gives `strip(id)` |
| Checkpoint.LoadSavedLine | youtube_summarizer.py:99-113 | A saved line loads as the stripped text before the first comma of the translated id, whatever the id holds |
| Checkpoint.LoadIgnoresTitle | youtube_summarizer.py:99-113 | A saved line always loads as some id, and two titles with the same id load the same id |
| Checkpoint.CarriageReturnInId | youtube_summarizer.py:99-113 | The id `"a\rb"` is saved and loads back as `"a\nb"` |
| Summarizer.AudioFileName | youtube_summarizer.py:55-61 | The file `download_audio` writes and returns: the title followed by `.mp4`; `AudioFilesAfterRun` and `CleanupAfterSave` state when it is on disk |
| Summarizer.WatchUrl | youtube_summarizer.py:60 | The watch URL of the id that `download_audio` hands to yt_dlp; `NewVideoIsDownloaded` states when it is requested |
| Summarizer.SummaryMail | youtube_summarizer.py:88-93 | The mail `send_email` builds: the brain emoji prefix and the title as subject, the summary as body |
| Summarizer.SameVideo | youtube_summarizer.py:122 | The early-return test: the loaded id is present and equal to the latest id, so a missing checkpoint never matches (`FirstRunProceeds`) |
| Summarizer.Run | youtube_summarizer.py:117-150 | One run of `main` from the state before it; a run only appends to the calls and the log and never takes a mail out of the outbox |
| Summarizer.FetchStage | youtube_summarizer.py:127-150 | The run from the download on; it only appends to the calls, the log and the outbox |
| Summarizer.TranscribeStage | youtube_summarizer.py:130-150 | The run from the transcription on; it only appends to the calls, the log and the outbox |
| Summarizer.SummarizeStage | youtube_summarizer.py:133-150 | The run from the summary on; it only appends to the calls, the log and the outbox |
| Summarizer.NotifyStage | youtube_summarizer.py:136-150 | The run from the mail on; a mail the server accepted stays delivered even when the call raises; it only appends to the calls, the log and the outbox |
| Summarizer.PersistStage | youtube_summarizer.py:139-146 | The save and the best-effort delete; it only appends to the calls, the log and the outbox |
| Summarizer.LastStage | youtube_summarizer.py:127-146 | For a new video, the position in the pipeline of the first step that raises, or of the delete when none does |
| Summarizer.Reached | youtube_summarizer.py:117-150 | How many stages a run reaches: one when the API call raises or finds no new video, otherwise up to `LastStage` |
| Summarizer.NoNewVideoIsQuiet | youtube_summarizer.py:119-124 | When the latest id equals the loaded id, the run records the API call and the "No new video." line and changes nothing else: no download, transcription, summary, mail, save or delete |
| Summarizer.NewVideoIsDownloaded | youtube_summarizer.py:119-127 | When the latest id differs from the loaded one, the next call downloads that video's watch URL into `<title>.mp4` |
| Summarizer.FirstRunProceeds | youtube_summarizer.py:119-127 | With no checkpoint file, a run that gets the latest upload always goes on to download it |
| Summarizer.CheckpointOnlyAfterDelivery | youtube_summarizer.py:117-150 | The checkpoint becomes the new video's line exactly when download, transcription, summary and mail all succeed for a new video, and is unchanged otherwise; the summary mail is added to the outbox exactly when the server accepted it, even in a run that then fails |
| Summarizer.AudioFilesAfterRun | youtube_summarizer.py:127-146 | The audio files on disk after a run: unchanged when nothing was downloaded; without the new file when the mail went out and the delete succeeded; with the new file kept otherwise, including when transcription, summary or mail raised before the delete |
| Summarizer.LogEndsInErrorExactlyOnFailure | youtube_summarizer.py:117-150 | A run appends log lines that are all informational except the last; the last is the error line exactly when the run failed before the save, and a warning only when the delete failed |
| Summarizer.CallsFollowPipeline | youtube_summarizer.py:117-146 | The calls of a run go through fetch-latest, download, transcribe, summarise, send, save and delete in that order, one per stage, and there are exactly `Reached` of them: the run stops at the first step that raises or at the no-new-video check |
| Summarizer.CleanupAfterSave | youtube_summarizer.py:139-146 | After a delivered new video the save is the second-to-last call and the delete is the last call; a failed delete keeps the file, logs the warning and keeps the new checkpoint |
| Summarizer.SecondRunIsQuiet | youtube_summarizer.py:99-124 | After a delivered run, a second run that sees the same id (no comma, carriage return or surrounding whitespace) does nothing beyond the API call and the "No new video." line |
| Summarizer.FailedRunIsRetried | youtube_summarizer.py:117-150 | After a run that failed on a new video, the next run with the same latest upload downloads it again |
| Summarizer.Host.SaveLastVideoId | youtube_summarizer.py:111-113 | The checkpoint file is replaced by the single line `id + ",\t" + title`, whatever it held before |
| Summarizer.Host.Execute | youtube_summarizer.py:117-150 | The state after the step-by-step run equals `Run` applied to the state before it |
| Summarizer.Host.RunFetch | youtube_summarizer.py:127-150 | From the download on, the run's new state is `FetchStage` of the old one |
| Summarizer.Host.RunTranscribe | youtube_summarizer.py:130-150 | From the transcription on, the run's new state is `TranscribeStage` of the old one |
| Summarizer.Host.RunSummarize | youtube_summarizer.py:133-150 | From the summary on, the run's new state is `SummarizeStage` of the old one |
| Summarizer.Host.RunNotify | youtube_summarizer.py:136-150 | From the mail on, the run's new state is `NotifyStage` of the old one |
| Summarizer.Host.RunPersist | youtube_summarizer.py:139-146 | The save, then the delete whose failure is only a warning, give `PersistStage` of the old state |

## Left out

- `get_latest_video_id_and_title`: the YouTube Data API calls and their JSON indexing are foreign. The run receives their result as `Outcomes.latest`, either an id and title or a failure.
- `download_audio`'s yt_dlp call, `transcribe_audio`, `summarize_text` and `send_email` (OpenAI and SMTP) are foreign calls. Each is an `Outcomes` field: the first three succeed, with the value they return, or fail. `send_email` has the three endings described above. What the transcript and the summary contain is not modelled.
- yt_dlp output-template expansion: a `%` in a title would be expanded by yt_dlp. The model takes the file name to be exactly `<title>.mp4`, as `download_audio` returns it.
- Partial downloads: a failed download is modelled as leaving no audio file behind.
- Checkpoint I/O errors: an `open`, read or write that raises, and file encodings, are not modelled. Load and save always succeed, and characters are Unicode code points.
- Line endings on write: the model writes the line as given, which is what happens on POSIX. On Windows a text-mode write would turn a `\n` in the title into `\r\n`.
- Logging: the configuration, timestamps and the traceback attached by `exc_info=True` are left out. Log lines are kept as a level and a `Message` value. The value carries what the source interpolates into the line (title, id, path, reason), not the line's text.
- Exceptions raised by the logging calls themselves are not modelled.
- E-mail sender, recipient and SMTP login are configuration read from the environment. A mail is modelled by its subject and body.
- Module-level configuration (`load_dotenv`, environment variables) is process plumbing and is not modelled.
- The commented-out local Whisper transcription is dead code and is not modelled.
- `main.py` is a single search call that prints a title and a URL. It is not part of this model.
