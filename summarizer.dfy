/**
 * One run of the summarizer (`main` in youtube_summarizer.py): read the
 * checkpoint, ask the channel for its latest upload, stop when it is the one
 * already handled, and otherwise download its audio, transcribe it,
 * summarise the transcript, e-mail the summary, save the checkpoint and
 * delete the audio file. The collaborators (the YouTube Data API, yt_dlp,
 * OpenAI, SMTP) are not modelled; what each returns or raises in a run is
 * given as an `Outcomes` value.
 */
module Summarizer {
  import opened Base
  import opened PyText
  import Checkpoint

  /** The latest upload as the YouTube Data API reports it. */
  datatype VideoRef = VideoRef(id: string, title: string)

  datatype Email = Email(subject: string, body: string)

  /** A call the run makes into a collaborator or onto the disk, with the
      arguments it passes. */
  datatype Call =
    | FetchLatest
    | Download(url: string, outputTemplate: string)
    | Transcribe(path: string)
    | Summarize(transcript: string)
    | Send(message: Email)
    | SaveCheckpoint(id: string, title: string)
    | RemoveAudio(path: string)

  /** The stages of the pipeline, in the order the run reaches them. */
  datatype Stage = Resolve | Fetch | Transcription | Summary | Notify | Persist | Cleanup

  datatype Level = Info | Warning | Error

  /** The lines `main` logs, each with the values the source interpolates
      into its text. */
  datatype Message =
    | NoNewVideo
    | NewVideoDetected(title: string, id: string)
    | AudioDownloaded
    | TranscriptionComplete
    | SummaryGenerated
    | SummarySent
    | VideoIdSaved
    | DeletedAudio(path: string)
    | DeleteFailed(reason: string)
    | RunFailed

  datatype LogEntry = LogEntry(level: Level, message: Message)

  /** How `send_email` ends: the server accepts the mail; the call raises
      before it does; or the server accepts it and the call raises afterwards,
      when the SMTP connection is closed. */
  datatype Delivery = Sent | Refused(reason: string) | SentThenFailed(reason: string)

  /** What each collaborator returns, or the exception it raises, in one run. */
  datatype Outcomes = Outcomes(
    latest: Result<VideoRef>,
    download: Result<()>,
    transcript: Result<string>,
    summary: Result<string>,
    delivery: Delivery,
    removal: Result<()>)

  /** Everything a run can change: the checkpoint file, the audio files on
      disk, and the calls made, mails delivered and log lines written so far. */
  datatype World = World(
    checkpoint: Option<string>,
    audioFiles: set<string>,
    calls: seq<Call>,
    outbox: seq<Email>,
    log: seq<LogEntry>)

  const SUBJECT_PREFIX := "\U{1F9E0} New YouTube Video Summary - "
  const WATCH_URL_PREFIX := "https://www.youtube.com/watch?v="

  /** The audio file `download_audio` writes and returns. */
  function AudioFileName(title: string): string {
    title + ".mp4"
  }

  /** The URL `download_audio` hands to yt_dlp. */
  function WatchUrl(id: string): string {
    WATCH_URL_PREFIX + id
  }

  /** `current_video_id == last_video_id`: a fetched id never equals `None`. */
  predicate SameVideo(current: string, last: Option<string>) {
    last == Some(current)
  }

  function StageOf(c: Call): Stage {
    match c
    case FetchLatest => Resolve
    case Download(_, _) => Fetch
    case Transcribe(_) => Transcription
    case Summarize(_) => Summary
    case Send(_) => Notify
    case SaveCheckpoint(_, _) => Persist
    case RemoveAudio(_) => Cleanup
  }

  const PIPELINE: seq<Stage> := [Resolve, Fetch, Transcription, Summary, Notify, Persist, Cleanup]

  function Note(w: World, level: Level, message: Message): World {
    w.(log := w.log + [LogEntry(level, message)])
  }

  function Invoke(w: World, c: Call): World {
    w.(calls := w.calls + [c])
  }

  /** The single `except Exception` handler: log and give up the run. */
  function Abort(w: World): World {
    Note(w, Error, RunFailed)
  }

  /** One run of `main`, as a function of the state before it. */
  function Run(w: World, o: Outcomes): (r: World)
    ensures w.calls < r.calls && w.log < r.log && w.outbox <= r.outbox
  {
    var last := Checkpoint.Load(w.checkpoint);
    var w := Invoke(w, FetchLatest);
    match o.latest
    case Fail(_) => Abort(w)
    case Ok(v) =>
      if SameVideo(v.id, last) then Note(w, Info, NoNewVideo)
      else FetchStage(Note(w, Info, NewVideoDetected(v.title, v.id)), v, o)
  }

  /** `download_audio`, then on to transcription. */
  function FetchStage(w: World, v: VideoRef, o: Outcomes): (r: World)
    ensures w.calls < r.calls && w.log < r.log && w.outbox <= r.outbox
  {
    var path := AudioFileName(v.title);
    var w := Invoke(w, Download(WatchUrl(v.id), path));
    if o.download.Fail? then Abort(w)
    else TranscribeStage(Note(w.(audioFiles := w.audioFiles + {path}), Info, AudioDownloaded), v, o)
  }

  /** `transcribe_audio` on the downloaded file, then on to the summary. */
  function TranscribeStage(w: World, v: VideoRef, o: Outcomes): (r: World)
    ensures w.calls < r.calls && w.log < r.log && w.outbox <= r.outbox
  {
    var w := Invoke(w, Transcribe(AudioFileName(v.title)));
    match o.transcript
    case Fail(_) => Abort(w)
    case Ok(transcript) => SummarizeStage(Note(w, Info, TranscriptionComplete), v, transcript, o)
  }

  /** `summarize_text` on the transcript, then on to the mail. */
  function SummarizeStage(w: World, v: VideoRef, transcript: string, o: Outcomes): (r: World)
    ensures w.calls < r.calls && w.log < r.log && w.outbox <= r.outbox
  {
    var w := Invoke(w, Summarize(transcript));
    match o.summary
    case Fail(_) => Abort(w)
    case Ok(summary) => NotifyStage(Note(w, Info, SummaryGenerated), v, summary, o)
  }

  /** The mail `send_email` builds: the title in the subject, the summary as
      the body. */
  function SummaryMail(v: VideoRef, summary: string): Email {
    Email(SUBJECT_PREFIX + v.title, summary)
  }

  /** `send_email` with the summary as body, then on to the checkpoint. A mail
      the server accepted stays delivered even when the call then raises. */
  function NotifyStage(w: World, v: VideoRef, summary: string, o: Outcomes): (r: World)
    ensures w.calls < r.calls && w.log < r.log && w.outbox <= r.outbox
  {
    var email := SummaryMail(v, summary);
    var w := Invoke(w, Send(email));
    var w := if o.delivery.Refused? then w else w.(outbox := w.outbox + [email]);
    if !o.delivery.Sent? then Abort(w)
    else PersistStage(Note(w, Info, SummarySent), v, o)
  }

  /** `save_last_video_id`, then the best-effort `os.remove` of the audio file,
      whose failure is only a warning. */
  function PersistStage(w: World, v: VideoRef, o: Outcomes): (r: World)
    ensures w.calls < r.calls && w.log < r.log && w.outbox <= r.outbox
  {
    var path := AudioFileName(v.title);
    var w := Invoke(w, SaveCheckpoint(v.id, v.title));
    var w := Note(w.(checkpoint := Some(Checkpoint.FormatLine(v.id, v.title))), Info, VideoIdSaved);
    var w := Invoke(w, RemoveAudio(path));
    match o.removal
    case Fail(reason) => Note(w, Warning, DeleteFailed(reason))
    case Ok(_) => Note(w.(audioFiles := w.audioFiles - {path}), Info, DeletedAudio(path))
  }

  /** Every step before the checkpoint write succeeds for a new video. */
  predicate Delivers(o: Outcomes) {
    o.latest.Ok? && o.download.Ok? && o.transcript.Ok? && o.summary.Ok? && o.delivery.Sent?
  }

  /** When the latest upload is the one in the checkpoint, the run logs
      "No new video." and does nothing else: no download, transcription,
      summary, mail, save or delete, and the checkpoint is unchanged. */
  lemma NoNewVideoIsQuiet(w: World, o: Outcomes)
    requires o.latest.Ok? && SameVideo(o.latest.value.id, Checkpoint.Load(w.checkpoint))
    ensures Run(w, o) == w.(calls := w.calls + [FetchLatest],
                            log := w.log + [LogEntry(Info, NoNewVideo)])
  {
  }

  /** A latest id different from the checkpoint's starts the pipeline: the
      next call downloads that video's audio into its title's file. */
  lemma NewVideoIsDownloaded(w: World, o: Outcomes)
    requires o.latest.Ok? && !SameVideo(o.latest.value.id, Checkpoint.Load(w.checkpoint))
    ensures |Run(w, o).calls| >= |w.calls| + 2
    ensures Run(w, o).calls[|w.calls| + 1] ==
            Download(WatchUrl(o.latest.value.id), AudioFileName(o.latest.value.title))
  {
    var v := o.latest.value;
    var w1 := Note(Invoke(w, FetchLatest), Info, NewVideoDetected(v.title, v.id));
    assert Run(w, o) == FetchStage(w1, v, o);
    FetchStartsWithDownload(w1, v, o);
  }

  lemma FetchStartsWithDownload(w: World, v: VideoRef, o: Outcomes)
    ensures w.calls + [Download(WatchUrl(v.id), AudioFileName(v.title))] <= FetchStage(w, v, o).calls
  {
  }

  /** Without a checkpoint file the run always goes on to download. */
  lemma FirstRunProceeds(w: World, o: Outcomes)
    requires w.checkpoint.None? && o.latest.Ok?
    ensures |Run(w, o).calls| >= |w.calls| + 2
    ensures Run(w, o).calls[|w.calls| + 1] ==
            Download(WatchUrl(o.latest.value.id), AudioFileName(o.latest.value.title))
  {
    NewVideoIsDownloaded(w, o);
  }

  /** The server accepted the summary mail of a new video, whether or not
      `send_email` then raised. */
  predicate Mailed(w: World, o: Outcomes) {
    o.latest.Ok? && !SameVideo(o.latest.value.id, Checkpoint.Load(w.checkpoint)) &&
    o.download.Ok? && o.transcript.Ok? && o.summary.Ok? && !o.delivery.Refused?
  }

  /** The checkpoint is written exactly when a new video was downloaded,
      transcribed, summarised and mailed without an error; it then holds the
      new video's line. Otherwise the file is exactly as before. The summary
      mail is in the outbox exactly when the server accepted it, which can
      happen in a run that then fails (the mail goes out again on the retry). */
  lemma CheckpointOnlyAfterDelivery(w: World, o: Outcomes)
    ensures var r := Run(w, o);
      r.checkpoint ==
        (if Delivers(o) && !SameVideo(o.latest.value.id, Checkpoint.Load(w.checkpoint))
         then Some(Checkpoint.FormatLine(o.latest.value.id, o.latest.value.title))
         else w.checkpoint) &&
      r.outbox ==
        (if Mailed(w, o) then w.outbox + [SummaryMail(o.latest.value, o.summary.value)]
         else w.outbox)
  {
    match o.latest
    case Fail(_) =>
    case Ok(v) =>
      if !SameVideo(v.id, Checkpoint.Load(w.checkpoint)) {
        FetchStageEffects(Note(Invoke(w, FetchLatest), Info, NewVideoDetected(v.title, v.id)), v, o);
      }
  }

  /** What the pipeline after detection does to the checkpoint, the outbox
      and the audio files. */
  lemma FetchStageEffects(w: World, v: VideoRef, o: Outcomes)
    ensures var r := FetchStage(w, v, o);
      var path := AudioFileName(v.title);
      r.checkpoint ==
        (if o.download.Ok? && o.transcript.Ok? && o.summary.Ok? && o.delivery.Sent?
         then Some(Checkpoint.FormatLine(v.id, v.title)) else w.checkpoint) &&
      r.outbox ==
        (if o.download.Ok? && o.transcript.Ok? && o.summary.Ok? && !o.delivery.Refused?
         then w.outbox + [SummaryMail(v, o.summary.value)] else w.outbox) &&
      r.audioFiles ==
        (if o.download.Fail? then w.audioFiles
         else if o.transcript.Ok? && o.summary.Ok? && o.delivery.Sent? && o.removal.Ok?
         then w.audioFiles - {path}
         else w.audioFiles + {path})
  {
    if o.download.Ok? {
      var path := AudioFileName(v.title);
      var w1 := Note(Invoke(w, Download(WatchUrl(v.id), path)).(audioFiles := w.audioFiles + {path}), Info, AudioDownloaded);
      assert FetchStage(w, v, o) == TranscribeStage(w1, v, o);
      if o.transcript.Ok? {
        var w2 := Note(Invoke(w1, Transcribe(path)), Info, TranscriptionComplete);
        assert TranscribeStage(w1, v, o) == SummarizeStage(w2, v, o.transcript.value, o);
        if o.summary.Ok? {
          var w3 := Note(Invoke(w2, Summarize(o.transcript.value)), Info, SummaryGenerated);
          assert SummarizeStage(w2, v, o.transcript.value, o) == NotifyStage(w3, v, o.summary.value, o);
          if o.delivery.Sent? && o.removal.Ok? {
            assert w.audioFiles + {path} - {path} == w.audioFiles - {path};
          }
        }
      }
    }
  }

  /** The audio file is on disk after a run exactly when its download
      succeeded and the run did not get as far as deleting it: a failed
      transcription, summary or mail raises before `os.remove`, and a failed
      delete keeps it. Nothing else on disk changes. */
  lemma AudioFilesAfterRun(w: World, o: Outcomes)
    ensures var r := Run(w, o);
      if o.latest.Fail? || SameVideo(o.latest.value.id, Checkpoint.Load(w.checkpoint)) || o.download.Fail?
      then r.audioFiles == w.audioFiles
      else
        var path := AudioFileName(o.latest.value.title);
        r.audioFiles == (if Delivers(o) && o.removal.Ok? then w.audioFiles - {path} else w.audioFiles + {path})
  {
    match o.latest
    case Fail(_) =>
    case Ok(v) =>
      if !SameVideo(v.id, Checkpoint.Load(w.checkpoint)) {
        FetchStageEffects(Note(Invoke(w, FetchLatest), Info, NewVideoDetected(v.title, v.id)), v, o);
      }
  }

  /** The run gives up at some step before the checkpoint write. */
  predicate Fails(w: World, o: Outcomes) {
    o.latest.Fail? ||
    (!Delivers(o) && !SameVideo(o.latest.value.id, Checkpoint.Load(w.checkpoint)))
  }

  /** What a run appends to the log: every line is informational except the
      last, which is the error line exactly when the run `failed`, and a
      warning only when the audio file could not be deleted. */
  predicate LogShape(added: seq<LogEntry>, failed: bool, o: Outcomes) {
    added != [] &&
    (added[|added| - 1] == LogEntry(Error, RunFailed) <==> failed) &&
    (added[|added| - 1].level == Warning ==> o.removal.Fail?) &&
    forall i :: 0 <= i < |added| - 1 ==> added[i].level == Info
  }

  lemma LogShapeCons(m: Message, rest: seq<LogEntry>, failed: bool, o: Outcomes)
    requires LogShape(rest, failed, o)
    ensures LogShape([LogEntry(Info, m)] + rest, failed, o)
  {
    forall i | 0 < i < |rest| ensures ([LogEntry(Info, m)] + rest)[i] == rest[i - 1] {
    }
  }

  /** A run that fails anywhere before the checkpoint write ends its log with
      the one error line (and, by `CheckpointOnlyAfterDelivery`, leaves the
      checkpoint and the outbox alone). Every other line a run logs is
      informational, except the warning for a failed delete. */
  lemma LogEndsInErrorExactlyOnFailure(w: World, o: Outcomes)
    ensures var r := Run(w, o);
      w.log < r.log && LogShape(r.log[|w.log|..], Fails(w, o), o)
  {
    var r := Run(w, o);
    match o.latest
    case Fail(_) =>
      AppendedSuffix(w.log, LogEntry(Error, RunFailed), [], r.log);
    case Ok(v) =>
      if SameVideo(v.id, Checkpoint.Load(w.checkpoint)) {
        AppendedSuffix(w.log, LogEntry(Info, NoNewVideo), [], r.log);
      } else {
        var w1 := Note(Invoke(w, FetchLatest), Info, NewVideoDetected(v.title, v.id));
        assert r == FetchStage(w1, v, o);
        var rest := FetchStageLog(w1, v, o);
        var failed := !(o.download.Ok? && o.transcript.Ok? && o.summary.Ok? && o.delivery.Sent?);
        assert Fails(w, o) == failed;
        LogShapeCons(NewVideoDetected(v.title, v.id), rest, failed, o);
        AppendedSuffix(w.log, LogEntry(Info, NewVideoDetected(v.title, v.id)), rest, r.log);
      }
  }

  /** What a run appends behind the log it started from. */
  lemma AppendedSuffix(before: seq<LogEntry>, first: LogEntry, rest: seq<LogEntry>, after: seq<LogEntry>)
    requires after == before + [first] + rest
    ensures after[|before|..] == [first] + rest
  {
  }

  lemma FetchStageLog(w: World, v: VideoRef, o: Outcomes) returns (added: seq<LogEntry>)
    ensures FetchStage(w, v, o).log == w.log + added
    ensures LogShape(added, !(o.download.Ok? && o.transcript.Ok? && o.summary.Ok? && o.delivery.Sent?), o)
  {
    var path := AudioFileName(v.title);
    if o.download.Fail? {
      added := [LogEntry(Error, RunFailed)];
    } else {
      var w1 := Invoke(w, Download(WatchUrl(v.id), path));
      var rest := TranscribeStageLog(Note(w1.(audioFiles := w1.audioFiles + {path}), Info, AudioDownloaded), v, o);
      LogShapeCons(AudioDownloaded, rest, !(o.transcript.Ok? && o.summary.Ok? && o.delivery.Sent?), o);
      added := [LogEntry(Info, AudioDownloaded)] + rest;
    }
  }

  lemma TranscribeStageLog(w: World, v: VideoRef, o: Outcomes) returns (added: seq<LogEntry>)
    ensures TranscribeStage(w, v, o).log == w.log + added
    ensures LogShape(added, !(o.transcript.Ok? && o.summary.Ok? && o.delivery.Sent?), o)
  {
    match o.transcript
    case Fail(_) =>
      added := [LogEntry(Error, RunFailed)];
    case Ok(transcript) =>
      var w1 := Invoke(w, Transcribe(AudioFileName(v.title)));
      var rest := SummarizeStageLog(Note(w1, Info, TranscriptionComplete), v, transcript, o);
      LogShapeCons(TranscriptionComplete, rest, !(o.summary.Ok? && o.delivery.Sent?), o);
      added := [LogEntry(Info, TranscriptionComplete)] + rest;
  }

  lemma SummarizeStageLog(w: World, v: VideoRef, transcript: string, o: Outcomes) returns (added: seq<LogEntry>)
    ensures SummarizeStage(w, v, transcript, o).log == w.log + added
    ensures LogShape(added, !(o.summary.Ok? && o.delivery.Sent?), o)
  {
    match o.summary
    case Fail(_) =>
      added := [LogEntry(Error, RunFailed)];
    case Ok(summary) =>
      var w1 := Invoke(w, Summarize(transcript));
      var rest := NotifyStageLog(Note(w1, Info, SummaryGenerated), v, summary, o);
      LogShapeCons(SummaryGenerated, rest, !o.delivery.Sent?, o);
      added := [LogEntry(Info, SummaryGenerated)] + rest;
  }

  lemma NotifyStageLog(w: World, v: VideoRef, summary: string, o: Outcomes) returns (added: seq<LogEntry>)
    ensures NotifyStage(w, v, summary, o).log == w.log + added
    ensures LogShape(added, !o.delivery.Sent?, o)
  {
    if !o.delivery.Sent? {
      added := [LogEntry(Error, RunFailed)];
    } else {
      var path := AudioFileName(v.title);
      var last := match o.removal
        case Fail(reason) => LogEntry(Warning, DeleteFailed(reason))
        case Ok(_) => LogEntry(Info, DeletedAudio(path));
      added := [LogEntry(Info, SummarySent), LogEntry(Info, VideoIdSaved), last];
    }
  }

  /** `calls` go through the pipeline's stages one by one, starting at
      stage number `from`. */
  predicate FollowsPipeline(calls: seq<Call>, from: nat) {
    from + |calls| <= |PIPELINE| &&
    forall i :: 0 <= i < |calls| ==> StageOf(calls[i]) == PIPELINE[from + i]
  }

  /** The position in `PIPELINE` of the last stage a run on a new video
      reaches: the first step that raises, or the delete when none does. */
  function LastStage(o: Outcomes): nat {
    if o.download.Fail? then 1
    else if o.transcript.Fail? then 2
    else if o.summary.Fail? then 3
    else if !o.delivery.Sent? then 4
    else 6
  }

  /** How many stages a run reaches, each with one call: only the API call
      when it raises or finds no new video. */
  function Reached(w: World, o: Outcomes): nat {
    if o.latest.Fail? || SameVideo(o.latest.value.id, Checkpoint.Load(w.checkpoint)) then 1
    else LastStage(o) + 1
  }

  /** The calls of a run go through the pipeline in order, one call per
      stage, and stop exactly at the stage `Reached` names: the first one that
      raises, the "no new video" check, or the delete. */
  lemma CallsFollowPipeline(w: World, o: Outcomes)
    ensures var r := Run(w, o);
      w.calls < r.calls && |r.calls| == |w.calls| + Reached(w, o) &&
      FollowsPipeline(r.calls[|w.calls|..], 0)
  {
    var w1 := Invoke(w, FetchLatest);
    match o.latest
    case Fail(_) =>
      assert Run(w, o).calls == w.calls + [FetchLatest];
    case Ok(v) =>
      if SameVideo(v.id, Checkpoint.Load(w.checkpoint)) {
        assert Run(w, o).calls == w.calls + [FetchLatest];
      } else {
        var w2 := Note(w1, Info, NewVideoDetected(v.title, v.id));
        assert Run(w, o) == FetchStage(w2, v, o);
        var added := FetchStageOrder(w2, v, o);
        assert Run(w, o).calls[|w.calls|..] == [FetchLatest] + added;
      }
  }

  /** One more call in front of calls that follow the pipeline. */
  lemma FollowsPipelineCons(c: Call, rest: seq<Call>, from: nat)
    requires from < |PIPELINE| && StageOf(c) == PIPELINE[from] && FollowsPipeline(rest, from + 1)
    ensures FollowsPipeline([c] + rest, from)
  {
    forall i | 0 < i < |rest| + 1 ensures ([c] + rest)[i] == rest[i - 1] {
    }
  }

  /** After detection the calls run through the stages from the download on. */
  lemma FetchStageOrder(w: World, v: VideoRef, o: Outcomes) returns (added: seq<Call>)
    ensures FetchStage(w, v, o).calls == w.calls + added
    ensures |added| == LastStage(o) && FollowsPipeline(added, 1)
  {
    var path := AudioFileName(v.title);
    var download := Download(WatchUrl(v.id), path);
    if o.download.Fail? {
      added := [download];
    } else {
      var w1 := Invoke(w, download);
      var rest := TranscribeStageOrder(Note(w1.(audioFiles := w1.audioFiles + {path}), Info, AudioDownloaded), v, o);
      FollowsPipelineCons(download, rest, 1);
      added := [download] + rest;
    }
  }

  lemma TranscribeStageOrder(w: World, v: VideoRef, o: Outcomes) returns (added: seq<Call>)
    requires o.download.Ok?
    ensures TranscribeStage(w, v, o).calls == w.calls + added
    ensures |added| == LastStage(o) - 1 && FollowsPipeline(added, 2)
  {
    var transcribe := Transcribe(AudioFileName(v.title));
    match o.transcript
    case Fail(_) =>
      added := [transcribe];
    case Ok(transcript) =>
      var rest := SummarizeStageOrder(Note(Invoke(w, transcribe), Info, TranscriptionComplete), v, transcript, o);
      FollowsPipelineCons(transcribe, rest, 2);
      added := [transcribe] + rest;
  }

  lemma SummarizeStageOrder(w: World, v: VideoRef, transcript: string, o: Outcomes) returns (added: seq<Call>)
    requires o.download.Ok? && o.transcript.Ok?
    ensures SummarizeStage(w, v, transcript, o).calls == w.calls + added
    ensures |added| == LastStage(o) - 2 && FollowsPipeline(added, 3)
  {
    var summarize := Summarize(transcript);
    match o.summary
    case Fail(_) =>
      added := [summarize];
    case Ok(summary) =>
      var rest := NotifyStageOrder(Note(Invoke(w, summarize), Info, SummaryGenerated), v, summary, o);
      FollowsPipelineCons(summarize, rest, 3);
      added := [summarize] + rest;
  }

  lemma NotifyStageOrder(w: World, v: VideoRef, summary: string, o: Outcomes) returns (added: seq<Call>)
    requires o.download.Ok? && o.transcript.Ok? && o.summary.Ok?
    ensures NotifyStage(w, v, summary, o).calls == w.calls + added
    ensures |added| == LastStage(o) - 3 && FollowsPipeline(added, 4)
  {
    var send := Send(SummaryMail(v, summary));
    if !o.delivery.Sent? {
      added := [send];
    } else {
      added := [send, SaveCheckpoint(v.id, v.title), RemoveAudio(AudioFileName(v.title))];
    }
  }

  /** The audio file is deleted only after the checkpoint is saved. A failed
      delete logs a warning, keeps the file, and does not undo the save. */
  lemma CleanupAfterSave(w: World, o: Outcomes)
    requires Delivers(o) && !SameVideo(o.latest.value.id, Checkpoint.Load(w.checkpoint))
    ensures var r := Run(w, o);
      var path := AudioFileName(o.latest.value.title);
      r.checkpoint == Some(Checkpoint.FormatLine(o.latest.value.id, o.latest.value.title)) &&
      r.calls[|r.calls| - 2] == SaveCheckpoint(o.latest.value.id, o.latest.value.title) &&
      r.calls[|r.calls| - 1] == RemoveAudio(path) &&
      LogEntry(Error, RunFailed) !in r.log[|w.log|..] &&
      (o.removal.Ok? ==> path !in r.audioFiles && r.audioFiles == w.audioFiles - {path}) &&
      (o.removal.Fail? ==>
         path in r.audioFiles && r.audioFiles == w.audioFiles + {path} &&
         r.log[|r.log| - 1] == LogEntry(Warning, DeleteFailed(o.removal.reason)))
  {
  }

  /** Deduplication: once a run has handled a video, the next run that sees
      the same latest id does nothing downstream. This relies on the checkpoint
      round trip, so it holds for ids with no comma, no carriage return and no
      surrounding whitespace, which is what YouTube video ids look like. */
  lemma SecondRunIsQuiet(w: World, o: Outcomes, next: Outcomes)
    requires Delivers(o)
    requires next.latest.Ok? && next.latest.value.id == o.latest.value.id
    requires ',' !in o.latest.value.id && '\r' !in o.latest.value.id
    requires Strip(o.latest.value.id) == o.latest.value.id
    ensures var r := Run(w, o);
      Run(r, next) == r.(calls := r.calls + [FetchLatest],
                         log := r.log + [LogEntry(Info, NoNewVideo)])
  {
    var v := o.latest.value;
    var r := Run(w, o);
    if !SameVideo(v.id, Checkpoint.Load(w.checkpoint)) {
      CheckpointOnlyAfterDelivery(w, o);
      Checkpoint.RoundTripPlain(v.id, v.title);
    }
    NoNewVideoIsQuiet(r, next);
  }

  /** A failed run leaves the next run to retry the same video: with the same
      latest upload it goes on to download it again. */
  lemma FailedRunIsRetried(w: World, o: Outcomes, next: Outcomes)
    requires o.latest.Ok? && !Delivers(o)
    requires !SameVideo(o.latest.value.id, Checkpoint.Load(w.checkpoint))
    requires next.latest == o.latest
    ensures var r := Run(w, o);
      var v := o.latest.value;
      |Run(r, next).calls| >= |r.calls| + 2 &&
      Run(r, next).calls[|r.calls| + 1] == Download(WatchUrl(v.id), AudioFileName(v.title))
  {
    CheckpointOnlyAfterDelivery(w, o);
    NewVideoIsDownloaded(Run(w, o), next);
  }

  /**
   * The machine `main` runs on: the checkpoint file's contents, the audio
   * files on disk, and the trace of calls, mails and log lines.
   */
  class Host {
    var checkpointFile: Option<string>
    var audioFiles: set<string>
    var calls: seq<Call>
    var outbox: seq<Email>
    var log: seq<LogEntry>

    function State(): World
      reads this
    {
      World(checkpointFile, audioFiles, calls, outbox, log)
    }

    constructor (w: World)
      ensures State() == w
    {
      checkpointFile := w.checkpoint;
      audioFiles := w.audioFiles;
      calls := w.calls;
      outbox := w.outbox;
      log := w.log;
    }

    method Log(level: Level, message: Message)
      modifies this`log
      ensures log == old(log) + [LogEntry(level, message)]
    {
      log := log + [LogEntry(level, message)];
    }

    /** `save_last_video_id`: the file is replaced by the one line, whatever
        it held before. */
    method SaveLastVideoId(id: string, title: string)
      modifies this`checkpointFile, this`calls
      ensures checkpointFile == Some(id + ",\t" + title)
      ensures calls == old(calls) + [SaveCheckpoint(id, title)]
    {
      calls := calls + [SaveCheckpoint(id, title)];
      checkpointFile := Some(Checkpoint.FormatLine(id, title));
    }

    /** `main`: one run, with the collaborators answering as `o` says. */
    method Execute(o: Outcomes)
      modifies this
      ensures State() == Run(old(State()), o)
    {
      var last := Checkpoint.Load(checkpointFile);
      calls := calls + [FetchLatest];
      if o.latest.Fail? {
        Log(Error, RunFailed);
        return;
      }
      var v := o.latest.value;
      if SameVideo(v.id, last) {
        Log(Info, NoNewVideo);
        return;
      }
      Log(Info, NewVideoDetected(v.title, v.id));
      RunFetch(v, o);
    }

    /** The rest of `main` from `download_audio` on. */
    method RunFetch(v: VideoRef, o: Outcomes)
      modifies this
      ensures State() == FetchStage(old(State()), v, o)
    {
      var audioFile := AudioFileName(v.title);
      calls := calls + [Download(WatchUrl(v.id), audioFile)];
      if o.download.Fail? {
        Log(Error, RunFailed);
        return;
      }
      audioFiles := audioFiles + {audioFile};
      Log(Info, AudioDownloaded);
      RunTranscribe(v, o);
    }

    /** The rest of `main` from `transcribe_audio` on. */
    method RunTranscribe(v: VideoRef, o: Outcomes)
      modifies this
      ensures State() == TranscribeStage(old(State()), v, o)
    {
      calls := calls + [Transcribe(AudioFileName(v.title))];
      if o.transcript.Fail? {
        Log(Error, RunFailed);
        return;
      }
      var transcript := o.transcript.value;
      Log(Info, TranscriptionComplete);
      RunSummarize(v, transcript, o);
    }

    /** The rest of `main` from `summarize_text` on. */
    method RunSummarize(v: VideoRef, transcript: string, o: Outcomes)
      modifies this
      ensures State() == SummarizeStage(old(State()), v, transcript, o)
    {
      calls := calls + [Summarize(transcript)];
      if o.summary.Fail? {
        Log(Error, RunFailed);
        return;
      }
      var summary := o.summary.value;
      Log(Info, SummaryGenerated);
      RunNotify(v, summary, o);
    }

    /** The rest of `main` from `send_email` on. */
    method RunNotify(v: VideoRef, summary: string, o: Outcomes)
      modifies this
      ensures State() == NotifyStage(old(State()), v, summary, o)
    {
      var email := SummaryMail(v, summary);
      calls := calls + [Send(email)];
      if !o.delivery.Refused? {
        outbox := outbox + [email];
      }
      if !o.delivery.Sent? {
        Log(Error, RunFailed);
        return;
      }
      Log(Info, SummarySent);
      RunPersist(v, o);
    }

    /** The end of `main`: save the checkpoint, then try to delete the audio. */
    method RunPersist(v: VideoRef, o: Outcomes)
      modifies this
      ensures State() == PersistStage(old(State()), v, o)
    {
      var audioFile := AudioFileName(v.title);
      SaveLastVideoId(v.id, v.title);
      Log(Info, VideoIdSaved);
      calls := calls + [RemoveAudio(audioFile)];
      if o.removal.Fail? {
        Log(Warning, DeleteFailed(o.removal.reason));
      } else {
        audioFiles := audioFiles - {audioFile};
        Log(Info, DeletedAudio(audioFile));
      }
    }
  }
}
