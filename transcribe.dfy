// The transcription endpoint: which requests it turns away, and how it moves
// a video's transcription status from nothing (or ERROR) through PROCESSING
// to COMPLETE or ERROR while it merges the audio, has it recognised and
// uploads the captions. The database, storage, the merge service and the
// recogniser are outside the model; the outcome of each call is a parameter.
module Transcription {
  import opened Wrappers
  import opened WebVtt

  /** The values of a video's `transcriptionStatus` column besides null. */
  datatype Status = Processing | Complete | Error

  /** A JSON response: its HTTP status, whether the body carries `error: true`, and its message. */
  datatype Response = Response(code: nat, error: bool, message: string)

  /**
   * How the handler ends: with a response of its own, or by throwing where
   * no `catch` surrounds the call, leaving the answer to the framework's
   * generic error page.
   */
  datatype Reply = Answered(response: Response) | Thrown

  const MISSING_ENV := Response(500, true, "Missing necessary environment variables")
  const MISSING_IDS := Response(401, true, "userId or videoId not supplied")
  const NO_VIDEO := Response(401, true, "Video does not exist")
  const ALREADY := Response(200, false, "Transcription already completed or in progress")
  const UPLOADED := Response(200, false, "VTT file generated and uploaded successfully")
  const FAILED := Response(500, true, "Error processing audio files")

  /**
   * What the outside services do for one request, in the order the handler
   * calls them: whether the video lookup succeeds, whether the PROCESSING
   * update succeeds, whether the bucket and its client are set up, whether
   * listing and presigning the audio segments succeeds, the merge service's
   * HTTP status, the recogniser's utterances (None when it reports an
   * error), whether the caption upload succeeds, and whether the COMPLETE
   * and the ERROR updates succeed.
   */
  datatype Services = Services(queryOk: bool, processingWriteOk: bool, clientOk: bool,
                               storageOk: bool, mergeStatus: int, recognised: Option<seq<seq<Word>>>, uploadOk: bool,
                               completeWriteOk: bool, errorWriteOk: bool)

  /** Where the captions of a video are stored. */
  function CaptionsKey(userId: string, videoId: string): string
  {
    userId + "/" + videoId + "/transcription.vtt"
  }

  /**
   * The answer given before any work starts, or None when the request goes
   * ahead: missing configuration, a missing id, an unknown video, or a video
   * whose transcription is already complete or running.
   */
  function Refusal(envComplete: bool, userId: string, videoId: string, statuses: map<string, Option<Status>>): (r: Option<Response>)
    ensures r.None? <==>
      envComplete && userId != "" && videoId != "" && videoId in statuses &&
      statuses[videoId] != Some(Complete) && statuses[videoId] != Some(Processing)
    ensures !envComplete ==> r == Some(MISSING_ENV)
    ensures envComplete && (userId == "" || videoId == "") ==> r == Some(MISSING_IDS)
    ensures envComplete && userId != "" && videoId != "" && videoId !in statuses ==> r == Some(NO_VIDEO)
    ensures r.Some? && r.value.code == 200 ==>
      videoId in statuses && (statuses[videoId] == Some(Complete) || statuses[videoId] == Some(Processing))
  {
    if !envComplete then Some(MISSING_ENV)
    else if userId == "" || videoId == "" then Some(MISSING_IDS)
    else if videoId !in statuses then Some(NO_VIDEO)
    else if statuses[videoId] == Some(Complete) || statuses[videoId] == Some(Processing) then Some(ALREADY)
    else None
  }

  /** Whether merging, recognising and formatting all succeed, so that there are captions to upload. */
  predicate Recognised(s: Services)
  {
    s.storageOk && s.mergeStatus == 200 && s.recognised.Some? && !HasEmptyUtterance(s.recognised.value)
  }

  /**
   * The captions a request that went ahead produces, or None when any step
   * throws: storage fails, the merge service answers other than 200, the
   * recogniser reports an error (an empty transcription), an utterance has
   * no words, or the upload fails.
   */
  function Captions(s: Services): (r: Option<string>)
    ensures r.Some? <==>
      s.storageOk && s.mergeStatus == 200 && s.recognised.Some? && !HasEmptyUtterance(s.recognised.value) && s.uploadOk
    ensures r.Some? ==> r == WebVttFile(s.recognised.value) && r.value != ""
  {
    if Recognised(s) && s.uploadOk then
      var file := WebVttFile(s.recognised.value);
      assert file.value[..|HEADER|] == HEADER;
      file
    else None
  }

  /**
   * The steps between marking the video PROCESSING and uploading: the
   * captions, or "" when storage or the merge service fails, the
   * recogniser reports an error, or an utterance has no words (which
   * throws while formatting).
   */
  method Transcribe(s: Services) returns (t: string)
    ensures Recognised(s) ==> Some(t) == WebVttFile(s.recognised.value) && t != ""
    ensures !Recognised(s) ==> t == ""
  {
    t := "";
    if s.storageOk && s.mergeStatus == 200 && s.recognised.Some? {
      var file := FormatToWebVtt(s.recognised.value);
      if file.Some? {
        assert file.value[..|HEADER|] == HEADER;
        t := file.value;
      }
    }
  }

  /**
   * The answer given before any work starts, or None when the request goes
   * ahead: the configuration and id checks, then the video lookup (which
   * throws when the database fails), then the status checks.
   */
  function Early(envComplete: bool, userId: string, videoId: string, statuses: map<string, Option<Status>>, queryOk: bool): (r: Option<Reply>)
    ensures r.None? <==> queryOk && Refusal(envComplete, userId, videoId, statuses).None?
    ensures r == Some(Thrown) <==> envComplete && userId != "" && videoId != "" && !queryOk
    ensures r.Some? && r.value.Answered? ==> Refusal(envComplete, userId, videoId, statuses) == Some(r.value.response)
  {
    if !envComplete || userId == "" || videoId == "" then Some(Answered(Refusal(envComplete, userId, videoId, statuses).value))
    else if !queryOk then Some(Thrown)
    else
      match Refusal(envComplete, userId, videoId, statuses)
      case Some(a) => Some(Answered(a))
      case None => None
  }

  /** The captions reach storage: PROCESSING was written, the client was set up, and recognition and upload succeeded. */
  predicate Stored(s: Services)
  {
    s.processingWriteOk && s.clientOk && Captions(s).Some?
  }

  /** The whole run succeeds: the captions are stored and the COMPLETE update succeeds. */
  predicate Completed(s: Services)
  {
    Stored(s) && s.completeWriteOk
  }

  /**
   * The status a request that went ahead leaves behind, or None when even the
   * PROCESSING update failed. A failure inside the `try` (including the
   * COMPLETE update) is caught and written as ERROR; a failure outside it
   * (the bucket set-up, or the ERROR update itself) leaves PROCESSING.
   */
  function Settled(s: Services): (r: Option<Status>)
    ensures r.None? <==> !s.processingWriteOk
    ensures r == Some(Complete) <==> Completed(s)
    ensures r == Some(Error) <==> s.processingWriteOk && s.clientOk && !Completed(s) && s.errorWriteOk
    ensures r == Some(Processing) <==> s.processingWriteOk && (!s.clientOk || (!Completed(s) && !s.errorWriteOk))
    ensures s.processingWriteOk && s.clientOk && s.errorWriteOk ==> r != Some(Processing)
  {
    if !s.processingWriteOk then None
    else if Completed(s) then Some(Complete)
    else if s.clientOk && s.errorWriteOk then Some(Error)
    else Some(Processing)
  }

  /**
   * The handler's reply for a request that went ahead. It tells what the
   * database holds: UPLOADED exactly when COMPLETE, the failure answer
   * exactly when ERROR, and a throw otherwise.
   */
  function Outcome(s: Services): (r: Reply)
    ensures r == Answered(UPLOADED) <==> Settled(s) == Some(Complete)
    ensures r == Answered(FAILED) <==> Settled(s) == Some(Error)
    ensures r == Thrown <==> Settled(s).None? || Settled(s) == Some(Processing)
    ensures r == Answered(UPLOADED) ==> Captions(s).Some? && Stored(s)
  {
    if Completed(s) then Answered(UPLOADED)
    else if s.processingWriteOk && s.clientOk && s.errorWriteOk then Answered(FAILED)
    else Thrown
  }

  /** The status updates that succeed, in order. */
  function Writes(videoId: string, s: Services): (w: seq<(string, Status)>)
  {
    if !s.processingWriteOk then []
    else [(videoId, Processing)] + (if Settled(s).value == Processing then [] else [(videoId, Settled(s).value)])
  }

  /**
   * The application's database and bucket as the endpoint sees them: each
   * video's transcription status (null as None), the stored objects by
   * key, and every status write in order.
   */
  class Backend {
    var statuses: map<string, Option<Status>>
    var objects: map<string, string>
    var statusWrites: seq<(string, Status)>
    const envComplete: bool

    constructor (envComplete: bool, statuses: map<string, Option<Status>>, objects: map<string, string>)
      ensures this.envComplete == envComplete && this.statuses == statuses && this.objects == objects
      ensures statusWrites == []
    {
      this.envComplete := envComplete;
      this.statuses := statuses;
      this.objects := objects;
      statusWrites := [];
    }

    /** `UPDATE videos SET transcriptionStatus = status WHERE id = videoId`: a no-op on the row set when no video has that id. */
    method SetStatus(videoId: string, status: Status)
      modifies this
      ensures statuses == if videoId in old(statuses) then old(statuses)[videoId := Some(status)] else old(statuses)
      ensures statusWrites == old(statusWrites) + [(videoId, status)]
      ensures objects == old(objects)
    {
      if videoId in statuses {
        statuses := statuses[videoId := Some(status)];
      }
      statusWrites := statusWrites + [(videoId, status)];
    }

    /**
     * `GET /api/video/transcribe`: a request answered early changes nothing;
     * otherwise the video goes through PROCESSING to the status `Settled`
     * names, with the captions stored when they reached storage.
     */
    method Get(userId: string, videoId: string, s: Services) returns (reply: Reply)
      modifies this
      ensures var early := Early(envComplete, userId, videoId, old(statuses), s.queryOk);
        early.Some? ==>
          reply == early.value && statuses == old(statuses) && objects == old(objects) &&
          statusWrites == old(statusWrites)
      ensures Early(envComplete, userId, videoId, old(statuses), s.queryOk).None? ==>
        reply == Outcome(s) &&
        statuses == (if Settled(s).Some? then old(statuses)[videoId := Settled(s)] else old(statuses)) &&
        objects == (if Stored(s) then old(objects)[CaptionsKey(userId, videoId) := Captions(s).value] else old(objects)) &&
        statusWrites == old(statusWrites) + Writes(videoId, s)
    {
      var early := Early(envComplete, userId, videoId, statuses, s.queryOk);
      if early.Some? {
        return early.value;
      }
      reply := Proceed(userId, videoId, s);
    }

    /** The part of `Get` after the guards: PROCESSING, then the captions and COMPLETE, or ERROR, or a throw. */
    method Proceed(userId: string, videoId: string, s: Services) returns (reply: Reply)
      requires videoId in statuses
      modifies this
      ensures reply == Outcome(s)
      ensures statuses == if Settled(s).Some? then old(statuses)[videoId := Settled(s)] else old(statuses)
      ensures objects == if Stored(s) then old(objects)[CaptionsKey(userId, videoId) := Captions(s).value] else old(objects)
      ensures statusWrites == old(statusWrites) + Writes(videoId, s)
    {
      if !s.processingWriteOk {
        return Thrown;
      }
      SetStatus(videoId, Processing);
      if !s.clientOk {
        return Thrown;
      }
      var transcription := Transcribe(s);
      CaptionsAreTranscript(s, transcription);
      if transcription != "" && s.uploadOk {
        objects := objects[CaptionsKey(userId, videoId) := transcription];
        if s.completeWriteOk {
          SetStatus(videoId, Complete);
          return Answered(UPLOADED);
        }
      }
      if !s.errorWriteOk {
        return Thrown;
      }
      SetStatus(videoId, Error);
      return Answered(FAILED);
    }
  }

  /** The uploaded captions are the transcript, and there are none exactly when the transcript is empty or the upload fails. */
  lemma {:induction false} CaptionsAreTranscript(s: Services, t: string)
    requires Recognised(s) ==> Some(t) == WebVttFile(s.recognised.value) && t != ""
    requires !Recognised(s) ==> t == ""
    ensures Captions(s).None? <==> t == "" || !s.uploadOk
    ensures Captions(s).Some? ==> Captions(s).value == t
  {
  }

  /** The status map a request that went ahead leaves behind. */
  function After(statuses: map<string, Option<Status>>, videoId: string, s: Services): (m: map<string, Option<Status>>)
    ensures m.Keys == statuses.Keys
    ensures videoId in statuses ==> m[videoId] == if Settled(s).Some? then Settled(s) else statuses[videoId]
    ensures forall k :: k in statuses && k != videoId ==> m[k] == statuses[k]
  {
    if Settled(s).Some? && videoId in statuses then statuses[videoId := Settled(s)] else statuses
  }

  /**
   * Once a request has gone ahead, a repeat is refused with "already" if it
   * succeeded or left the video PROCESSING, and goes ahead again if it
   * failed cleanly or never wrote a status.
   */
  lemma {:induction false} RepeatAfterSettled(envComplete: bool, userId: string, videoId: string,
                                              statuses: map<string, Option<Status>>, s: Services)
    requires Refusal(envComplete, userId, videoId, statuses).None?
    ensures var after := After(statuses, videoId, s);
      (Settled(s) == Some(Complete) || Settled(s) == Some(Processing) ==> Refusal(envComplete, userId, videoId, after) == Some(ALREADY)) &&
      (Settled(s).None? || Settled(s) == Some(Error) ==> Refusal(envComplete, userId, videoId, after).None?)
  {
    var after := After(statuses, videoId, s);
    assert videoId in after;
    assert Settled(s).Some? ==> after[videoId] == Settled(s);
  }

  /** A video left PROCESSING by a throw refuses every later request as already in progress: nothing in the endpoint clears it. */
  lemma {:induction false} StuckStaysProcessing(envComplete: bool, userId: string, videoId: string,
                                                statuses: map<string, Option<Status>>, s: Services)
    requires Refusal(envComplete, userId, videoId, statuses).None?
    requires s.processingWriteOk && !s.clientOk
    ensures Outcome(s) == Thrown
    ensures Refusal(envComplete, userId, videoId, After(statuses, videoId, s)) == Some(ALREADY)
  {
    var after := After(statuses, videoId, s);
    assert after[videoId] == Some(Processing);
  }

  /** While a request is running (status PROCESSING), every other request for the video is refused without a write. */
  lemma {:induction false} RunningIsExclusive(envComplete: bool, userId: string, videoId: string, statuses: map<string, Option<Status>>)
    requires Refusal(envComplete, userId, videoId, statuses).None?
    ensures Refusal(envComplete, userId, videoId, statuses[videoId := Some(Processing)]) == Some(ALREADY)
  {
    assert statuses[videoId := Some(Processing)][videoId] == Some(Processing);
  }
}
