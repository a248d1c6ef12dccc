/**
 * The speech-recognition service (`internal/stt/service.go`): per-session audio buffers
 * filled from `audio.frame.>` messages, a scheduler that runs at most one transcription
 * per session and remembers a final requested meanwhile, and the transcript publication.
 * Each handler runs as one atomic step; the recogniser call between starting a job and
 * completing it is the caller's, and times are milliseconds supplied by the caller.
 */
module SttService {
  import opened Wrappers
  import opened Bytes
  import Config
  import Protocol
  import SttRecognizer

  /** `sessionState`; a zero `LastPartial` is `None`. */
  datatype SessionState = SessionState(buffer: seq<byte>, lastPartial: Option<int>, inflight: bool, pendingFinal: bool)

  /** A started transcription: the session, a snapshot of its audio, and whether it is final. */
  datatype Job = Job(sessionId: string, pcm: seq<byte>, final: bool)

  datatype Publication = Publication(subject: string, transcript: Protocol.Transcript)

  /**
   * `publishTranscript` up to the bus: nothing for empty text, otherwise a transcript on
   * the final or partial subject with `partial` the negation of `final`.
   */
  function TranscriptPublication(sessionId: string, text: string, confidence: real, final: bool): (p: Option<Publication>)
    ensures p.None? <==> text == ""
    ensures p.Some? ==> p.value.subject == (if final then Protocol.SubjectTranscriptFinal else Protocol.SubjectTranscriptPartial)
    ensures p.Some? ==> p.value.transcript == Protocol.Transcript(sessionId, text, !final, confidence)
  {
    if text == "" then None
    else
      var subject := if final then Protocol.SubjectTranscriptFinal else Protocol.SubjectTranscriptPartial;
      Some(Publication(subject, Protocol.Transcript(sessionId, text, !final, confidence)))
  }

  /**
   * Whether a partial is due for `state` at `now` with partials every `interval` ms: never
   * while a job runs, always for the first one, and afterwards only with a positive
   * interval that has fully elapsed since the last one.
   */
  predicate PartialDue(state: SessionState, interval: int, now: int) {
    !state.inflight &&
    (state.lastPartial.None? || (interval > 0 && now - state.lastPartial.value >= interval))
  }

  /** No partial while in flight; the first one always (when idle); none after it without a positive interval. */
  lemma PartialGating(state: SessionState, interval: int, now: int)
    ensures state.inflight ==> !PartialDue(state, interval, now)
    ensures !state.inflight && state.lastPartial.None? ==> PartialDue(state, interval, now)
    ensures state.lastPartial.Some? && interval <= 0 ==> !PartialDue(state, interval, now)
  {
  }

  /** The session after a frame's PCM is appended; a first frame creates it. */
  function Appended(sessions: map<string, SessionState>, frame: Protocol.AudioFrame): (state: SessionState)
    ensures frame.sessionId in sessions ==> state == sessions[frame.sessionId].(buffer := sessions[frame.sessionId].buffer + frame.pcm)
    ensures frame.sessionId !in sessions ==> state == SessionState(frame.pcm, None, false, false)
  {
    var previous := if frame.sessionId in sessions then sessions[frame.sessionId] else SessionState([], None, false, false);
    previous.(buffer := previous.buffer + frame.pcm)
  }

  class Service {
    const cfg: Config.SttConfig
    var sessions: map<string, SessionState>

    /** `NewService`: no sessions yet. */
    constructor (cfg: Config.SttConfig)
      ensures this.cfg == cfg && sessions == map[]
    {
      this.cfg := cfg;
      sessions := map[];
    }

    /**
     * `shouldSchedulePartial`: for a known session, decide whether a partial is due and,
     * when it is, stamp `LastPartial` with `now`. Nothing else changes.
     */
    method ShouldSchedulePartial(sessionId: string, now: int) returns (due: bool)
      modifies this
      ensures due <==> sessionId in old(sessions) && PartialDue(old(sessions)[sessionId], cfg.partialEveryMs, now)
      ensures due ==> sessions == old(sessions)[sessionId := old(sessions)[sessionId].(lastPartial := Some(now))]
      ensures !due ==> sessions == old(sessions)
    {
      if sessionId !in sessions {
        return false;
      }
      var state := sessions[sessionId];
      if state.inflight {
        return false;
      }
      if state.lastPartial.None? {
        sessions := sessions[sessionId := state.(lastPartial := Some(now))];
        return true;
      }
      var interval := cfg.partialEveryMs;
      if interval <= 0 {
        return false;
      }
      if now - state.lastPartial.value >= interval {
        sessions := sessions[sessionId := state.(lastPartial := Some(now))];
        return true;
      }
      return false;
    }

    /**
     * `scheduleTranscription` up to the goroutine: an unknown session starts nothing; a
     * session with a job in flight starts nothing but remembers a final request; otherwise
     * a job starts on a snapshot of the whole buffer and the session is marked in flight.
     */
    method ScheduleTranscription(sessionId: string, final: bool) returns (job: Option<Job>)
      modifies this
      ensures sessionId !in old(sessions) ==> job.None? && sessions == old(sessions)
      ensures sessionId in old(sessions) && old(sessions)[sessionId].inflight ==>
        job.None? &&
        sessions == old(sessions)[sessionId := old(sessions)[sessionId].(pendingFinal := old(sessions)[sessionId].pendingFinal || final)]
      ensures sessionId in old(sessions) && !old(sessions)[sessionId].inflight ==>
        job == Some(Job(sessionId, old(sessions)[sessionId].buffer, final)) &&
        sessions == old(sessions)[sessionId := old(sessions)[sessionId].(inflight := true)]
    {
      if sessionId !in sessions {
        return None;
      }
      var state := sessions[sessionId];
      if state.inflight {
        if final {
          sessions := sessions[sessionId := state.(pendingFinal := true)];
        }
        return None;
      }
      sessions := sessions[sessionId := state.(inflight := true)];
      return Some(Job(sessionId, state.buffer, final));
    }

    /**
     * `handleFrame` on a decoded frame: append its PCM to the session (created on its first
     * frame), then request a partial when interim results are on and the frame is not
     * final, and a final when it is. Returns the jobs started, in order.
     */
    method HandleFrame(frame: Protocol.AudioFrame, now: int) returns (started: seq<Job>)
      modifies this
      ensures var appended := Appended(old(sessions), frame);
        if cfg.publishInterim && !frame.final then
          if PartialDue(appended, cfg.partialEveryMs, now) then
            started == [Job(frame.sessionId, appended.buffer, false)] &&
            sessions == old(sessions)[frame.sessionId := appended.(lastPartial := Some(now), inflight := true)]
          else
            started == [] && sessions == old(sessions)[frame.sessionId := appended]
        else if frame.final then
          if appended.inflight then
            started == [] && sessions == old(sessions)[frame.sessionId := appended.(pendingFinal := true)]
          else
            started == [Job(frame.sessionId, appended.buffer, true)] &&
            sessions == old(sessions)[frame.sessionId := appended.(inflight := true)]
        else
          started == [] && sessions == old(sessions)[frame.sessionId := appended]
    {
      sessions := sessions[frame.sessionId := Appended(sessions, frame)];
      started := [];
      if cfg.publishInterim && !frame.final {
        var due := ShouldSchedulePartial(frame.sessionId, now);
        if due {
          var job := ScheduleTranscription(frame.sessionId, false);
          if job.Some? {
            started := started + [job.value];
          }
        }
      }
      if frame.final {
        var job := ScheduleTranscription(frame.sessionId, true);
        if job.Some? {
          started := started + [job.value];
        }
      }
    }

    /**
     * The end of the transcription goroutine for `job`: publish a successful non-empty
     * result; then, if the session still exists, clear `Inflight`, stamp `LastPartial`
     * after a partial and remove the session after a final; and when a final was requested
     * during a partial, start it.
     */
    method CompleteTranscription(job: Job, result: Result<SttRecognizer.TranscriptResult>, now: int)
      returns (publication: Option<Publication>, next: Option<Job>)
      modifies this
      ensures result.Err? ==> publication.None?
      ensures result.Ok? ==> publication == TranscriptPublication(job.sessionId, result.value.text, result.value.confidence, job.final)
      ensures job.final ==> job.sessionId !in sessions && next.None?
      ensures job.final ==> sessions == old(sessions) - {job.sessionId}
      ensures !job.final && job.sessionId in old(sessions) && old(sessions)[job.sessionId].pendingFinal ==>
        next == Some(Job(job.sessionId, old(sessions)[job.sessionId].buffer, true)) &&
        sessions == old(sessions)[job.sessionId := old(sessions)[job.sessionId].(lastPartial := Some(now), inflight := true)]
      ensures !job.final && job.sessionId in old(sessions) && !old(sessions)[job.sessionId].pendingFinal ==>
        next.None? &&
        sessions == old(sessions)[job.sessionId := old(sessions)[job.sessionId].(lastPartial := Some(now), inflight := false)]
      ensures job.sessionId !in old(sessions) ==> next.None? && sessions == old(sessions)
    {
      publication := None;
      if result.Ok? {
        publication := TranscriptPublication(job.sessionId, result.value.text, result.value.confidence, job.final);
      }
      var pendingFinal := false;
      if job.sessionId in sessions {
        var state := sessions[job.sessionId].(inflight := false);
        pendingFinal := state.pendingFinal;
        if !job.final {
          state := state.(lastPartial := Some(now));
        }
        sessions := sessions[job.sessionId := state];
        if job.final {
          sessions := sessions - {job.sessionId};
        }
      }
      next := None;
      if pendingFinal && !job.final {
        next := ScheduleTranscription(job.sessionId, true);
      }
    }
  }

  /**
   * A final frame arriving while a partial runs is not lost: it starts nothing at once,
   * and when the partial completes a final starts on all the audio, including the final
   * frame's; completing that final removes the session.
   */
  method FinalDuringPartial(cfg: Config.SttConfig, id: string, first: seq<byte>, last: seq<byte>)
    returns (partial: seq<Job>, onFinalFrame: seq<Job>, final: Option<Job>, remaining: map<string, SessionState>)
    requires cfg.publishInterim
    ensures |partial| == 1 && partial[0] == Job(id, first, false)
    ensures onFinalFrame == []
    ensures final == Some(Job(id, first + last, true))
    ensures remaining == map[]
  {
    var service := new Service(cfg);
    partial := service.HandleFrame(Protocol.AudioFrame(id, 0, 16000, 1, first, false), 0);
    onFinalFrame := service.HandleFrame(Protocol.AudioFrame(id, 1, 16000, 1, last, true), 10);
    var _, next := service.CompleteTranscription(partial[0], Ok(SttRecognizer.TranscriptResult("hi", 0.0)), 20);
    final := next;
    var _, after := service.CompleteTranscription(next.value, Ok(SttRecognizer.TranscriptResult("hi", 0.0)), 30);
    remaining := service.sessions;
  }
}
