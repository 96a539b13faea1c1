/**
 * The inference worker's module scope: the `transcriber` slot and the
 * messages posted to the main thread so far, and the `message` handler that
 * updates them. `postMessage` is an append to `posted`; the library calls are
 * the `load` and `run` oracles of `WorkerProtocol`.
 */
module TranscriptionWorker {
  import opened Wrappers
  import opened WorkerProtocol

  class InferenceWorker {
    var transcriber: Option<Pipeline>
    var posted: seq<Event>

    /** Module start: the slot is empty and `initialized` is posted. */
    constructor ()
      ensures transcriber == None && posted == [Initialized]
    {
      transcriber := None;
      posted := [Initialized];
    }

    /** `ctx.postMessage`: the events reach the main thread in the order posted. */
    method Post(events: seq<Event>)
      modifies this`posted
      ensures posted == old(posted) + events
    {
      posted := posted + events;
    }

    /**
     * The loading half of the handler's `try` block: with an empty slot it
     * posts `initiate`, calls the loader (posting a progress event for each
     * download or init notification) and, if the loader returns, fills the
     * slot and posts `done` and `ready`. `thrown` is what the loader threw.
     */
    method EnsureLoaded(msg: Message, load: Loader) returns (thrown: Option<Thrown>)
      modifies this`transcriber, this`posted
      ensures transcriber == LoadAttempt(old(transcriber), msg, load).slot
      ensures posted == old(posted) + LoadAttempt(old(transcriber), msg, load).emitted
      ensures thrown == LoadAttempt(old(transcriber), msg, load).thrown
    {
      thrown := None;
      if transcriber.None? {
        Post([InitiateEvent(msg.model)]);
        var loading := load(LoadRequest(PipelineTask, msg.model, Device));
        Post(ProgressEvents(loading.notes, msg.model));
        match loading.result {
          case Err(e) =>
            thrown := Some(e);
          case Ok(p) =>
            transcriber := Some(p);
            Post([Done(msg.model)]);
            Post([Ready]);
        }
      }
    }

    /**
     * The transcribing half of the `try` block: calls the slot's pipeline
     * with the message's audio and options, posting each partial result,
     * and posts `complete` if the call returns. `thrown` is what it threw.
     */
    method Transcribe(msg: Message, run: Runner) returns (thrown: Option<Thrown>)
      requires transcriber.Some?
      modifies this`posted
      ensures posted == old(posted) + TranscribeAttempt(transcriber.value, msg, run).emitted
      ensures thrown == TranscribeAttempt(transcriber.value, msg, run).thrown
    {
      var result := run(transcriber.value, msg.audio, TranscribeOptions(msg));
      Post(UpdateEvents(result.updates));
      match result.result {
        case Err(e) =>
          thrown := Some(e);
        case Ok(r) =>
          thrown := None;
          Post([Complete(r)]);
      }
    }

    /**
     * The `message` handler: the two halves above inside one `try`, whose
     * `catch` posts whatever was thrown as one `error`.
     */
    method OnMessage(msg: Message, load: Loader, run: Runner)
      modifies this`transcriber, this`posted
      ensures transcriber == Handle(old(transcriber), msg, load, run).slot
      ensures posted == old(posted) + Handle(old(transcriber), msg, load, run).emitted
      ensures Protocol(posted[|old(posted)|..])
      ensures old(transcriber).Some? ==> transcriber == old(transcriber)
    {
      ghost var before, slot := posted, transcriber;
      ghost var l := LoadAttempt(slot, msg, load);
      var thrown := EnsureLoaded(msg, load);
      ghost var t := if thrown.None? then TranscribeAttempt(transcriber.value, msg, run) else l;
      if thrown.None? {
        thrown := Transcribe(msg, run);
      }
      if thrown.Some? {
        Post([Error(ErrorMessage(thrown.value))]);
      }
      ghost var h := Handle(slot, msg, load, run);
      if l.thrown.None? {
        assert h.emitted == l.emitted + (t.emitted + Caught(t.thrown));
        AppendAssociates(before, l.emitted, t.emitted, Caught(t.thrown));
      } else {
        assert h.emitted == l.emitted + Caught(l.thrown);
      }
      assert posted == before + h.emitted;
      HandleFollowsProtocol(slot, msg, load, run);
      assert posted[|before|..] == h.emitted;
    }
  }
}
