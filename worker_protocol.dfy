/**
 * The message protocol of the inference worker: the status events it posts,
 * what one incoming message produces from the current `transcriber` slot,
 * and what a run of messages produces.
 *
 * The speech-recognition library is an oracle: `load` stands for the
 * `pipeline(...)` constructor (the progress notifications it delivers and
 * whether it returns a pipeline or throws), `run` for a call of the loaded
 * pipeline (the partial results it delivers and whether it returns a result
 * or throws). Each message is handled to completion before the next.
 */
module WorkerProtocol {
  import opened Wrappers

  type Audio = seq<real>

  /** Data the library hands back (a partial or a complete result); passed through untouched. */
  datatype Payload = Payload(text: string)

  /** A loaded pipeline, the value stored in the `transcriber` slot. */
  datatype Pipeline = Pipeline(handle: nat)

  /** The fields of an incoming message the worker uses (`multilingual` and `quantized` are unused). */
  datatype Message = Message(audio: Audio, model: string, subtask: Option<string>, language: Option<string>)

  /** A value thrown by the library: an `Error` object or anything else. */
  datatype Thrown = ErrorObject(message: string) | OtherValue(asString: string)

  /** A notification passed to `progress_callback`; `loaded` and `total` are the download byte counts. */
  datatype LoaderNote = LoaderNote(status: string, loaded: int, total: int)

  /** The arguments of the `pipeline(task, model, { device })` call. */
  datatype LoadRequest = LoadRequest(task: string, model: string, device: string)

  datatype LoadOutcome = LoadOutcome(notes: seq<LoaderNote>, result: Result<Pipeline, Thrown>)

  /** The options object of a transcription call. */
  datatype Options = Options(task: string, language: Option<string>, chunkLengthS: nat, strideLengthS: nat, returnTimestamps: bool)

  datatype RunOutcome = RunOutcome(updates: seq<Payload>, result: Result<Payload, Thrown>)

  type Loader = LoadRequest -> LoadOutcome
  type Runner = (Pipeline, Audio, Options) -> RunOutcome

  /** The messages the worker posts, one constructor per `status`. */
  datatype Event =
    | Initialized
    | Initiate(file: string, name: string, loaded: int, progress: int, total: int)
    | DownloadProgress(file: string, loaded: int, total: int)
    | InitProgress(file: string)
    | Done(file: string)
    | Ready
    | Update(data: Payload)
    | Complete(data: Payload)
    | Error(message: string)

  /** Part of a `try` block: the slot after it, what it posted, and what it threw, if anything. */
  datatype Attempt = Attempt(slot: Option<Pipeline>, emitted: seq<Event>, thrown: Option<Thrown>)

  /** The state of the worker's module scope after a message, and what it posted. */
  datatype Step = Step(slot: Option<Pipeline>, emitted: seq<Event>)

  /** One incoming message together with the library's behaviour while handling it. */
  datatype Delivery = Delivery(msg: Message, load: Loader, run: Runner)

  const PipelineTask: string := "automatic-speech-recognition"
  const Device: string := "webgpu"
  const DefaultTask: string := "transcribe"
  const ChunkLengthS: nat := 30
  const StrideLengthS: nat := 5

  // ---------------------------------------------------------------------
  // The handler, as a function of the slot and the message.
  // ---------------------------------------------------------------------

  /** `subtask || "transcribe"`: a missing or empty subtask falls back to the default. */
  function Task(subtask: Option<string>): (t: string)
    ensures t != ""
    ensures t == DefaultTask || subtask == Some(t)
    ensures subtask.Some? && subtask.value != "" ==> t == subtask.value
  {
    if subtask.Some? && subtask.value != "" then subtask.value else DefaultTask
  }

  /** The options of the transcription call: fixed chunking, timestamps on. */
  function TranscribeOptions(msg: Message): (o: Options)
    ensures o.chunkLengthS == 30 && o.strideLengthS == 5 && o.returnTimestamps
    ensures o.task == Task(msg.subtask) && o.language == msg.language
  {
    Options(Task(msg.subtask), msg.language, ChunkLengthS, StrideLengthS, true)
  }

  /** The `message` field of the error payload. */
  function ErrorMessage(e: Thrown): (m: string)
    ensures e.ErrorObject? ==> m == e.message
    ensures e.OtherValue? ==> m == e.asString
  {
    match e
    case ErrorObject(m) => m
    case OtherValue(s) => s
  }

  /** What `progress_callback` posts for one loader notification. */
  function ProgressEvent(n: LoaderNote, model: string): seq<Event>
  {
    if n.status == "download" then [DownloadProgress(model, n.loaded, n.total)]
    else if n.status == "init" then [InitProgress(model)]
    else []
  }

  /** What `progress_callback` posts for a run of loader notifications. */
  function ProgressEvents(notes: seq<LoaderNote>, model: string): (es: seq<Event>)
    ensures |es| <= |notes|
    ensures forall k :: 0 <= k < |es| ==> IsProgress(es[k]) && es[k].file == model
  {
    if notes == [] then [] else ProgressEvent(notes[0], model) + ProgressEvents(notes[1..], model)
  }

  /** What `callback_function` posts for a run of partial results. */
  function UpdateEvents(updates: seq<Payload>): (es: seq<Event>)
    ensures |es| == |updates|
    ensures forall k :: 0 <= k < |es| ==> es[k] == Update(updates[k])
  {
    if updates == [] then [] else [Update(updates[0])] + UpdateEvents(updates[1..])
  }

  /** The `initiate` event posted before a load. */
  function InitiateEvent(model: string): (e: Event)
    ensures e.Initiate? && e.file == model && e.name == "Model"
    ensures e.loaded == 0 && e.progress == 0 && e.total == 100
  {
    Initiate(model, "Model", 0, 0, 100)
  }

  /**
   * The loading half of the handler's `try` block: nothing with a filled
   * slot; otherwise `initiate`, the progress events, and either a filled
   * slot with `done` and `ready` or the value the loader threw.
   */
  function LoadAttempt(slot: Option<Pipeline>, msg: Message, load: Loader): (a: Attempt)
    ensures slot.Some? ==> a == Attempt(slot, [], None)
    ensures a.thrown.None? ==> a.slot.Some?
    ensures a.thrown.Some? ==> a.slot == None
  {
    if slot.Some? then Attempt(slot, [], None)
    else
      var outcome := load(LoadRequest(PipelineTask, msg.model, Device));
      var loading := [InitiateEvent(msg.model)] + ProgressEvents(outcome.notes, msg.model);
      match outcome.result
      case Err(e) => Attempt(None, loading, Some(e))
      case Ok(p) => Attempt(Some(p), loading + [Done(msg.model), Ready], None)
  }

  /**
   * The transcribing half of the `try` block: the partial results, then
   * `complete` if the call returns, or the value it threw.
   */
  function TranscribeAttempt(p: Pipeline, msg: Message, run: Runner): (a: Attempt)
    ensures a.slot == Some(p)
    ensures a.thrown.None? <==> run(p, msg.audio, TranscribeOptions(msg)).result.Ok?
    ensures a.thrown.None? ==>
      |a.emitted| > 0 && a.emitted[|a.emitted| - 1] == Complete(run(p, msg.audio, TranscribeOptions(msg)).result.value)
    ensures a.thrown.Some? ==> a.thrown.value == run(p, msg.audio, TranscribeOptions(msg)).result.error
  {
    var outcome := run(p, msg.audio, TranscribeOptions(msg));
    match outcome.result
    case Ok(r) => Attempt(Some(p), UpdateEvents(outcome.updates) + [Complete(r)], None)
    case Err(e) => Attempt(Some(p), UpdateEvents(outcome.updates), Some(e))
  }

  /** What the `catch` block posts. */
  function Caught(thrown: Option<Thrown>): (es: seq<Event>)
    ensures thrown.None? ==> es == []
    ensures thrown.Some? ==> |es| == 1 && es[0].Error? && es[0].message == ErrorMessage(thrown.value)
  {
    if thrown.Some? then [Error(ErrorMessage(thrown.value))] else []
  }

  /** The transcription call on a loaded pipeline, with its terminal event. */
  function TranscribeEvents(p: Pipeline, msg: Message, run: Runner): seq<Event>
  {
    var t := TranscribeAttempt(p, msg, run);
    t.emitted + Caught(t.thrown)
  }

  /** The handler of one message, from the slot it finds to the slot it leaves and what it posts. */
  function Handle(slot: Option<Pipeline>, msg: Message, load: Loader, run: Runner): (s: Step)
    ensures s.slot.Some? <==> slot.Some? || load(LoadRequest(PipelineTask, msg.model, Device)).result.Ok?
    ensures slot.Some? ==> s.slot == slot
    ensures |s.emitted| > 0
  {
    var l := LoadAttempt(slot, msg, load);
    if l.thrown.Some? then Step(l.slot, l.emitted + Caught(l.thrown))
    else Step(l.slot, l.emitted + TranscribeEvents(l.slot.value, msg, run))
  }

  lemma AppendAssociates(a: seq<Event>, b: seq<Event>, c: seq<Event>, d: seq<Event>)
    ensures a + b + c + d == a + (b + (c + d))
  {
  }

  /** A run of messages, handled one after the other. */
  function Run(slot: Option<Pipeline>, ds: seq<Delivery>): (s: Step)
    ensures slot.Some? ==> s.slot == slot
    ensures |s.emitted| >= |ds|
    decreases |ds|
  {
    if ds == [] then Step(slot, [])
    else
      var first := Handle(slot, ds[0].msg, ds[0].load, ds[0].run);
      var rest := Run(first.slot, ds[1..]);
      Step(rest.slot, first.emitted + rest.emitted)
  }

  // ---------------------------------------------------------------------
  // The protocol, as an automaton over adjacent events.
  // ---------------------------------------------------------------------

  predicate Terminal(e: Event)
  {
    e.Complete? || e.Error?
  }

  predicate IsProgress(e: Event)
  {
    e.DownloadProgress? || e.InitProgress?
  }

  /** The events a message's output may start with. */
  predicate CanStart(e: Event)
  {
    e.Initiate? || e.Update? || Terminal(e)
  }

  /** `b` may directly follow `a` in one message's output. */
  predicate Follows(a: Event, b: Event)
  {
    match a
    case Initiate(_, _, _, _, _) => IsProgress(b) || b.Done? || b.Error?
    case DownloadProgress(_, _, _) => IsProgress(b) || b.Done? || b.Error?
    case InitProgress(_) => IsProgress(b) || b.Done? || b.Error?
    case Done(_) => b.Ready?
    case Ready => b.Update? || Terminal(b)
    case Update(_) => b.Update? || Terminal(b)
    case _ => false
  }

  /** One message's output: `initiate progress* (error | done ready update* terminal)` when loading, `update* terminal` otherwise. */
  predicate Protocol(es: seq<Event>)
  {
    |es| > 0 && CanStart(es[0]) && Terminal(es[|es| - 1]) &&
    forall k :: 0 <= k < |es| - 1 ==> Follows(es[k], es[k + 1])
  }

  /** The position of an event in the protocol: load events, then results, then the end. */
  function Phase(e: Event): nat
  {
    match e
    case Initialized => 0
    case Initiate(_, _, _, _, _) => 1
    case DownloadProgress(_, _, _) => 2
    case InitProgress(_) => 2
    case Done(_) => 3
    case Ready => 4
    case Update(_) => 5
    case Complete(_) => 6
    case Error(_) => 6
  }

  /** Events that may occur more than once in one message's output. */
  predicate Repeatable(e: Event)
  {
    IsProgress(e) || e.Update?
  }

  // ---------------------------------------------------------------------
  // Lemmas about the automaton.
  // ---------------------------------------------------------------------

  /** A step of the automaton never goes back a phase, and stays in a phase only on a repeatable event. */
  lemma FollowsAdvances(a: Event, b: Event)
    requires Follows(a, b)
    ensures Phase(a) < Phase(b) || (Phase(a) == Phase(b) && Repeatable(a) && Repeatable(b))
  {
  }

  /**
   * In a protocol word the phases never decrease, a phase is repeated only
   * by progress and update events, and so `initiate`, `done` and `ready`
   * occur at most once each and come before every `update` and the
   * terminal event; the terminal event is the last and only one.
   */
  lemma {:induction false} ProtocolOrdered(es: seq<Event>)
    requires Protocol(es)
    ensures forall i, j :: 0 <= i < j < |es| ==>
      Phase(es[i]) < Phase(es[j]) || (Phase(es[i]) == Phase(es[j]) && Repeatable(es[i]))
    ensures forall i :: 0 <= i < |es| - 1 ==> !Terminal(es[i])
    ensures Initialized !in es
  {
    forall i, j | 0 <= i < j < |es|
      ensures Phase(es[i]) < Phase(es[j]) || (Phase(es[i]) == Phase(es[j]) && Repeatable(es[i]))
    {
      ChainAdvances(es, i, j);
    }
    forall i | 0 <= i < |es| - 1 ensures !Terminal(es[i]) {
      assert Follows(es[i], es[i + 1]);
    }
    forall i | 0 <= i < |es| ensures es[i] != Initialized {
      if i > 0 {
        assert Follows(es[i - 1], es[i]);
      }
    }
  }

  lemma {:induction false} ChainAdvances(es: seq<Event>, i: nat, j: nat)
    requires i < j < |es|
    requires forall k :: 0 <= k < |es| - 1 ==> Follows(es[k], es[k + 1])
    ensures Phase(es[i]) < Phase(es[j]) || (Phase(es[i]) == Phase(es[j]) && Repeatable(es[i]) && Repeatable(es[j]))
    decreases j - i
  {
    FollowsAdvances(es[j - 1], es[j]);
    if i < j - 1 {
      ChainAdvances(es, i, j - 1);
    }
  }

  /** Joining two chains whose seam is a legal step gives a chain. */
  lemma ChainJoin(a: seq<Event>, b: seq<Event>)
    requires a != [] && b != []
    requires forall k :: 0 <= k < |a| - 1 ==> Follows(a[k], a[k + 1])
    requires forall k :: 0 <= k < |b| - 1 ==> Follows(b[k], b[k + 1])
    requires Follows(a[|a| - 1], b[0])
    ensures forall k :: 0 <= k < |a + b| - 1 ==> Follows((a + b)[k], (a + b)[k + 1])
  {
    forall k | 0 <= k < |a + b| - 1 ensures Follows((a + b)[k], (a + b)[k + 1]) {
      if k < |a| - 1 {
      } else if k == |a| - 1 {
      } else {
        assert (a + b)[k] == b[k - |a|] && (a + b)[k + 1] == b[k - |a| + 1];
      }
    }
  }

  // ---------------------------------------------------------------------
  // Lemmas about the handler.
  // ---------------------------------------------------------------------

  /** Loader notifications whose status is neither `"download"` nor `"init"` post nothing. */
  lemma {:induction false} OtherNotesSilent(notes: seq<LoaderNote>, model: string)
    requires forall k :: 0 <= k < |notes| ==> notes[k].status != "download" && notes[k].status != "init"
    ensures ProgressEvents(notes, model) == []
  {
    if notes != [] {
      OtherNotesSilent(notes[1..], model);
    }
  }

  /** When every notification is a `"download"` or an `"init"` one, each posts its own progress event, in order. */
  lemma {:induction false} RelevantNotesPost(notes: seq<LoaderNote>, model: string)
    requires forall k :: 0 <= k < |notes| ==> notes[k].status == "download" || notes[k].status == "init"
    ensures |ProgressEvents(notes, model)| == |notes|
    ensures forall k :: 0 <= k < |notes| ==>
              ProgressEvents(notes, model)[k] == ProgressEvent(notes[k], model)[0]
  {
    if notes != [] {
      RelevantNotesPost(notes[1..], model);
    }
  }

  /** The notifications `progress_callback` reacts to: the `"download"` and `"init"` ones, in order. */
  function Relevant(notes: seq<LoaderNote>): (r: seq<LoaderNote>)
    ensures |r| <= |notes|
    ensures forall n :: n in r <==> n in notes && (n.status == "download" || n.status == "init")
  {
    if notes == [] then []
    else
      var head := if notes[0].status == "download" || notes[0].status == "init" then [notes[0]] else [];
      head + Relevant(notes[1..])
  }

  /**
   * For any mix of notifications, the progress events are those of the
   * relevant notifications alone, one per relevant notification.
   */
  lemma {:induction false} ProgressEventsRelevant(notes: seq<LoaderNote>, model: string)
    ensures ProgressEvents(notes, model) == ProgressEvents(Relevant(notes), model)
    ensures |ProgressEvents(notes, model)| == |Relevant(notes)|
  {
    if notes != [] {
      var n := notes[0];
      var rest := Relevant(notes[1..]);
      ProgressEventsRelevant(notes[1..], model);
      if n.status == "download" || n.status == "init" {
        assert Relevant(notes) == [n] + rest;
        assert ([n] + rest)[0] == n;
        assert ([n] + rest)[1..] == rest;
      } else {
        assert Relevant(notes) == rest;
      }
    }
    RelevantNotesPost(Relevant(notes), model);
  }

  /**
   * How one message's output ends. A load that throws ends it with that
   * error. Otherwise the slot holds the pipeline (the one found, or the one
   * just loaded) and the output ends with `complete` carrying the call's
   * result when the call returns, or with the error it threw.
   * So the output ends with `complete` exactly when nothing threw.
   */
  lemma HandleEndsWith(slot: Option<Pipeline>, msg: Message, load: Loader, run: Runner)
    ensures var loaded := load(LoadRequest(PipelineTask, msg.model, Device)).result;
      var es := Handle(slot, msg, load, run).emitted;
      if slot.None? && loaded.Err? then
        es[|es| - 1] == Error(ErrorMessage(loaded.error))
      else
        var p := if slot.Some? then slot.value else loaded.value;
        var outcome := run(p, msg.audio, TranscribeOptions(msg)).result;
        Handle(slot, msg, load, run).slot == Some(p) &&
        es[|es| - 1] == if outcome.Ok? then Complete(outcome.value) else Error(ErrorMessage(outcome.error))
    ensures var loaded := load(LoadRequest(PipelineTask, msg.model, Device)).result;
      var es := Handle(slot, msg, load, run).emitted;
      es[|es| - 1].Complete? <==>
        (slot.Some? || loaded.Ok?) &&
        run(if slot.Some? then slot.value else loaded.value, msg.audio, TranscribeOptions(msg)).result.Ok?
  {
    var l := LoadAttempt(slot, msg, load);
    if l.thrown.None? {
      var t := TranscribeAttempt(l.slot.value, msg, run);
      assert TranscribeEvents(l.slot.value, msg, run) == t.emitted + Caught(t.thrown);
    }
  }

  /** The output of one message is a protocol word; it starts with `initiate` exactly when the slot was empty. */
  lemma HandleFollowsProtocol(slot: Option<Pipeline>, msg: Message, load: Loader, run: Runner)
    ensures Protocol(Handle(slot, msg, load, run).emitted)
    ensures Handle(slot, msg, load, run).emitted[0].Initiate? <==> slot.None?
  {
    if slot.Some? {
      TranscribeFollows(slot.value, msg, run);
    } else {
      var outcome := load(LoadRequest(PipelineTask, msg.model, Device));
      var loading := [InitiateEvent(msg.model)] + ProgressEvents(outcome.notes, msg.model);
      HandleLoadShape(msg, load, run);
      LoadingChain(outcome.notes, msg.model);
      match outcome.result
      case Err(e) =>
        ChainJoin(loading, [Error(ErrorMessage(e))]);
      case Ok(p) =>
        TranscribeFollows(p, msg, run);
        ChainJoin(loading, [Done(msg.model), Ready]);
        ChainJoin(loading + [Done(msg.model), Ready], TranscribeEvents(p, msg, run));
    }
  }

  /** `initiate` followed by the progress events is a chain that ends in a loading event. */
  lemma LoadingChain(notes: seq<LoaderNote>, model: string)
    ensures var loading := [InitiateEvent(model)] + ProgressEvents(notes, model);
      (forall k :: 0 <= k < |loading| - 1 ==> Follows(loading[k], loading[k + 1])) &&
      (IsProgress(loading[|loading| - 1]) || loading[|loading| - 1].Initiate?)
  {
    var progress := ProgressEvents(notes, model);
    var loading := [InitiateEvent(model)] + progress;
    forall k | 0 <= k < |loading| - 1 ensures Follows(loading[k], loading[k + 1]) {
      assert loading[k + 1] == progress[k];
      if k > 0 {
        assert loading[k] == progress[k - 1];
      }
    }
    if |loading| > 1 {
      assert loading[|loading| - 1] == progress[|loading| - 2];
    }
  }

  lemma TranscribeFollows(p: Pipeline, msg: Message, run: Runner)
    ensures Protocol(TranscribeEvents(p, msg, run))
    ensures forall k :: 0 <= k < |TranscribeEvents(p, msg, run)| ==>
      TranscribeEvents(p, msg, run)[k].Update? || Terminal(TranscribeEvents(p, msg, run)[k])
  {
  }

  /**
   * A load that throws leaves the slot empty and ends the output with the
   * error; no `done` or `ready` is posted, and the next message loads again.
   */
  lemma FailedLoadRetries(msg: Message, load: Loader, run: Runner, next: Message, load': Loader, run': Runner)
    requires load(LoadRequest(PipelineTask, msg.model, Device)).result.Err?
    ensures Handle(None, msg, load, run).slot == None
    ensures var es := Handle(None, msg, load, run).emitted;
      es[|es| - 1] == Error(ErrorMessage(load(LoadRequest(PipelineTask, msg.model, Device)).result.error)) &&
      forall k :: 0 <= k < |es| ==> !es[k].Done? && !es[k].Ready? && !es[k].Update?
    ensures Handle(Handle(None, msg, load, run).slot, next, load', run').emitted[0] == InitiateEvent(next.model)
  {
  }

  /**
   * Once the slot holds a pipeline, a message neither loads nor changes the
   * slot, and its `model` field has no effect: two messages that differ only
   * in `model` post the same events whatever the loader would do.
   */
  lemma FilledSlotIgnoresModel(p: Pipeline, msg: Message, model': string, load: Loader, load': Loader, run: Runner)
    ensures Handle(Some(p), msg, load, run) == Handle(Some(p), msg.(model := model'), load', run)
    ensures Handle(Some(p), msg, load, run).slot == Some(p)
    ensures var es := Handle(Some(p), msg, load, run).emitted;
      forall k :: 0 <= k < |es| ==> Phase(es[k]) >= Phase(Update(Payload("")))
  {
    TranscribeFollows(p, msg, run);
    assert TranscribeOptions(msg) == TranscribeOptions(msg.(model := model'));
  }

  /**
   * A transcription that throws after a successful load keeps the pipeline
   * in the slot and ends the output with the error; the next message then
   * posts no `initiate`, `done` or `ready`.
   */
  lemma FailedTranscriptionKeepsSlot(msg: Message, load: Loader, run: Runner, next: Message, load': Loader, run': Runner)
    requires load(LoadRequest(PipelineTask, msg.model, Device)).result.Ok?
    requires var p := load(LoadRequest(PipelineTask, msg.model, Device)).result.value;
      run(p, msg.audio, TranscribeOptions(msg)).result.Err?
    ensures Handle(None, msg, load, run).slot == Some(load(LoadRequest(PipelineTask, msg.model, Device)).result.value)
    ensures var es := Handle(None, msg, load, run).emitted;
      es[|es| - 1] == Error(ErrorMessage(run(load(LoadRequest(PipelineTask, msg.model, Device)).result.value, msg.audio, TranscribeOptions(msg)).result.error))
    ensures var es := Handle(Handle(None, msg, load, run).slot, next, load', run').emitted;
      forall k :: 0 <= k < |es| ==> !es[k].Initiate? && !es[k].Done? && !es[k].Ready?
  {
    var p := load(LoadRequest(PipelineTask, msg.model, Device)).result.value;
    TranscribeFollows(p, next, run');
  }

  /** A filled slot stays filled with the same pipeline for any run of messages, and nothing more is loaded. */
  lemma {:induction false} FilledSlotIsStable(p: Pipeline, ds: seq<Delivery>)
    ensures Run(Some(p), ds).slot == Some(p)
    ensures multiset(Run(Some(p), ds).emitted)[Ready] == 0
    decreases |ds|
  {
    if ds != [] {
      var d := ds[0];
      TranscribeFollows(p, d.msg, d.run);
      var es := Handle(Some(p), d.msg, d.load, d.run).emitted;
      assert Ready !in es;
      FilledSlotIsStable(p, ds[1..]);
    }
  }

  /**
   * Over any run of messages the pipeline is loaded at most once: `ready` is
   * posted at most once, and exactly once when the run starts with an empty
   * slot and ends with a filled one.
   */
  lemma {:induction false} LoadedAtMostOnce(slot: Option<Pipeline>, ds: seq<Delivery>)
    ensures multiset(Run(slot, ds).emitted)[Ready] == if slot.None? && Run(slot, ds).slot.Some? then 1 else 0
    ensures slot.Some? ==> Run(slot, ds).slot == slot
    decreases |ds|
  {
    if ds == [] {
    } else if slot.Some? {
      FilledSlotIsStable(slot.value, ds);
    } else {
      var d := ds[0];
      var first := Handle(None, d.msg, d.load, d.run);
      HandleReadyCount(d.msg, d.load, d.run);
      LoadedAtMostOnce(first.slot, ds[1..]);
    }
  }

  lemma HandleReadyCount(msg: Message, load: Loader, run: Runner)
    ensures multiset(Handle(None, msg, load, run).emitted)[Ready] == if Handle(None, msg, load, run).slot.Some? then 1 else 0
  {
    var outcome := load(LoadRequest(PipelineTask, msg.model, Device));
    var progress := ProgressEvents(outcome.notes, msg.model);
    var step := Handle(None, msg, load, run);
    HandleLoadShape(msg, load, run);
    ProgressHasNoReady(outcome.notes, msg.model);
    if outcome.result.Ok? {
      var p := outcome.result.value;
      var tr := TranscribeEvents(p, msg, run);
      UpdatesHaveNoReady(run(p, msg.audio, TranscribeOptions(msg)).updates);
      assert multiset(tr)[Ready] == 0;
      assert multiset(step.emitted) == multiset([InitiateEvent(msg.model)]) + multiset(progress) + multiset([Done(msg.model), Ready]) + multiset(tr);
    } else {
      assert multiset(step.emitted) == multiset([InitiateEvent(msg.model)]) + multiset(progress) + multiset([Error(ErrorMessage(outcome.result.error))]);
    }
  }

  /** The output of a message that finds the slot empty, by the loader's outcome. */
  lemma HandleLoadShape(msg: Message, load: Loader, run: Runner)
    ensures var outcome := load(LoadRequest(PipelineTask, msg.model, Device));
      var loading := [InitiateEvent(msg.model)] + ProgressEvents(outcome.notes, msg.model);
      Handle(None, msg, load, run) ==
        match outcome.result
        case Err(e) => Step(None, loading + [Error(ErrorMessage(e))])
        case Ok(p) => Step(Some(p), loading + [Done(msg.model), Ready] + TranscribeEvents(p, msg, run))
  {
  }

  lemma {:induction false} ProgressHasNoReady(notes: seq<LoaderNote>, model: string)
    ensures multiset(ProgressEvents(notes, model))[Ready] == 0
  {
    if notes != [] {
      ProgressHasNoReady(notes[1..], model);
    }
  }

  lemma {:induction false} UpdatesHaveNoReady(updates: seq<Payload>)
    ensures multiset(UpdateEvents(updates))[Ready] == 0
  {
    if updates != [] {
      UpdatesHaveNoReady(updates[1..]);
    }
  }

  /** `initialized` is posted once, before everything else, and never by a message. */
  lemma {:induction false} InitializedOnce(slot: Option<Pipeline>, ds: seq<Delivery>)
    ensures multiset([Initialized] + Run(slot, ds).emitted)[Initialized] == 1
    decreases |ds|
  {
    if ds != [] {
      var d := ds[0];
      var first := Handle(slot, d.msg, d.load, d.run);
      HandleFollowsProtocol(slot, d.msg, d.load, d.run);
      ProtocolOrdered(first.emitted);
      InitializedOnce(first.slot, ds[1..]);
    }
  }
}
