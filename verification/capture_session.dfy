/**
  The background window's capture pipeline: module-level state mutated by
  `start`, `stop`, `setVolume`, the visualizer interval and the IPC listeners.

  Web Audio objects, the capture stream and timers are opaque handles. The
  calls that act on the outside world (IPC sends, node connections, gain
  writes, track stops, context closing, interval arming and clearing) are
  appended to `effects`, so the contracts say exactly what each operation
  does to it; the calls that create objects only hand out fresh handles.
*/
module CaptureSession {
  import opened Common

  /** An opaque reference to a MediaStream, AudioContext or audio node. */
  datatype Handle = Handle(id: nat)

  /** The calls inside `start` that can throw or reject, in the order they run. */
  datatype StartStep = GetDisplayMedia | CreateContext | LoadWorklet | CreateSource | CreateWorkletNode

  /** A call the pipeline makes on the outside world. */
  datatype Effect =
    | StatusUpdate(status: Status)
    | VisualizerData(spectrum: seq<int>)
    | AudioData(frame: seq<int>)
    | SetGain(node: Handle, value: real)
    | Connect(from: Handle, to: Handle)
    | ConnectToDestination(from: Handle, context: Handle)
    | StopTracks(stream: Handle)
    | Disconnect(node: Handle)
    | CloseContext(context: Handle)
    | SetInterval(timer: nat)
    | ClearInterval(timer: nat)

  const InitialVolume: int := 100
  const StreamingMessage: string := "Transmitindo..."
  const IdleMessage: string := "Aguardando..."
  const ListenFailedMessage: string := "Erro ao iniciar a captura:"

  /**
    The gain multiplier for a volume percentage. The code documents the
    multiplier as running from 0 to 2, which is volumes 0 to 200; the
    initial volume is unity gain.
  */
  function Gain(volume: int): (g: real)
    ensures g * 100.0 == volume as real
    ensures 0 <= volume <= 200 <==> 0.0 <= g <= 2.0
    ensures volume == InitialVolume <==> g == 1.0
  {
    volume as real / 100.0
  }

  /** The multiplier is linear in the percentage: volume 50 halves unity gain, volume 200 doubles it. */
  lemma GainLinear(a: int, b: int)
    ensures Gain(a + b) == Gain(a) + Gain(b)
    ensures Gain(2 * a) == 2.0 * Gain(a)
  {
  }

  function StepIndex(step: StartStep): nat
  {
    match step
    case GetDisplayMedia => 0
    case CreateContext => 1
    case LoadWorklet => 2
    case CreateSource => 3
    case CreateWorkletNode => 4
  }

  /** Whether `step` returns normally when `fault` names the call that throws (None: nothing throws). */
  predicate Completes(fault: Option<StartStep>, step: StartStep)
  {
    fault.None? || StepIndex(step) < StepIndex(fault.value)
  }

  /** The effects of a `start` from idle, given the handles it allocates from `base` on. */
  function StartEffects(fault: Option<StartStep>, errorMessage: string, volume: int, base: nat, timer: nat): seq<Effect>
  {
    var stream, context, analyser, gain, source, worklet :=
      Handle(base), Handle(base + 1), Handle(base + 2), Handle(base + 3), Handle(base + 4), Handle(base + 5);
    (if Completes(fault, LoadWorklet) then [SetGain(gain, Gain(volume))] else [])
    + if fault.None? then
        [ Connect(source, gain), Connect(gain, analyser), Connect(analyser, worklet),
          ConnectToDestination(worklet, context),
          StatusUpdate(Status(StreamingMessage, true, Info)),
          SetInterval(timer) ]
      else
        [StatusUpdate(Status("Erro: " + errorMessage, false, Error))]
  }

  class AudioCapture {
    // the source's module-level state
    var isStreaming: bool
    var volume: int
    var token: string
    var localStream: Option<Handle>
    var audioContext: Option<Handle>
    var analyser: Option<Handle>
    var source: Option<Handle>
    var gainNode: Option<Handle>
    var audioWorkletNode: Option<Handle>
    var visualizerInterval: Option<nat>

    // the outside world
    var liveTimers: set<nat>  // intervals armed and not cleared
    var nextHandle: nat       // the next handle the host hands out
    var nextTimer: nat        // the next interval id the host hands out
    var effects: seq<Effect>

    /** The interval field names exactly the armed intervals, so at most one is armed. */
    ghost predicate TimersValid()
      reads this
      ensures TimersValid() ==> |liveTimers| <= 1
    {
      && liveTimers == (if visualizerInterval.Some? then {visualizerInterval.value} else {})
      && forall t :: t in liveTimers ==> t < nextTimer
    }

    /** The whole graph exists while streaming. */
    ghost predicate GraphComplete()
      reads this
    {
      localStream.Some? && audioContext.Some? && analyser.Some? && source.Some?
      && gainNode.Some? && audioWorkletNode.Some?
    }

    ghost predicate Valid()
      reads this
    {
      && TimersValid()
      && (isStreaming <==> visualizerInterval.Some?)
      && (isStreaming ==> GraphComplete())
    }

    /** The state the script's top-level declarations set up. */
    constructor ()
      ensures Valid()
      ensures !isStreaming && volume == InitialVolume && token == ""
      ensures localStream.None? && audioContext.None? && analyser.None?
      ensures source.None? && gainNode.None? && audioWorkletNode.None?
      ensures visualizerInterval.None? && liveTimers == {} && effects == []
      ensures nextHandle == 0 && nextTimer == 0
    {
      isStreaming, volume, token := false, InitialVolume, "";
      localStream, audioContext, analyser := None, None, None;
      source, gainNode, audioWorkletNode := None, None, None;
      visualizerInterval, liveTimers := None, {};
      nextHandle, nextTimer, effects := 0, 0, [];
    }

    /** `updateStatus`: reports the message with the current `isStreaming`. */
    method UpdateStatus(message: string, isError: bool)
      modifies this`effects
      ensures effects == old(effects) + [StatusUpdate(Status(message, isStreaming, if isError then Error else Info))]
    {
      effects := effects + [StatusUpdate(Status(message, isStreaming, if isError then Error else Info))];
    }

    /** `setVolume`: always remembers the volume; writes the gain only when a gain node exists. */
    method SetVolume(newVolume: int)
      modifies this`volume, this`effects
      ensures volume == newVolume
      ensures effects == old(effects) + if gainNode.Some? then [SetGain(gainNode.value, Gain(newVolume))] else []
    {
      volume := newVolume;
      if gainNode.Some? {
        effects := effects + [SetGain(gainNode.value, Gain(volume))];
      }
    }

    /** `startVisualizerLoop`: clears any previous interval, then arms a new one. */
    method StartVisualizerLoop()
      requires TimersValid()
      modifies this`visualizerInterval, this`liveTimers, this`nextTimer, this`effects
      ensures TimersValid()
      ensures visualizerInterval == Some(old(nextTimer)) && liveTimers == {old(nextTimer)}
      ensures nextTimer == old(nextTimer) + 1
      ensures effects == old(effects)
        + (if old(visualizerInterval).Some? then [ClearInterval(old(visualizerInterval).value)] else [])
        + [SetInterval(old(nextTimer))]
    {
      if visualizerInterval.Some? {
        effects := effects + [ClearInterval(visualizerInterval.value)];
        liveTimers := liveTimers - {visualizerInterval.value};
      }
      visualizerInterval := Some(nextTimer);
      liveTimers := liveTimers + {nextTimer};
      effects := effects + [SetInterval(nextTimer)];
      nextTimer := nextTimer + 1;
    }

    /** `stopVisualizerLoop`: clears the interval if one is armed. */
    method StopVisualizerLoop()
      requires TimersValid()
      modifies this`visualizerInterval, this`liveTimers, this`effects
      ensures TimersValid()
      ensures visualizerInterval.None? && liveTimers == {}
      ensures effects == old(effects)
        + if old(visualizerInterval).Some? then [ClearInterval(old(visualizerInterval).value)] else []
    {
      if visualizerInterval.Some? {
        effects := effects + [ClearInterval(visualizerInterval.value)];
        liveTimers := liveTimers - {visualizerInterval.value};
      }
      visualizerInterval := None;
    }

    /**
      The allocating half of `start`'s try block: the stream, the context,
      the analyser and gain (with the remembered volume applied), the source
      and the worklet node, each assigned only if no earlier call threw.
    */
    method AcquireGraph(fault: Option<StartStep>)
      modifies this`localStream, this`audioContext, this`analyser, this`gainNode
      modifies this`source, this`audioWorkletNode, this`volume, this`nextHandle, this`effects
      ensures volume == old(volume)
      ensures
        var base := old(nextHandle);
        && localStream == (if Completes(fault, GetDisplayMedia) then Some(Handle(base)) else old(localStream))
        && audioContext == (if Completes(fault, CreateContext) then Some(Handle(base + 1)) else old(audioContext))
        && analyser == (if Completes(fault, LoadWorklet) then Some(Handle(base + 2)) else old(analyser))
        && gainNode == (if Completes(fault, LoadWorklet) then Some(Handle(base + 3)) else old(gainNode))
        && source == (if Completes(fault, CreateSource) then Some(Handle(base + 4)) else old(source))
        && audioWorkletNode == (if Completes(fault, CreateWorkletNode) then Some(Handle(base + 5)) else old(audioWorkletNode))
        && nextHandle == base + 6
        && effects == old(effects) + if Completes(fault, LoadWorklet) then [SetGain(Handle(base + 3), Gain(volume))] else []
    {
      var base := nextHandle;
      if Completes(fault, GetDisplayMedia) {
        localStream := Some(Handle(base));
      }
      if Completes(fault, CreateContext) {
        audioContext := Some(Handle(base + 1));
      }
      if Completes(fault, LoadWorklet) {
        analyser := Some(Handle(base + 2));
        gainNode := Some(Handle(base + 3));
        SetVolume(volume);
      }
      if Completes(fault, CreateSource) {
        source := Some(Handle(base + 4));
      }
      if Completes(fault, CreateWorkletNode) {
        audioWorkletNode := Some(Handle(base + 5));
      }
      nextHandle := base + 6;
    }

    /**
      The rest of `start`'s try block: link source, gain, analyser, worklet
      and destination in series, then mark the stream live, report it and arm
      the visualizer.
    */
    method LinkGraph()
      requires GraphComplete() && TimersValid() && visualizerInterval.None?
      modifies this`isStreaming, this`visualizerInterval, this`liveTimers, this`nextTimer, this`effects
      ensures TimersValid() && isStreaming && visualizerInterval == Some(old(nextTimer))
      ensures nextTimer == old(nextTimer) + 1
      ensures effects == old(effects) + [
        Connect(source.value, gainNode.value), Connect(gainNode.value, analyser.value),
        Connect(analyser.value, audioWorkletNode.value), ConnectToDestination(audioWorkletNode.value, audioContext.value),
        StatusUpdate(Status(StreamingMessage, true, Info)), SetInterval(old(nextTimer))]
    {
      effects := effects + [
        Connect(source.value, gainNode.value),
        Connect(gainNode.value, analyser.value),
        Connect(analyser.value, audioWorkletNode.value),
        ConnectToDestination(audioWorkletNode.value, audioContext.value)];
      isStreaming := true;
      UpdateStatus(StreamingMessage, false);
      StartVisualizerLoop();
    }

    /**
      `start`, taken as one atomic step. `fault` names the call that throws
      (None when every call succeeds) and `errorMessage` is its `err.message`.
      A no-op while streaming. Handles assigned before the fault are kept.
    */
    method Start(fault: Option<StartStep>, errorMessage: string)
      requires Valid()
      modifies this
      ensures Valid()
      ensures old(isStreaming) ==> unchanged(this)
      ensures volume == old(volume) && token == old(token)
      ensures !old(isStreaming) ==> isStreaming == fault.None?
      ensures !old(isStreaming) && fault.None? ==> visualizerInterval == Some(old(nextTimer)) && liveTimers == {old(nextTimer)}
      ensures !old(isStreaming) ==>
        var base := old(nextHandle);
        && localStream == (if Completes(fault, GetDisplayMedia) then Some(Handle(base)) else old(localStream))
        && audioContext == (if Completes(fault, CreateContext) then Some(Handle(base + 1)) else old(audioContext))
        && analyser == (if Completes(fault, LoadWorklet) then Some(Handle(base + 2)) else old(analyser))
        && gainNode == (if Completes(fault, LoadWorklet) then Some(Handle(base + 3)) else old(gainNode))
        && source == (if Completes(fault, CreateSource) then Some(Handle(base + 4)) else old(source))
        && audioWorkletNode == (if Completes(fault, CreateWorkletNode) then Some(Handle(base + 5)) else old(audioWorkletNode))
        && nextHandle == base + 6
        && nextTimer == old(nextTimer) + (if fault.None? then 1 else 0)
        && effects == old(effects) + StartEffects(fault, errorMessage, old(volume), base, old(nextTimer))
    {
      if isStreaming {
        return;
      }
      AcquireGraph(fault);
      if fault.None? {
        LinkGraph();
      } else {
        // the catch block
        UpdateStatus("Erro: " + errorMessage, true);
      }
    }

    /**
      `stop`: a no-op when idle; otherwise disarms the visualizer first, stops
      the tracks, disconnects every node, closes the context, releases all six
      handles and reports that it is waiting.
    */
    method Stop()
      requires Valid()
      modifies this
      ensures Valid()
      ensures !old(isStreaming) ==> unchanged(this)
      ensures !isStreaming
      ensures volume == old(volume) && token == old(token)
      ensures nextHandle == old(nextHandle) && nextTimer == old(nextTimer)
      ensures old(isStreaming) ==>
        && localStream.None? && audioContext.None? && analyser.None?
        && source.None? && gainNode.None? && audioWorkletNode.None?
        && visualizerInterval.None? && liveTimers == {}
        && effects == old(effects) + [
             ClearInterval(old(visualizerInterval).value),
             StopTracks(old(localStream).value),
             Disconnect(old(source).value), Disconnect(old(gainNode).value),
             Disconnect(old(analyser).value), Disconnect(old(audioWorkletNode).value),
             CloseContext(old(audioContext).value),
             StatusUpdate(Status(IdleMessage, false, Info))]
    {
      if !isStreaming {
        return;
      }
      StopVisualizerLoop();
      ReleaseGraph();
      isStreaming := false;
      UpdateStatus(IdleMessage, false);
    }

    /** The teardown half of `stop`: stop the tracks, disconnect each node, close the context, drop all six handles. */
    method ReleaseGraph()
      requires GraphComplete()
      modifies this`localStream, this`audioContext, this`analyser, this`gainNode
      modifies this`source, this`audioWorkletNode, this`effects
      ensures localStream.None? && audioContext.None? && analyser.None?
      ensures source.None? && gainNode.None? && audioWorkletNode.None?
      ensures effects == old(effects) + [
        StopTracks(old(localStream).value),
        Disconnect(old(source).value), Disconnect(old(gainNode).value),
        Disconnect(old(analyser).value), Disconnect(old(audioWorkletNode).value),
        CloseContext(old(audioContext).value)]
    {
      var teardown: seq<Effect> := [];
      if localStream.Some? {
        teardown := teardown + [StopTracks(localStream.value)];
      }
      if source.Some? {
        teardown := teardown + [Disconnect(source.value)];
      }
      if gainNode.Some? {
        teardown := teardown + [Disconnect(gainNode.value)];
      }
      if analyser.Some? {
        teardown := teardown + [Disconnect(analyser.value)];
      }
      if audioWorkletNode.Some? {
        teardown := teardown + [Disconnect(audioWorkletNode.value)];
      }
      if audioContext.Some? {
        teardown := teardown + [CloseContext(audioContext.value)];
      }
      effects := effects + teardown;
      localStream, audioContext, source := None, None, None;
      gainNode, analyser, audioWorkletNode := None, None, None;
    }

    /**
      One firing of the visualizer interval `timer`. Its guard sends the
      spectrum only while streaming with an analyser; an armed interval
      implies both, so every firing sends.
    */
    method VisualizerTick(timer: nat, spectrum: seq<int>)
      requires Valid() && timer in liveTimers
      modifies this`effects
      ensures effects == old(effects) + [VisualizerData(spectrum)]
    {
      if !isStreaming || analyser.None? {
        return;
      }
      effects := effects + [VisualizerData(spectrum)];
    }

    /** The worklet port's `onmessage`: forwards each posted buffer to the main process. */
    method WorkletMessage(frame: seq<int>)
      modifies this`effects
      ensures effects == old(effects) + [AudioData(frame)]
    {
      effects := effects + [AudioData(frame)];
    }

    /** `isListening`: reports whether a stream is running. */
    method IsListening()
      modifies this`effects
      ensures effects == old(effects) +
        if isStreaming then [StatusUpdate(Status(StreamingMessage, true, Info))]
        else [StatusUpdate(Status(ListenFailedMessage, false, Error))]
    {
      if isStreaming {
        UpdateStatus(StreamingMessage, false);
      } else {
        UpdateStatus(ListenFailedMessage, true);
      }
    }

    /** The `set-token` listener. */
    method OnSetToken(newToken: string)
      modifies this`token
      ensures token == newToken
    {
      token := newToken;
    }

    /** The `autostart-check` listener: takes the token and volume but never starts the stream. */
    method OnAutoStart(settingsToken: string, settingsVolume: int)
      requires Valid()
      modifies this`token, this`volume, this`effects
      ensures Valid()
      ensures token == settingsToken && volume == settingsVolume
      ensures effects == old(effects) + if gainNode.Some? then [SetGain(gainNode.value, Gain(settingsVolume))] else []
    {
      token := settingsToken;
      SetVolume(settingsVolume);
    }
  }

  /** A second `start` while streaming builds no second graph and emits nothing beyond the first start's effects. */
  method StartTwiceBuildsOneGraph(capture: AudioCapture, errorMessage: string)
    requires capture.Valid() && !capture.isStreaming
    modifies capture
    ensures capture.isStreaming && capture.Valid()
    ensures
      var base := old(capture.nextHandle);
      && capture.localStream == Some(Handle(base))
      && capture.audioContext == Some(Handle(base + 1))
      && capture.analyser == Some(Handle(base + 2))
      && capture.gainNode == Some(Handle(base + 3))
      && capture.source == Some(Handle(base + 4))
      && capture.audioWorkletNode == Some(Handle(base + 5))
      && capture.nextHandle == base + 6
    ensures capture.effects == old(capture.effects)
      + StartEffects(None, errorMessage, old(capture.volume), old(capture.nextHandle), old(capture.nextTimer))
  {
    capture.Start(None, errorMessage);
    capture.Start(None, errorMessage);
  }

  /** `stop` twice ends where one `stop` ends: idle, every handle released, the teardown logged once. */
  method StopTwiceIsStopOnce(capture: AudioCapture)
    requires capture.Valid()
    modifies capture
    ensures capture.Valid() && !capture.isStreaming
    ensures !old(capture.isStreaming) ==> unchanged(capture)
    ensures old(capture.isStreaming) ==>
      && capture.localStream.None? && capture.audioContext.None? && capture.analyser.None?
      && capture.source.None? && capture.gainNode.None? && capture.audioWorkletNode.None?
      && capture.visualizerInterval.None? && capture.liveTimers == {}
      && capture.effects == old(capture.effects) + [
           ClearInterval(old(capture.visualizerInterval).value),
           StopTracks(old(capture.localStream).value),
           Disconnect(old(capture.source).value), Disconnect(old(capture.gainNode).value),
           Disconnect(old(capture.analyser).value), Disconnect(old(capture.audioWorkletNode).value),
           CloseContext(old(capture.audioContext).value),
           StatusUpdate(Status(IdleMessage, false, Info))]
  {
    capture.Stop();
    capture.Stop();
  }

  /** The interval a successful `start` arms is the one that fires and the one the next `stop` clears. */
  method StartedIntervalFiresAndIsCleared(capture: AudioCapture, spectrum: seq<int>)
    requires capture.Valid() && !capture.isStreaming
    modifies capture
    ensures !capture.isStreaming && capture.Valid()
    ensures |capture.effects| >= 9
    ensures capture.effects[|capture.effects| - 9] == VisualizerData(spectrum)
    ensures capture.effects[|capture.effects| - 8] == ClearInterval(old(capture.nextTimer))
  {
    var timer := capture.nextTimer;
    capture.Start(None, "");
    capture.VisualizerTick(timer, spectrum);
    capture.Stop();
  }
}
