/** The CoreAudio backend: a push-model `write` feeding a fixed-capacity FIFO
    that a pull-model realtime callback drains.

    The callback's thread is replaced by explicit interleaving.  A `schedule`
    lists, for every evaluation of a polling condition in `write` or `drain`,
    the frame requests the engine makes just before that evaluation (usually
    none, or one).  The engine calls back only while the output unit is
    started.  When a poll would still be waiting after the schedule is used up,
    the call reports `blocked`: under that interleaving the C call never
    returns. */
module CoreAudio {
  import opened Native
  import opened Formats

  /** Capacity of the circular buffer, in bytes. */
  const BufferSize: nat := 1024 * 64

  const NoErr: int := 0

  /** Whole frames in `bytes` bytes.  A zero frame size (an open with zero
      channels) is taken as no frames. */
  function FramesIn(bytes: nat, bytesPerFrame: nat): (r: nat)
    ensures r * bytesPerFrame <= bytes
    ensures bytesPerFrame > 0 ==> bytes < (r + 1) * bytesPerFrame
    ensures r > 0 ==> bytesPerFrame > 0
  {
    if bytesPerFrame == 0 then 0 else bytes / bytesPerFrame
  }

  function Silence(n: nat): (r: seq<byte>)
    ensures |r| == n && forall i :: 0 <= i < n ==> r[i] == 0
  {
    seq(n, _ => 0 as byte)
  }

  /** Bytes one chunk of `write` enqueues: what remains of the caller's data,
      limited to the free space the buffer offers in whole frames. */
  function ChunkSize(remaining: nat, filled: nat, bytesPerFrame: nat): (r: nat)
    requires filled <= BufferSize
    ensures r <= remaining && filled + r <= BufferSize
    ensures r == remaining || r == FramesIn(BufferSize - filled, bytesPerFrame) * bytesPerFrame
    ensures remaining > 0 && FramesIn(BufferSize - filled, bytesPerFrame) > 0 ==> r > 0
  {
    var space := FramesIn(BufferSize - filled, bytesPerFrame);
    assert space > 0 ==> space * bytesPerFrame > 0 by {
      if space > 0 {
        FrameBytesPositive(space, bytesPerFrame);
      }
    }
    Min(remaining, space * bytesPerFrame)
  }

  lemma FrameBytesPositive(frames: nat, bytesPerFrame: nat)
    requires frames > 0 && bytesPerFrame > 0
    ensures frames * bytesPerFrame > 0
  {
  }

  lemma TakenFits(frames: nat, available: nat, bytesPerFrame: nat, filled: nat)
    requires available * bytesPerFrame <= filled
    ensures Min(frames, available) * bytesPerFrame <= filled
  {
    if frames < available {
      assert frames * bytesPerFrame <= available * bytesPerFrame by {
        MulLeq(frames, available, bytesPerFrame);
      }
    }
  }

  lemma MulLeq(a: nat, b: nat, c: nat)
    requires a <= b
    ensures a * c <= b * c
  {
  }

  class CoreAudioObject {
    var initialized: bool
    var running: bool
    /** The abstract state of the output unit: started by `AudioOutputUnitStart`,
        stopped by `AudioOutputUnitStop` or by tearing the unit down. */
    var unitStarted: bool
    var sampleRate: Uint32
    var channelsPerFrame: Uint8
    var bytesPerFrame: nat
    /** The circular buffer's contents, oldest byte first. */
    var buffer: seq<byte>
    /** The bytes the callback has dequeued since the buffer was last cleared. */
    ghost var played: seq<byte>

    /** The buffer never holds more than its capacity (so filled + free ==
        BufferSize), and without an initialized unit nothing is buffered or
        playing. */
    ghost predicate Valid()
      reads this
    {
      && |buffer| <= BufferSize
      && (!initialized ==> !unitStarted && buffer == [] && played == [])
    }

    /** The `running` flag only claims playback while the output unit is
        started: otherwise no callback will ever drain the buffer or clear the
        flag.  Every operation except the as-written `Close` keeps this. */
    ghost predicate Coherent()
      reads this
    {
      running ==> unitStarted
    }

    /** Every byte enqueued since the buffer was last cleared, in order: what
        the callback has played, followed by what is still queued. */
    ghost function Stream(): seq<byte>
      reads this
    {
      played + buffer
    }

    /** `create_coreaudio_object`.  The C code leaves `initialized` and
        `running` as `malloc` returns them; the model takes both as false. */
    constructor ()
      ensures Valid()
      ensures !initialized && !running && !unitStarted && buffer == [] && played == []
      ensures Coherent() && bytesPerFrame == 0
    {
      initialized, running, unitStarted := false, false, false;
      sampleRate, channelsPerFrame, bytesPerFrame := 0, 0, 0;
      buffer, played := [], [];
    }

    /** `coreaudio_object_open`.  `native` holds the statuses of the five
        native calls in the order they are made: `AudioFormatGetProperty`,
        `AudioComponentInstanceNew`, setting the render callback, setting the
        stream format, `AudioUnitInitialize`.  The format query fills in the
        frame size of packed 16-bit samples, two bytes per channel. */
    method Open(format: Format, rate: Uint32, channels: Uint8, native: seq<int>) returns (status: int)
      requires Valid()
      requires |native| == 5
      modifies this
      ensures Valid()
      ensures old(initialized) ==> status == NoErr && unchanged(this)
      ensures old(Coherent()) ==> Coherent()
      ensures !old(initialized) ==>
        && sampleRate == rate && channelsPerFrame == channels
        && running == old(running) && !unitStarted
      ensures !old(initialized) && format != S16LE ==>
        status == -1 && !initialized && bytesPerFrame == 0
      ensures !old(initialized) && format == S16LE ==>
        match FirstFailure(native, s => s == NoErr)
        case Some(i) =>
          && status == native[i] && status != NoErr && !initialized
          && bytesPerFrame == (if i == 0 then 0 else 2 * channels)
        case None =>
          && status == NoErr && initialized
          && buffer == [] && played == [] && bytesPerFrame == 2 * channels
    {
      if initialized {
        return NoErr;
      }
      sampleRate, channelsPerFrame, bytesPerFrame := rate, channels, 0;
      if format != S16LE {
        return -1;
      }
      if native[0] == NoErr {
        bytesPerFrame := 2 * channels;
      }
      var failure := FirstFailure(native, s => s == NoErr);
      if failure.Some? {
        // cleanup: the unit is uninitialized and disposed; it was never started
        return native[failure.value];
      }
      buffer, played := [], [];
      initialized := true;
      status := NoErr;
    }

    /** `coreaudio_object_close`: tears the unit down and frees the buffer,
        only if initialized.  `running` is left as it was. */
    method Close()
      requires Valid()
      modifies this
      ensures Valid()
      ensures !initialized && !unitStarted && running == old(running)
      ensures buffer == [] && played == []
      ensures bytesPerFrame == old(bytesPerFrame)
      ensures sampleRate == old(sampleRate) && channelsPerFrame == old(channelsPerFrame)
    {
      if initialized {
        unitStarted := false;
        buffer, played := [], [];
        initialized := false;
      }
    }

    /** Close as evidently intended: also forget that the stream was running,
        so that the object is in the state a fresh one is in. */
    method CloseIntended()
      requires Valid()
      modifies this
      ensures Valid()
      ensures !initialized && !unitStarted && !running && buffer == [] && played == []
      ensures Coherent()
      ensures bytesPerFrame == old(bytesPerFrame)
      ensures sampleRate == old(sampleRate) && channelsPerFrame == old(channelsPerFrame)
    {
      Close();
      running := false;
    }

    /** `TPCircularBufferClear`. */
    method Clear()
      requires Valid()
      modifies this`buffer, this`played
      ensures Valid()
      ensures buffer == [] && played == []
    {
      buffer, played := [], [];
    }

    /** `TPCircularBufferProduceAudioBufferList`: append `chunk` at the tail. */
    method Enqueue(chunk: seq<byte>)
      requires Valid() && initialized && |buffer| + |chunk| <= BufferSize
      modifies this`buffer
      ensures Valid()
      ensures buffer == old(buffer) + chunk
      ensures Stream() == old(Stream()) + chunk
    {
      assert played + (buffer + chunk) == (played + buffer) + chunk;
      buffer := buffer + chunk;
    }

    /** `graphRenderProc`, the realtime callback asked for `frames` frames. */
    method Render(frames: nat) returns (output: seq<byte>)
      requires Valid()
      modifies this
      ensures Valid()
      ensures initialized == old(initialized) && bytesPerFrame == old(bytesPerFrame)
      ensures sampleRate == old(sampleRate) && channelsPerFrame == old(channelsPerFrame)
      ensures Stream() == old(Stream())
      ensures old(Coherent()) ==> Coherent()
      ensures !old(running) ==>
        && output == Silence(bytesPerFrame * frames)
        && buffer == old(buffer) && played == old(played)
        && !running && unitStarted == old(unitStarted)
      ensures old(running) ==>
        var available := FramesIn(|old(buffer)|, bytesPerFrame);
        var taken := Min(frames, available) * bytesPerFrame;
        && taken <= |old(buffer)|
        && running == (available > 0)
        && unitStarted == (old(unitStarted) && available > 0)
        && output == old(buffer)[..taken]
        && buffer == old(buffer)[taken..]
        && played == old(played) + output
    {
      if !running {
        // the stop has not taken effect yet: play silence
        output := Silence(bytesPerFrame * frames);
        return;
      }
      var available := FramesIn(|buffer|, bytesPerFrame);
      if available == 0 {
        running := false;
        unitStarted := false;
      }
      var taken := Min(frames, available) * bytesPerFrame;
      TakenFits(frames, available, bytesPerFrame, |buffer|);
      output := Dequeue(taken);
    }

    /** `TPCircularBufferDequeueBufferListFrames`: remove `taken` bytes from
        the head, recording them as played. */
    method Dequeue(taken: nat) returns (output: seq<byte>)
      requires Valid() && taken <= |buffer|
      modifies this`buffer, this`played
      ensures Valid()
      ensures output == old(buffer)[..taken] && buffer == old(buffer)[taken..]
      ensures played == old(played) + output
      ensures Stream() == old(Stream())
    {
      output := buffer[..taken];
      assert output + buffer[taken..] == buffer;
      buffer := buffer[taken..];
      played := played + output;
    }

    /** The engine's callbacks for one batch of frame requests: they happen
        only while the output unit is started. */
    method RunEngine(requests: seq<nat>)
      requires Valid()
      modifies this
      ensures Valid()
      ensures initialized == old(initialized) && bytesPerFrame == old(bytesPerFrame)
      ensures sampleRate == old(sampleRate) && channelsPerFrame == old(channelsPerFrame)
      ensures Stream() == old(Stream())
      ensures running ==> old(running)
      ensures unitStarted ==> old(unitStarted)
      ensures !old(running) ==> !running && buffer == old(buffer) && played == old(played)
      ensures !old(unitStarted) ==> running == old(running) && buffer == old(buffer) && played == old(played)
      ensures old(Coherent()) ==> Coherent()
      ensures old(running) == old(unitStarted) ==> running == unitStarted
    {
      var i := 0;
      while i < |requests| && unitStarted
        invariant 0 <= i <= |requests|
        invariant Valid()
        invariant initialized == old(initialized) && bytesPerFrame == old(bytesPerFrame)
        invariant sampleRate == old(sampleRate) && channelsPerFrame == old(channelsPerFrame)
        invariant Stream() == old(Stream())
        invariant running ==> old(running)
        invariant unitStarted ==> old(unitStarted)
        invariant !old(running) ==> !running && buffer == old(buffer) && played == old(played)
        invariant !old(unitStarted) ==> running == old(running) && buffer == old(buffer) && played == old(played)
        invariant old(Coherent()) ==> Coherent()
        invariant old(running) == old(unitStarted) ==> running == unitStarted
      {
        var _ := Render(requests[i]);
        i := i + 1;
      }
    }

    /** The polling loop of `write`: the callbacks scheduled before each
        evaluation of its condition, until the buffer has room for a frame or
        a stream that was running has stopped.  `next` is the position reached
        in the schedule. */
    method WaitForSpace(runningAtStart: bool, schedule: seq<seq<nat>>, k: nat) returns (next: nat, blocked: bool)
      requires Valid() && initialized && k <= |schedule|
      requires !runningAtStart ==> !running
      modifies this
      ensures Valid() && initialized
      ensures bytesPerFrame == old(bytesPerFrame)
      ensures sampleRate == old(sampleRate) && channelsPerFrame == old(channelsPerFrame)
      ensures k <= next <= |schedule|
      ensures Stream() == old(Stream())
      ensures blocked ==> (!runningAtStart || running) && FramesIn(BufferSize - |buffer|, bytesPerFrame) == 0
      ensures !blocked ==> (runningAtStart && !running) || FramesIn(BufferSize - |buffer|, bytesPerFrame) > 0
      ensures running ==> old(running)
      ensures !old(running) ==> buffer == old(buffer) && played == old(played)
      ensures !old(unitStarted) ==>
        running == old(running) && !unitStarted && buffer == old(buffer) && played == old(played)
      ensures next == k ==> running == old(running) && buffer == old(buffer) && played == old(played)
      ensures old(Coherent()) ==> Coherent()
    {
      next := k;
      if next < |schedule| {
        RunEngine(schedule[next]);
        next := next + 1;
      }
      while (!runningAtStart || running) && FramesIn(BufferSize - |buffer|, bytesPerFrame) == 0
        invariant Valid() && initialized
        invariant bytesPerFrame == old(bytesPerFrame)
        invariant sampleRate == old(sampleRate) && channelsPerFrame == old(channelsPerFrame)
        invariant k <= next <= |schedule|
        invariant Stream() == old(Stream())
        invariant running ==> old(running)
        invariant !old(running) ==> buffer == old(buffer) && played == old(played)
        invariant !old(unitStarted) ==>
          running == old(running) && !unitStarted && buffer == old(buffer) && played == old(played)
        invariant next == k ==> running == old(running) && buffer == old(buffer) && played == old(played)
        invariant old(Coherent()) ==> Coherent()
        decreases |schedule| - next
      {
        if next == |schedule| {
          return next, true;
        }
        RunEngine(schedule[next]);
        next := next + 1;
      }
      blocked := false;
    }

    /** `coreaudio_object_write`.  `startStatus` is what `AudioOutputUnitStart`
        returns.  `queued` is the number of the caller's bytes that were
        enqueued (the C call tracks it as the bytes left), and `started` says
        whether this call started the unit. */
    method Write(data: seq<byte>, startStatus: int, schedule: seq<seq<nat>>)
      returns (status: int, blocked: bool, queued: nat, ghost started: bool)
      requires Valid()
      modifies this
      ensures Valid()
      ensures initialized == old(initialized) && bytesPerFrame == old(bytesPerFrame)
      ensures sampleRate == old(sampleRate) && channelsPerFrame == old(channelsPerFrame)
      ensures !old(initialized) ==>
        && status == NoErr && !blocked && queued == 0 && !started
        && buffer == old(buffer) && played == old(played)
        && running == old(running) && unitStarted == old(unitStarted)
      // everything enqueued, in order, after the stale contents were cleared
      ensures old(initialized) ==>
        && queued <= |data|
        && Stream() == (if old(running) then old(Stream()) else []) + data[..queued]
      // the unit is started exactly once, after the first chunk of a stopped stream
      ensures started <==> old(initialized) && !old(running) && queued > 0 && startStatus == NoErr
      ensures old(initialized) && !old(running) && |data| > 0 && FramesIn(BufferSize, bytesPerFrame) > 0 ==> queued > 0
      // a failed start returns its status with the first chunk already enqueued
      ensures old(initialized) && !old(running) && queued > 0 && startStatus != NoErr ==> status == startStatus
      ensures status != NoErr ==>
        && !blocked && !old(running) && status == startStatus && !running
        && queued == ChunkSize(|data|, 0, bytesPerFrame) && queued > 0
      // the stream stopped underneath the caller: the rest is abandoned
      ensures old(initialized) && status == NoErr && !blocked && queued < |data| ==>
        !running && (old(running) || started)
      // a running stream whose unit is stopped is never called back
      ensures old(running) && !old(unitStarted) ==> running && !unitStarted && played == old(played)
      // it waits only on a full buffer
      ensures blocked ==> FramesIn(BufferSize - |buffer|, bytesPerFrame) == 0
      // without callbacks nothing is played and only the start changes the flag
      ensures old(initialized) && |schedule| == 0 ==>
        running == (old(running) || started) && played == (if old(running) then old(played) else [])
      ensures old(Coherent()) ==> Coherent()
    {
      if !initialized {
        return NoErr, false, 0, false;
      }
      if !running {
        Clear();
      }
      status, blocked, queued, started := Fill(data, startStatus, schedule);
    }

    /** The chunk loop of `write`, entered with the stale contents of a
        stopped stream already cleared. */
    method Fill(data: seq<byte>, startStatus: int, schedule: seq<seq<nat>>)
      returns (status: int, blocked: bool, queued: nat, ghost started: bool)
      requires Valid() && initialized
      requires !running ==> buffer == [] && played == []
      modifies this
      ensures Valid() && initialized
      ensures bytesPerFrame == old(bytesPerFrame)
      ensures sampleRate == old(sampleRate) && channelsPerFrame == old(channelsPerFrame)
      ensures queued <= |data| && Stream() == old(Stream()) + data[..queued]
      ensures started <==> !old(running) && queued > 0 && startStatus == NoErr
      ensures !old(running) && |data| > 0 && FramesIn(BufferSize, bytesPerFrame) > 0 ==> queued > 0
      ensures !old(running) && queued > 0 && startStatus != NoErr ==> status == startStatus
      ensures status != NoErr ==>
        && !blocked && !old(running) && status == startStatus && !running
        && queued == ChunkSize(|data|, 0, bytesPerFrame) && queued > 0
      ensures status == NoErr && !blocked && queued < |data| ==> !running && (old(running) || started)
      ensures old(running) && !old(unitStarted) ==> running && !unitStarted && played == old(played)
      ensures blocked ==> FramesIn(BufferSize - |buffer|, bytesPerFrame) == 0
      ensures |schedule| == 0 ==> running == (old(running) || started) && played == old(played)
      ensures old(Coherent()) ==> Coherent()
    {
      started := false;
      queued := 0;
      var runningAtStart := running;
      assert data[..0] == [];
      var k := 0;
      while queued < |data|
        invariant Valid() && initialized
        invariant bytesPerFrame == old(bytesPerFrame)
        invariant sampleRate == old(sampleRate) && channelsPerFrame == old(channelsPerFrame)
        invariant 0 <= k <= |schedule|
        invariant queued <= |data|
        invariant Stream() == old(Stream()) + data[..queued]
        invariant started <==> !old(running) && queued > 0 && startStatus == NoErr
        invariant runningAtStart == (old(running) || started)
        invariant !runningAtStart ==> queued == 0 && buffer == [] && played == [] && !running
        invariant old(running) && !old(unitStarted) ==> running && !unitStarted && played == old(played)
        invariant old(Coherent()) ==> Coherent()
        invariant |schedule| == 0 ==> k == 0 && running == runningAtStart && played == old(played)
        decreases |data| - queued
      {
        // poll until there is room, unless the stream stopped underneath us
        var waitBlocked;
        k, waitBlocked := WaitForSpace(runningAtStart, schedule, k);
        if waitBlocked {
          return NoErr, true, queued, started;
        }
        if runningAtStart && !running {
          return NoErr, false, queued, started;
        }
        var n := ChunkSize(|data| - queued, |buffer|, bytesPerFrame);
        assert data[..queued] + data[queued..queued + n] == data[..queued + n];
        Enqueue(data[queued..queued + n]);
        queued := queued + n;
        if !runningAtStart {
          if startStatus == NoErr {
            running, unitStarted := true, true;
            runningAtStart := true;
            started := true;
          } else {
            return startStatus, false, queued, started;
          }
        }
      }
      status, blocked := NoErr, false;
    }

    /** `coreaudio_object_drain`: poll until the callback has stopped the stream. */
    method Drain(schedule: seq<seq<nat>>) returns (status: int, blocked: bool)
      requires Valid()
      modifies this
      ensures Valid()
      ensures initialized == old(initialized) && bytesPerFrame == old(bytesPerFrame)
      ensures sampleRate == old(sampleRate) && channelsPerFrame == old(channelsPerFrame)
      ensures status == NoErr
      ensures Stream() == old(Stream())
      ensures !old(initialized) ==>
        !blocked && buffer == old(buffer) && running == old(running) && unitStarted == old(unitStarted)
      ensures old(initialized) && !blocked ==> !running
      ensures old(running) && !old(unitStarted) ==> blocked || !old(initialized)
      ensures old(Coherent()) ==> Coherent()
    {
      if !initialized {
        return NoErr, false;
      }
      var k := 0;
      if k < |schedule| {
        RunEngine(schedule[k]);
        k := k + 1;
      }
      while running
        invariant Valid()
        invariant initialized == old(initialized) && bytesPerFrame == old(bytesPerFrame)
        invariant sampleRate == old(sampleRate) && channelsPerFrame == old(channelsPerFrame)
        invariant 0 <= k <= |schedule|
        invariant Stream() == old(Stream())
        invariant old(running) && !old(unitStarted) ==> running && !unitStarted
        invariant old(Coherent()) ==> Coherent()
        decreases |schedule| - k
      {
        if k == |schedule| {
          return NoErr, true;
        }
        RunEngine(schedule[k]);
        k := k + 1;
      }
      return NoErr, false;
    }

    /** `coreaudio_object_flush`.  `stopStatus` is what `AudioOutputUnitStop`
        returns; the unit is stopped when that succeeds. */
    method Flush(stopStatus: int) returns (status: int)
      requires Valid()
      modifies this
      ensures Valid()
      ensures initialized == old(initialized) && bytesPerFrame == old(bytesPerFrame)
      ensures sampleRate == old(sampleRate) && channelsPerFrame == old(channelsPerFrame)
      ensures !old(initialized) ==> status == NoErr && unchanged(this)
      ensures old(Coherent()) ==> Coherent()
      ensures old(initialized) ==>
        && status == stopStatus
        && buffer == [] && played == [] && !running
        && unitStarted == (old(unitStarted) && stopStatus != NoErr)
    {
      if !initialized {
        return NoErr;
      }
      status := stopStatus;
      if stopStatus == NoErr {
        unitStarted := false;
      }
      Clear();
      running := false;
    }
  }

  /** On a fresh object whose native calls all succeed, the first write of
      1000 bytes with no callback in between enqueues all of them and starts
      the unit. */
  method StartOnFirstWrite() returns (openStatus: int, writeStatus: int, queued: nat, running: bool, unitStarted: bool)
    ensures openStatus == NoErr && writeStatus == NoErr && queued == 1000 && running && unitStarted
  {
    var o := new CoreAudioObject();
    openStatus := o.Open(S16LE, 44100, 1, [NoErr, NoErr, NoErr, NoErr, NoErr]);
    var blocked;
    ghost var started;
    writeStatus, blocked, queued, started := o.Write(Silence(1000), NoErr, []);
    running, unitStarted := o.running, o.unitStarted;
  }

  /** As written, closing while the stream plays leaves `running` set with the
      unit stopped; after the object is reopened, a write larger than the
      buffer never returns, whatever the engine does, since nothing starts the
      unit again. */
  method ReopenAfterCloseWhilePlaying(schedule: seq<seq<nat>>) returns (blocked: bool, running: bool, unitStarted: bool)
    ensures blocked && running && !unitStarted
  {
    var o := new CoreAudioObject();
    var s := o.Open(S16LE, 44100, 1, [NoErr, NoErr, NoErr, NoErr, NoErr]);
    var st, b, q, started := o.Write([0, 0], NoErr, []);
    o.Close();
    s := o.Open(S16LE, 44100, 1, [NoErr, NoErr, NoErr, NoErr, NoErr]);
    assert o.running && !o.unitStarted && o.Stream() == [];
    var data := Silence(BufferSize + 2);
    st, blocked, q, started := o.Write(data, NoErr, schedule);
    // nothing was played, so everything queued is still in the buffer, which
    // cannot hold all of the data
    assert o.played == [] && o.Stream() == data[..q];
    assert o.buffer == data[..q];
    assert q < |data|;
    running, unitStarted := o.running, o.unitStarted;
  }

  /** With the intended close, the same sequence keeps the object coherent:
      the write after reopening starts the unit with its first chunk. */
  method ReopenAfterIntendedClose(schedule: seq<seq<nat>>) returns (queued: nat, running: bool, unitStarted: bool)
    ensures queued > 0 && (running ==> unitStarted)
  {
    var o := new CoreAudioObject();
    var s := o.Open(S16LE, 44100, 1, [NoErr, NoErr, NoErr, NoErr, NoErr]);
    var st, b, q, started := o.Write([0, 0], NoErr, []);
    o.CloseIntended();
    s := o.Open(S16LE, 44100, 1, [NoErr, NoErr, NoErr, NoErr, NoErr]);
    var data := Silence(BufferSize + 2);
    st, b, queued, started := o.Write(data, NoErr, schedule);
    running, unitStarted := o.running, o.unitStarted;
  }
}
