/**
 * The recording state machine of `VideoChunker` as values: one `Model` record
 * holds the chunker's fields together with the parts of the asset writer it
 * reads (status, readiness) and a log of every call it makes on the writer.
 * `Started`, `Finished` and `Consumed` are the three operations; `Run` replays
 * a sequence of calls and platform changes, and the lemmas at the end state
 * what holds over every such sequence.
 */
module ChunkerModel {
  import opened Options

  /** Media time is kept in ticks of the timescale `CMTime` is built with: `Timescale` ticks per second. */
  const Timescale: nat := 600
  type Ticks = int

  /** One frame interval at 30 frames per second, in ticks. */
  const FrameAt30: Ticks := Timescale / 30

  datatype State = Pending | Writing | AwaitingSingleFrame | Complete

  /** An opaque camera frame; two buffers are the same frame when their ids agree. */
  datatype PixelBuffer = PixelBuffer(id: nat)

  /** The still image made from a pixel buffer; its rendering is opaque. */
  datatype Image = ImageOf(pixelBuffer: PixelBuffer)

  /** A captured sample: its presentation timestamp and, when present, its image buffer. */
  datatype SampleBuffer = SampleBuffer(timestamp: Ticks, imageBuffer: Option<PixelBuffer>)

  /** The identity of a closure handed to the chunker. */
  datatype Callback = Callback(id: nat)

  /** The status an asset writer reports; the platform, not the chunker, changes it. */
  datatype WriterStatus = StatusUnknown | StatusWriting | StatusCompleted | StatusFailed | StatusCancelled

  /** One call the chunker makes on its asset writer (or on the pixel-buffer adaptor). */
  datatype WriterCall =
    | StartWriting
    | StartSession(sourceTime: Ticks)
    | Append(pixelBuffer: PixelBuffer, presentationTime: Ticks)
    | FinishWriting

  /**
   * The two one-shot channels through which the chunker hands out a still
   * image: `onSingleFrameCaptured` when the session starts, and the
   * `provideSingleFrame` callback stored by `finish`.
   */
  datatype Channel = SessionStart | StillFrameRequest

  /** One invocation of a stored callback with an image. */
  datatype Notification = Notification(channel: Channel, callback: Callback, image: Image)

  datatype Model = Model(
    state: State,
    startTime: Option<Ticks>,
    provideSingleFrame: Option<Callback>,
    onSingleFrameCaptured: Option<Callback>,
    status: WriterStatus,
    ready: bool,
    log: seq<WriterCall>,
    notifications: seq<Notification>)

  /** A freshly built chunker over a writer that has not been called yet. */
  function Initial(onSingleFrameCaptured: Option<Callback>, status: WriterStatus, ready: bool): Model
  {
    Model(Pending, None, None, onSingleFrameCaptured, status, ready, [], [])
  }

  /** The still image handed to `provideSingleFrame`. */
  function SingleFrame(pixelBuffer: PixelBuffer): Image
  {
    ImageOf(pixelBuffer)
  }

  /** The frame captured when the session starts: the source has no capture logic and gives none. */
  function CaptureSingleFrame(): (r: Option<Image>)
    ensures r.None?
  {
    None
  }

  /**
   * The notification made by Swift's `if let image { callback?(image) }`:
   * one when both the optional callback and the optional image are present.
   */
  function Invoked(channel: Channel, callback: Option<Callback>, image: Option<Image>): seq<Notification>
  {
    match (callback, image)
    case (Some(cb), Some(img)) => [Notification(channel, cb, img)]
    case _ => []
  }

  // ---------------------------------------------------------------------------
  // Views of the writer log

  /** The `Append` calls of a log, in order. */
  function Appended(log: seq<WriterCall>): (r: seq<WriterCall>)
    ensures |r| <= |log|
    ensures forall i :: 0 <= i < |r| ==> r[i].Append?
  {
    if log == [] then []
    else if log[|log| - 1].Append? then Appended(log[..|log| - 1]) + [log[|log| - 1]]
    else Appended(log[..|log| - 1])
  }

  /** How many times the log asks the writer to finish. */
  function FinishRequests(log: seq<WriterCall>): (n: nat)
    ensures n <= |log|
  {
    if log == [] then 0
    else FinishRequests(log[..|log| - 1]) + (if log[|log| - 1] == FinishWriting then 1 else 0)
  }

  /** The log with its trailing `FinishWriting` calls removed. */
  function WithoutFinishes(log: seq<WriterCall>): (r: seq<WriterCall>)
    ensures r <= log
    ensures r == [] || r[|r| - 1] != FinishWriting
  {
    if log != [] && log[|log| - 1] == FinishWriting then WithoutFinishes(log[..|log| - 1]) else log
  }

  /** A log of an open session: the writer was started, the session began at time zero, then only appends. */
  predicate Recording(log: seq<WriterCall>)
  {
    |log| >= 2 && log[0] == StartWriting && log[1] == StartSession(0) && Appended(log[2..]) == log[2..]
  }

  /**
   * What holds of every chunker the operations below can produce: nothing
   * happens before `start`, the still-frame callback is stored exactly when
   * the chunker has been asked to finish, the writer sees `startWriting`,
   * `startSession(.zero)`, appends and then only finish requests, and no frame
   * is appended before the origin is known.
   */
  predicate Coherent(m: Model)
  {
    (m.state == Pending ==> m.log == [] && m.startTime == None && m.notifications == []) &&
    (m.provideSingleFrame.Some? <==> (m.state == AwaitingSingleFrame || m.state == Complete)) &&
    (m.state == Writing ==> Recording(m.log) && m.notifications == []) &&
    (m.state == AwaitingSingleFrame || m.state == Complete ==>
       WithoutFinishes(m.log) == [] || Recording(WithoutFinishes(m.log))) &&
    (m.startTime == None ==> Appended(m.log) == [])
  }

  // ---------------------------------------------------------------------------
  // Facts about the log views

  lemma {:induction false} AppendedConcat(a: seq<WriterCall>, b: seq<WriterCall>)
    ensures Appended(a + b) == Appended(a) + Appended(b)
    decreases |b|
  {
    if b == [] {
      assert a + b == a;
    } else {
      var b' := b[..|b| - 1];
      assert (a + b)[..|a + b| - 1] == a + b';
      AppendedConcat(a, b');
    }
  }

  lemma {:induction false} FinishRequestsConcat(a: seq<WriterCall>, b: seq<WriterCall>)
    ensures FinishRequests(a + b) == FinishRequests(a) + FinishRequests(b)
    decreases |b|
  {
    if b == [] {
      assert a + b == a;
    } else {
      var b' := b[..|b| - 1];
      assert (a + b)[..|a + b| - 1] == a + b';
      FinishRequestsConcat(a, b');
    }
  }

  /** Appending one call to a recording log keeps it recording exactly when the call is an append. */
  lemma RecordingAppend(log: seq<WriterCall>, c: WriterCall)
    requires Recording(log) && c.Append?
    ensures Recording(log + [c])
  {
    assert (log + [c])[2..] == log[2..] + [c];
    AppendedConcat(log[2..], [c]);
    assert Appended([c]) == Appended([]) + [c];
  }

  // ---------------------------------------------------------------------------
  // The three operations

  /**
   * `start()`: only from `pending`; starts the writer, opens its session at
   * time zero, in that order, and enters `writing`. The start-of-session still
   * frame never exists, so no callback fires.
   */
  function Started(m: Model): (r: Model)
    ensures m.state != Pending ==> r == m
    ensures m.state == Pending ==>
      r.state == Writing && r.log == m.log + [StartWriting, StartSession(0)]
    ensures r.notifications == m.notifications
    ensures r.startTime == m.startTime && r.provideSingleFrame == m.provideSingleFrame
  {
    if m.state != Pending then m
    else
      m.(log := m.log + [StartWriting, StartSession(0)], state := Writing,
         notifications := m.notifications + Invoked(SessionStart, m.onSingleFrameCaptured, CaptureSingleFrame()))
  }

  /**
   * `finish(singleFrame:)`: from any state, stores the callback and arms
   * `awaitingSingleFrame`; asks the writer to finish unless it already reports
   * `completed`.
   */
  function Finished(m: Model, singleFrame: Callback): (r: Model)
    ensures r.state == AwaitingSingleFrame && r.provideSingleFrame == Some(singleFrame)
    ensures FinishRequests(r.log) == FinishRequests(m.log) + (if m.status == StatusCompleted then 0 else 1)
    ensures m.status == StatusCompleted ==> r.log == m.log
    ensures Appended(r.log) == Appended(m.log) && m.log <= r.log
    ensures r.startTime == m.startTime && r.notifications == m.notifications
    ensures r.status == m.status && r.ready == m.ready
  {
    var log := if m.status != StatusCompleted then m.log + [FinishWriting] else m.log;
    FinishRequestsConcat(m.log, [FinishWriting]);
    AppendedConcat(m.log, [FinishWriting]);
    assert FinishRequests([FinishWriting]) == FinishRequests([]) + 1;
    assert Appended([FinishWriting]) == Appended([]);
    assert m.log != [] ==> m.log[..|m.log| - 1] + [m.log[|m.log| - 1]] == m.log;
    assert (m.log + [FinishWriting])[..|m.log|] == m.log;
    m.(provideSingleFrame := Some(singleFrame), state := AwaitingSingleFrame, log := log)
  }

  /** The origin a `writing` chunker rebases against once it accepts `buffer`. */
  function Origin(m: Model, buffer: SampleBuffer): Ticks
  {
    match m.startTime
    case Some(t) => t
    case None => buffer.timestamp
  }

  /**
   * `consume(_:)`. Awaiting a still frame, a buffer with an image satisfies
   * the request (and is not appended); one without an image is ignored. While
   * writing and ready, the first frame fixes the origin, and a frame with an
   * image is appended at its timestamp minus the origin. Everything else is
   * dropped.
   */
  function Consumed(m: Model, buffer: SampleBuffer): (r: Model)
    // nothing happens before start or after the still frame was delivered
    ensures m.state == Pending || m.state == Complete ==> r == m
    // a still-frame request is met by the next frame that has an image, and only once
    ensures m.state == AwaitingSingleFrame ==>
      if buffer.imageBuffer.None? then r == m
      else
        r.state == Complete && r.log == m.log && r.startTime == m.startTime &&
        r.notifications == m.notifications +
          (if m.provideSingleFrame.Some?
           then [Notification(StillFrameRequest, m.provideSingleFrame.value, SingleFrame(buffer.imageBuffer.value))]
           else [])
    // a busy writer drops the frame without touching the origin
    ensures m.state == Writing && !m.ready ==> r == m
    ensures m.state == Writing && m.ready ==>
      r.state == Writing && r.notifications == m.notifications &&
      r.startTime == Some(Origin(m, buffer)) &&
      r.log == m.log + (if buffer.imageBuffer.Some?
                        then [Append(buffer.imageBuffer.value, buffer.timestamp - Origin(m, buffer))]
                        else [])
    // the origin, once set, is never reassigned
    ensures m.startTime.Some? ==> r.startTime == m.startTime
    // a frame is appended only from `writing`
    ensures Appended(r.log) != Appended(m.log) ==> m.state == Writing
    ensures m.log <= r.log && r.status == m.status && r.ready == m.ready
  {
    if m.state == AwaitingSingleFrame then
      match buffer.imageBuffer
      case None => m
      case Some(pixelBuffer) =>
        var frame := SingleFrame(pixelBuffer);
        m.(notifications := m.notifications + Invoked(StillFrameRequest, m.provideSingleFrame, Some(frame)),
           state := Complete)
    else if m.state != Writing then m
    else if !m.ready then m
    else
      var origin := Origin(m, buffer);
      var presentationTime := buffer.timestamp - origin;
      match buffer.imageBuffer
      case None => m.(startTime := Some(origin))
      case Some(pixelBuffer) =>
        var call := Append(pixelBuffer, presentationTime);
        AppendedConcat(m.log, [call]);
        assert Appended([call]) == Appended([]) + [call];
        m.(startTime := Some(origin), log := m.log + [call])
  }

  // ---------------------------------------------------------------------------
  // The operations keep the chunker coherent

  lemma StartedCoherent(m: Model)
    requires Coherent(m)
    ensures Coherent(Started(m))
  {
  }

  lemma FinishedCoherent(m: Model, singleFrame: Callback)
    requires Coherent(m)
    ensures Coherent(Finished(m, singleFrame))
  {
  }

  lemma ConsumedCoherent(m: Model, buffer: SampleBuffer)
    requires Coherent(m)
    ensures Coherent(Consumed(m, buffer))
  {
    var r := Consumed(m, buffer);
    if m.state == Writing && m.ready && buffer.imageBuffer.Some? {
      RecordingAppend(m.log, r.log[|m.log|]);
      assert r.log == m.log + [r.log[|m.log|]];
    }
  }

  lemma StepCoherent(m: Model, e: Event)
    requires Coherent(m)
    ensures Coherent(Step(m, e))
  {
    match e
    case Start => StartedCoherent(m);
    case Finish(cb) => FinishedCoherent(m, cb);
    case Consume(buffer) => ConsumedCoherent(m, buffer);
    case _ =>
  }

  // ---------------------------------------------------------------------------
  // Sequences of calls

  /** What can happen to a chunker: one of its three operations, or the platform changing the writer. */
  datatype Event =
    | Start
    | Finish(singleFrame: Callback)
    | Consume(buffer: SampleBuffer)
    | ReadinessChanged(ready: bool)
    | StatusChanged(status: WriterStatus)

  function Step(m: Model, e: Event): Model
  {
    match e
    case Start => Started(m)
    case Finish(cb) => Finished(m, cb)
    case Consume(buffer) => Consumed(m, buffer)
    case ReadinessChanged(ready) => m.(ready := ready)
    case StatusChanged(status) => m.(status := status)
  }

  function Run(m: Model, events: seq<Event>): Model
    decreases |events|
  {
    if events == [] then m else Run(Step(m, events[0]), events[1..])
  }

  function FinishCount(events: seq<Event>): (n: nat)
    ensures n <= |events|
  {
    if events == [] then 0 else (if events[0].Finish? then 1 else 0) + FinishCount(events[1..])
  }

  function ProvidedCount(ns: seq<Notification>): (n: nat)
    ensures n <= |ns|
  {
    if ns == [] then 0
    else ProvidedCount(ns[..|ns| - 1]) + (if ns[|ns| - 1].channel == StillFrameRequest then 1 else 0)
  }

  /** Every reachable chunker is coherent. */
  lemma {:induction false} RunCoherent(m: Model, events: seq<Event>)
    requires Coherent(m)
    ensures Coherent(Run(m, events))
    decreases |events|
  {
    if events != [] {
      StepCoherent(m, events[0]);
      RunCoherent(Step(m, events[0]), events[1..]);
    }
  }

  /** The initial chunker is coherent, and so is everything reachable from it. */
  lemma ReachableCoherent(onSingleFrameCaptured: Option<Callback>, status: WriterStatus, ready: bool, events: seq<Event>)
    ensures Coherent(Run(Initial(onSingleFrameCaptured, status, ready), events))
  {
    RunCoherent(Initial(onSingleFrameCaptured, status, ready), events);
  }

  /** Once the origin is set, no sequence of calls reassigns it. */
  lemma {:induction false} OriginSetOnce(m: Model, events: seq<Event>)
    requires m.startTime.Some?
    ensures Run(m, events).startTime == m.startTime
    decreases |events|
  {
    if events != [] {
      OriginSetOnce(Step(m, events[0]), events[1..]);
    }
  }

  /** Frames consumed before `start` (and before any `finish`) write nothing and leave the chunker pending. */
  lemma {:induction false} NothingBeforeStart(m: Model, events: seq<Event>)
    requires m.state == Pending
    requires forall i :: 0 <= i < |events| ==> !events[i].Start? && !events[i].Finish?
    ensures Run(m, events).state == Pending && Run(m, events).log == m.log
    ensures Run(m, events).startTime == m.startTime && Run(m, events).notifications == m.notifications
    decreases |events|
  {
    if events != [] {
      NothingBeforeStart(Step(m, events[0]), events[1..]);
    }
  }

  /** After `finish`, whatever follows, no frame is appended to the writer again. */
  lemma {:induction false} NoAppendAfterFinish(m: Model, events: seq<Event>)
    requires m.state == AwaitingSingleFrame || m.state == Complete
    ensures Appended(Run(m, events).log) == Appended(m.log)
    decreases |events|
  {
    if events != [] {
      var m' := Step(m, events[0]);
      assert m'.state == AwaitingSingleFrame || m'.state == Complete;
      NoAppendAfterFinish(m', events[1..]);
    }
  }

  /**
   * The still-frame callback fires at most once per `finish`: the deliveries
   * made, plus one if a request is still armed, never exceed the number of
   * `finish` calls (counting an already armed request as one).
   */
  lemma {:induction false} ProvidedAtMostOncePerFinish(m: Model, events: seq<Event>)
    ensures var r := Run(m, events);
      ProvidedCount(r.notifications) + (if r.state == AwaitingSingleFrame then 1 else 0)
        <= ProvidedCount(m.notifications) + (if m.state == AwaitingSingleFrame then 1 else 0) + FinishCount(events)
    decreases |events|
  {
    if events != [] {
      var m' := Step(m, events[0]);
      var ns, ns' := m.notifications, m'.notifications;
      if ns' != ns {
        assert events[0].Consume? && m.state == AwaitingSingleFrame && m'.state == Complete;
        assert |ns'| == |ns| + 1 && ns'[..|ns|] == ns;
      }
      ProvidedAtMostOncePerFinish(m', events[1..]);
    }
  }

  /** From a fresh chunker, the callback given to `finish` fires at most as often as `finish` is called. */
  lemma StillFramesBoundedByFinishes(onSingleFrameCaptured: Option<Callback>, status: WriterStatus, ready: bool, events: seq<Event>)
    ensures ProvidedCount(Run(Initial(onSingleFrameCaptured, status, ready), events).notifications) <= FinishCount(events)
  {
    ProvidedAtMostOncePerFinish(Initial(onSingleFrameCaptured, status, ready), events);
  }

  // ---------------------------------------------------------------------------
  // Presentation times

  /** The presentation times of the appended frames never go backwards. */
  predicate TimesNondecreasing(log: seq<WriterCall>)
  {
    forall i, j :: 0 <= i < j < |log| && log[i].Append? && log[j].Append? ==>
      log[i].presentationTime <= log[j].presentationTime
  }

  /** Every appended frame lies at or before time `t` rebased against the origin. */
  predicate AppendsNotAfter(m: Model, t: Ticks)
  {
    forall i :: 0 <= i < |m.log| && m.log[i].Append? ==>
      m.startTime.Some? && m.log[i].presentationTime <= t - m.startTime.value
  }

  /** The consumed frames' timestamps never go backwards. */
  predicate TimestampsNondecreasing(events: seq<Event>)
  {
    forall i, j :: 0 <= i < j < |events| && events[i].Consume? && events[j].Consume? ==>
      events[i].buffer.timestamp <= events[j].buffer.timestamp
  }

  /** Every consumed frame is stamped at or after `t`. */
  predicate ConsumedFrom(events: seq<Event>, t: Ticks)
  {
    forall i :: 0 <= i < |events| && events[i].Consume? ==> t <= events[i].buffer.timestamp
  }

  lemma ConsumedKeepsTimes(m: Model, buffer: SampleBuffer, t: Ticks)
    requires TimesNondecreasing(m.log) && AppendsNotAfter(m, t) && t <= buffer.timestamp
    ensures TimesNondecreasing(Consumed(m, buffer).log) && AppendsNotAfter(Consumed(m, buffer), buffer.timestamp)
  {
  }

  /** A call that consumes no frame adds no append and leaves the origin alone. */
  lemma OtherEventKeepsTimes(m: Model, e: Event, t: Ticks)
    requires !e.Consume?
    requires TimesNondecreasing(m.log) && AppendsNotAfter(m, t)
    ensures TimesNondecreasing(Step(m, e).log) && AppendsNotAfter(Step(m, e), t)
  {
  }

  /** Dropping the first event keeps the timestamps of the rest in order and above any earlier one. */
  lemma RestOrdered(events: seq<Event>, t: Ticks)
    requires events != []
    requires TimestampsNondecreasing(events) && ConsumedFrom(events, t)
    ensures TimestampsNondecreasing(events[1..])
    ensures ConsumedFrom(events[1..], if events[0].Consume? then events[0].buffer.timestamp else t)
  {
  }

  lemma {:induction false} RunKeepsTimes(m: Model, events: seq<Event>, t: Ticks)
    requires TimesNondecreasing(m.log) && AppendsNotAfter(m, t)
    requires TimestampsNondecreasing(events) && ConsumedFrom(events, t)
    ensures TimesNondecreasing(Run(m, events).log)
    decreases |events|
  {
    if events != [] {
      var e := events[0];
      RestOrdered(events, t);
      if e.Consume? {
        ConsumedKeepsTimes(m, e.buffer, t);
        RunKeepsTimes(Step(m, e), events[1..], e.buffer.timestamp);
      } else {
        OtherEventKeepsTimes(m, e, t);
        RunKeepsTimes(Step(m, e), events[1..], t);
      }
    }
  }

  /** The timestamp of the first consumed frame (0 when there is none). */
  function FirstTimestamp(events: seq<Event>): Ticks
  {
    if events == [] then 0
    else if events[0].Consume? then events[0].buffer.timestamp
    else FirstTimestamp(events[1..])
  }

  lemma {:induction false} ConsumedFromFirst(events: seq<Event>)
    requires TimestampsNondecreasing(events)
    ensures ConsumedFrom(events, FirstTimestamp(events))
  {
    if events != [] && !events[0].Consume? {
      var rest := events[1..];
      assert TimestampsNondecreasing(rest) by {
        forall i, j | 0 <= i < j < |rest| && rest[i].Consume? && rest[j].Consume?
          ensures rest[i].buffer.timestamp <= rest[j].buffer.timestamp
        {
          assert rest[i] == events[i + 1] && rest[j] == events[j + 1];
        }
      }
      ConsumedFromFirst(rest);
      forall i | 0 <= i < |events| && events[i].Consume?
        ensures FirstTimestamp(events) <= events[i].buffer.timestamp
      {
        assert events[i] == rest[i - 1];
      }
    }
  }

  /**
   * Presentation times follow the input: when the consumed frames' timestamps
   * never go backwards, neither do the appended frames' presentation times.
   */
  lemma PresentationTimesNondecreasing(onSingleFrameCaptured: Option<Callback>, status: WriterStatus, ready: bool, events: seq<Event>)
    requires TimestampsNondecreasing(events)
    ensures TimesNondecreasing(Run(Initial(onSingleFrameCaptured, status, ready), events).log)
  {
    ConsumedFromFirst(events);
    RunKeepsTimes(Initial(onSingleFrameCaptured, status, ready), events, FirstTimestamp(events));
  }

  /**
   * The recording scenario of a start, two frames one 30 fps interval apart
   * (the first at any time `t0`), a finish and one more frame: two appends
   * rebased to 0 and one interval, one finish request, and the still image
   * taken from the third frame.
   */
  lemma RecordingScenario(cb: Callback, p1: PixelBuffer, p2: PixelBuffer, p3: PixelBuffer, t0: Ticks)
    ensures var r := Run(Initial(None, StatusUnknown, true),
                         [Start, Consume(SampleBuffer(t0, Some(p1))), Consume(SampleBuffer(t0 + FrameAt30, Some(p2))),
                          Finish(cb), Consume(SampleBuffer(t0 + 2 * FrameAt30, Some(p3)))]);
      r.state == Complete &&
      r.log == [StartWriting, StartSession(0), Append(p1, 0), Append(p2, FrameAt30), FinishWriting] &&
      r.notifications == [Notification(StillFrameRequest, cb, ImageOf(p3))]
  {
    var m0 := Initial(None, StatusUnknown, true);
    var e1, e2, e3 := Consume(SampleBuffer(t0, Some(p1))), Consume(SampleBuffer(t0 + FrameAt30, Some(p2))), Finish(cb);
    var e4 := Consume(SampleBuffer(t0 + 2 * FrameAt30, Some(p3)));
    var evs := [Start, e1, e2, e3, e4];
    var m1 := Step(m0, Start);
    assert m1.state == Writing && m1.log == [StartWriting, StartSession(0)] && m1.notifications == [];
    var m2 := Step(m1, e1);
    assert m2.startTime == Some(t0) && m2.log == m1.log + [Append(p1, 0)];
    var m3 := Step(m2, e2);
    assert m3.log == m2.log + [Append(p2, FrameAt30)] && m3.notifications == [];
    var m4 := Step(m3, e3);
    assert m4.state == AwaitingSingleFrame && m4.provideSingleFrame == Some(cb);
    assert m4.log == m3.log + [FinishWriting];
    var m5 := Step(m4, e4);
    assert m5.state == Complete && m5.log == m4.log;
    assert m5.notifications == [Notification(StillFrameRequest, cb, ImageOf(p3))];
    assert Run(m4, evs[4..]) == m5 by { assert evs[4..] == [e4]; assert evs[4..][1..] == []; }
    assert Run(m3, evs[3..]) == Run(m4, evs[4..]) by { assert evs[3..][1..] == evs[4..]; }
    assert Run(m2, evs[2..]) == Run(m3, evs[3..]) by { assert evs[2..][1..] == evs[3..]; }
    assert Run(m1, evs[1..]) == Run(m2, evs[2..]) by { assert evs[1..][1..] == evs[2..]; }
    assert Run(m0, evs) == Run(m1, evs[1..]);
  }
}
