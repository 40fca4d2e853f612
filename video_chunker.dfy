/**
 * `VideoChunker` as the object the source has: its fields change in place and
 * every call it makes on its asset writer is recorded in the writer's log.
 * Each method's effect on the pair (chunker, writer) is the matching operation
 * of `ChunkerModel`, and the chunker stays coherent.
 */
module AV {
  import opened Options
  import opened ChunkerModel

  /**
   * The asset writer the chunker drives, with its input's readiness flag and
   * the pixel-buffer adaptor's append folded in. The platform owns `status`
   * and `isReadyForMoreMediaData`; the chunker's calls only add to `log`.
   */
  class AssetWriter {
    var status: WriterStatus
    var isReadyForMoreMediaData: bool
    ghost var log: seq<WriterCall>

    constructor (status: WriterStatus, isReadyForMoreMediaData: bool)
      ensures this.status == status && this.isReadyForMoreMediaData == isReadyForMoreMediaData
      ensures log == []
    {
      this.status := status;
      this.isReadyForMoreMediaData := isReadyForMoreMediaData;
      log := [];
    }

    method StartWriting()
      modifies this`log
      ensures log == old(log) + [WriterCall.StartWriting]
    {
      log := log + [WriterCall.StartWriting];
    }

    method StartSession(sourceTime: Ticks)
      modifies this`log
      ensures log == old(log) + [WriterCall.StartSession(sourceTime)]
    {
      log := log + [WriterCall.StartSession(sourceTime)];
    }

    method Append(pixelBuffer: PixelBuffer, presentationTime: Ticks)
      modifies this`log
      ensures log == old(log) + [WriterCall.Append(pixelBuffer, presentationTime)]
    {
      log := log + [WriterCall.Append(pixelBuffer, presentationTime)];
    }

    /** Requests finalisation; the platform later reports it through `status`. */
    method FinishWriting()
      modifies this`log
      ensures log == old(log) + [WriterCall.FinishWriting]
    {
      log := log + [WriterCall.FinishWriting];
    }

    /** The platform signalling back-pressure on the writer's input. */
    method SetReadyForMoreMediaData(ready: bool)
      modifies this`isReadyForMoreMediaData
      ensures isReadyForMoreMediaData == ready
    {
      isReadyForMoreMediaData := ready;
    }

    /** The platform moving the writer to a new status (for one, when finalisation completes). */
    method SetStatus(status: WriterStatus)
      modifies this`status
      ensures this.status == status
    {
      this.status := status;
    }
  }

  class VideoChunker {
    var state: State
    const writer: AssetWriter
    /** The rebasing origin, in ticks. */
    var startTime: Option<Ticks>
    var provideSingleFrame: Option<Callback>
    var onSingleFrameCaptured: Option<Callback>
    /** Every callback invocation made so far. */
    ghost var notifications: seq<Notification>

    /** The chunker and its writer as one value of the model. */
    ghost function Snapshot(): Model
      reads this, writer
    {
      Model(state, startTime, provideSingleFrame, onSingleFrameCaptured,
            writer.status, writer.isReadyForMoreMediaData, writer.log, notifications)
    }

    ghost predicate Valid()
      reads this, writer
    {
      Coherent(Snapshot())
    }

    /** A new chunker over a writer nothing has called yet. */
    constructor (writer: AssetWriter, onSingleFrameCaptured: Option<Callback>)
      requires writer.log == []
      ensures this.writer == writer && Valid()
      ensures Snapshot() == Initial(onSingleFrameCaptured, writer.status, writer.isReadyForMoreMediaData)
    {
      state := Pending;
      this.writer := writer;
      startTime := None;
      provideSingleFrame := None;
      this.onSingleFrameCaptured := onSingleFrameCaptured;
      notifications := [];
    }

    method Start()
      requires Valid()
      modifies this, writer
      ensures Valid() && Snapshot() == Started(old(Snapshot()))
      // the guard: anything but `pending` makes this a no-op
      ensures old(state) != Pending ==> Snapshot() == old(Snapshot())
      ensures old(state) == Pending ==>
        state == Writing && writer.log == old(writer.log) + [WriterCall.StartWriting, WriterCall.StartSession(0)]
      ensures notifications == old(notifications)
    {
      ghost var before := Snapshot();
      if state != Pending {
        return;
      }
      writer.StartWriting();
      writer.StartSession(0);
      state := Writing;
      var singleFrame := CaptureSingleFrame();
      notifications := notifications + Invoked(SessionStart, onSingleFrameCaptured, singleFrame);
      assert writer.log == before.log + [WriterCall.StartWriting, WriterCall.StartSession(0)];
      StartedCoherent(before);
    }

    method Finish(singleFrame: Callback)
      requires Valid()
      modifies this, writer
      ensures Valid() && Snapshot() == Finished(old(Snapshot()), singleFrame)
      // re-arms the still-frame request whatever the prior state
      ensures state == AwaitingSingleFrame && provideSingleFrame == Some(singleFrame)
      // never asks a completed writer to finish again
      ensures old(writer.status) == StatusCompleted ==> writer.log == old(writer.log)
      ensures old(writer.status) != StatusCompleted ==> writer.log == old(writer.log) + [WriterCall.FinishWriting]
    {
      ghost var before := Snapshot();
      provideSingleFrame := Some(singleFrame);
      state := AwaitingSingleFrame;
      if writer.status != StatusCompleted {
        writer.FinishWriting();
      }
      FinishedCoherent(before, singleFrame);
    }

    method Consume(buffer: SampleBuffer)
      requires Valid()
      modifies this, writer
      ensures Valid() && Snapshot() == Consumed(old(Snapshot()), buffer)
      // no append unless `writing` on entry: the frame that satisfies the still-frame request is not appended
      ensures old(state) != Writing ==> writer.log == old(writer.log)
      // the origin is set once
      ensures old(startTime).Some? ==> startTime == old(startTime)
      // the stored callback fires at most once per call, and only when leaving `awaitingSingleFrame` for `complete`
      ensures notifications != old(notifications) ==>
        old(state) == AwaitingSingleFrame && state == Complete &&
        notifications == old(notifications) + [Notification(StillFrameRequest, old(provideSingleFrame).value, SingleFrame(buffer.imageBuffer.value))]
    {
      ghost var before := Snapshot();
      ConsumedCoherent(before, buffer);
      if state == AwaitingSingleFrame {
        if buffer.imageBuffer.None? {
          return;
        }
        var frame := SingleFrame(buffer.imageBuffer.value);
        notifications := notifications + Invoked(StillFrameRequest, provideSingleFrame, Some(frame));
        state := Complete;
      }
      if state != Writing {
        return;
      }
      if writer.isReadyForMoreMediaData {
        var timestamp := buffer.timestamp;
        if startTime.None? {
          startTime := Some(timestamp);
        }
        var origin := startTime.value;
        var presentationTime := timestamp - origin;
        if buffer.imageBuffer.None? {
          return;
        }
        writer.Append(buffer.imageBuffer.value, presentationTime);
      }
    }
  }
}
