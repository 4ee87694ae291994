/** The receiving half of the cursor stream: deduplication, resets, and frames held behind their watermark. */
module Client {
  import opened Common
  import opened Publisher

  datatype Stats = Stats(framesReceived: nat, framesDropped: nat, batchesReceived: nat, retransmits: nat)

  datatype State = State(
    epoch: Bytes,
    applied: nat,
    baselineRevision: Option<nat>,
    pendingFrame: Option<Frame>,
    lastFrame: nat,
    stats: Stats)

  const FRESH := State([], 0, None, None, 0, Stats(0, 0, 0, 0))

  /** What `recv` hands to its caller for one payload; `Silent` means it goes on receiving. */
  datatype Output = Silent | ShowFrame(frame: Frame) | ApplyBatch(page: EventPage) | ResetTimeline(revision: nat, cursor: Option<real>)

  function Show(c: State, frame: Frame): (State, Output) {
    (c.(lastFrame := frame.sequence, stats := c.stats.(framesReceived := c.stats.framesReceived + 1)), ShowFrame(frame))
  }

  function DropFrame(c: State): (State, Output) {
    (c.(stats := c.stats.(framesDropped := c.stats.framesDropped + 1)), Silent)
  }

  /** The head of `recv`: release the held frame once its watermark has been applied. */
  function Release(c: State): (State, Output) {
    if c.pendingFrame.Some? && c.pendingFrame.value.watermark <= c.applied then
      var taken := c.(pendingFrame := None);
      if c.pendingFrame.value.sequence > c.lastFrame then Show(taken, c.pendingFrame.value) else DropFrame(taken)
    else (c, Silent)
  }

  function EnterEpoch(c: State, epoch: Bytes): State {
    if c.epoch == epoch then c
    else c.(epoch := epoch, applied := 0, baselineRevision := None, pendingFrame := None, lastFrame := 0)
  }

  function EnterBaseline(c: State, page: EventPage): State {
    if page.baseline && c.baselineRevision != Some(page.revision)
    then c.(applied := 0, baselineRevision := Some(page.revision), pendingFrame := None)
    else c
  }

  function Receive(c: State, epoch: Bytes, packet: Packet): (State, Output) {
    match packet
    case FramePacket(frame) =>
      if frame.sequence <= c.lastFrame then DropFrame(c)
      else if frame.watermark <= c.applied then Show(c, frame)
      else if c.pendingFrame.None? || c.pendingFrame.value.sequence < frame.sequence then (c.(pendingFrame := Some(frame)), Silent)
      else (c, Silent)
    case PagePacket(page) =>
      var ready := EnterBaseline(EnterEpoch(c, epoch), page);
      if page.sequence <= ready.applied
      then (ready.(stats := ready.stats.(retransmits := ready.stats.retransmits + 1)), Silent)
      else (ready.(applied := page.sequence, stats := ready.stats.(batchesReceived := ready.stats.batchesReceived + 1)),
            ApplyBatch(page))
    case ResetPacket(_, revision, cursor) =>
      if c.epoch == epoch && c.baselineRevision == Some(revision) then (c, Silent)
      else (c.(epoch := epoch, applied := 0, baselineRevision := Some(revision), pendingFrame := None, lastFrame := 0),
            ResetTimeline(revision, cursor))
  }

  /** Every batch is acknowledged on arrival, applied or not. */
  function AckFor(packet: Packet): Option<nat> {
    if packet.PagePacket? then Some(packet.page.sequence) else None
  }

  // ----- the counters --------------------------------------------------------------

  /** A payload, or another call of `recv`, which looks at the held frame first. */
  datatype Input = Got(epoch: Bytes, packet: Packet) | Called

  function Step(c: State, input: Input): State {
    match input
    case Got(epoch, packet) => Receive(c, epoch, packet).0
    case Called => Release(c).0
  }

  function After(inputs: seq<Input>): State {
    if inputs == [] then FRESH else Step(After(inputs[..|inputs| - 1]), inputs[|inputs| - 1])
  }

  function FramesGot(inputs: seq<Input>): nat {
    if inputs == [] then 0
    else FramesGot(inputs[..|inputs| - 1]) + (if inputs[|inputs| - 1].Got? && inputs[|inputs| - 1].packet.FramePacket? then 1 else 0)
  }

  function PagesGot(inputs: seq<Input>): nat {
    if inputs == [] then 0
    else PagesGot(inputs[..|inputs| - 1]) + (if inputs[|inputs| - 1].Got? && inputs[|inputs| - 1].packet.PagePacket? then 1 else 0)
  }

  /**
   Whatever arrives: every page is counted once, as new or as repeated, and no frame is counted twice, as shown, as
   dropped, or still held.
   */
  lemma {:induction false} CountersAccount(inputs: seq<Input>)
    ensures var c := After(inputs);
            && c.stats.batchesReceived + c.stats.retransmits == PagesGot(inputs)
            && c.stats.framesReceived + c.stats.framesDropped + (if c.pendingFrame.Some? then 1 else 0) <= FramesGot(inputs)
  {
    if inputs != [] {
      CountersAccount(inputs[..|inputs| - 1]);
    }
  }

  class CursorClient {
    var streamEpoch: Bytes
    var appliedEventSequence: nat
    var baselineRevision: Option<nat>
    var pendingFrame: Option<Frame>
    var lastFrameSequence: nat
    var stats: Stats

    function Value(): State
      reads this
    {
      State(streamEpoch, appliedEventSequence, baselineRevision, pendingFrame, lastFrameSequence, stats)
    }

    constructor ()
      ensures Value() == FRESH
    {
      streamEpoch, appliedEventSequence, baselineRevision := [], 0, None;
      pendingFrame, lastFrameSequence, stats := None, 0, Stats(0, 0, 0, 0);
    }

    method ReleaseHeld() returns (output: Output)
      modifies this
      ensures (Value(), output) == Release(old(Value()))
    {
      if pendingFrame.Some? && pendingFrame.value.watermark <= appliedEventSequence {
        var frame := pendingFrame.value;
        pendingFrame := None;
        if frame.sequence > lastFrameSequence {
          lastFrameSequence := frame.sequence;
          stats := stats.(framesReceived := stats.framesReceived + 1);
          return ShowFrame(frame);
        }
        stats := stats.(framesDropped := stats.framesDropped + 1);
      }
      output := Silent;
    }

    method ReceivePayload(epoch: Bytes, packet: Packet) returns (output: Output, ack: Option<nat>)
      modifies this
      ensures (Value(), output) == Receive(old(Value()), epoch, packet)
      ensures ack == AckFor(packet)
    {
      ack := None;
      match packet
      case FramePacket(frame) =>
        if frame.sequence <= lastFrameSequence {
          stats := stats.(framesDropped := stats.framesDropped + 1);
          output := Silent;
        } else if frame.watermark <= appliedEventSequence {
          lastFrameSequence := frame.sequence;
          stats := stats.(framesReceived := stats.framesReceived + 1);
          output := ShowFrame(frame);
        } else {
          if pendingFrame.None? || frame.sequence > pendingFrame.value.sequence {
            pendingFrame := Some(frame);
          }
          output := Silent;
        }
      case PagePacket(page) =>
        ack := Some(page.sequence);
        if streamEpoch != epoch {
          streamEpoch := epoch;
          appliedEventSequence := 0;
          baselineRevision := None;
          pendingFrame := None;
          lastFrameSequence := 0;
        }
        if page.baseline && baselineRevision != Some(page.revision) {
          appliedEventSequence := 0;
          baselineRevision := Some(page.revision);
          pendingFrame := None;
        }
        if page.sequence <= appliedEventSequence {
          stats := stats.(retransmits := stats.retransmits + 1);
          output := Silent;
        } else {
          appliedEventSequence := page.sequence;
          stats := stats.(batchesReceived := stats.batchesReceived + 1);
          output := ApplyBatch(page);
        }
      case ResetPacket(_, revision, cursor) =>
        if streamEpoch == epoch && baselineRevision == Some(revision) {
          output := Silent;
        } else {
          streamEpoch := epoch;
          appliedEventSequence := 0;
          baselineRevision := Some(revision);
          pendingFrame := None;
          lastFrameSequence := 0;
          output := ResetTimeline(revision, cursor);
        }
    }
  }
}
