/**
 * Frames of the chunking protocol and the reassembly of a multi-frame answer
 * (BleService.handleAnswer; BleReceiver.handleAnswer is modelled by the same rule).
 * The byte layout of a frame (FrameCommand.fromHex, BleCommand) is not part of this
 * model: a frame is its decoded fields, and the decoder is a parameter.
 */
module Frames {
  import opened Common

  /** An APDU waiting to be framed and sent, under the id returned to the caller. */
  datatype BlePendingRequest = BlePendingRequest(id: string, apdu: seq<Byte>)

  /** BleCommand(id, apdu, mtu).commands: the frames an APDU is cut into for a given MTU. */
  type Fragmenter = (string, seq<Byte>, int) -> seq<FrameCommand>

  /** A decoded frame: the request id, its index, the declared APDU size and its payload. */
  datatype FrameCommand = FrameCommand(id: string, index: nat, size: nat, apdu: seq<Byte>)

  /** FrameCommand.fromHex(id, hex): decodes a notification for the command `id`. */
  type FrameDecoder = (string, seq<Byte>) -> FrameCommand


  /** `pendingAnswers.sumOf { it.apdu.size }`. */
  function PayloadTotal(frames: seq<FrameCommand>): nat {
    if frames == [] then 0 else PayloadTotal(frames[..|frames| - 1]) + |frames[|frames| - 1].apdu|
  }

  /** The payloads of `frames` concatenated in arrival order (`joinToString("")` of their hex). */
  function Joined(frames: seq<FrameCommand>): seq<Byte> {
    if frames == [] then [] else Joined(frames[..|frames| - 1]) + frames[|frames| - 1].apdu
  }

  /**
   * The completion test of handleAnswer, where `pending` already ends with the frame
   * just received: a first frame is complete on its own when its declared size is its
   * payload length; a later frame completes the answer when the payloads received so
   * far add up to the size declared by the first pending frame.
   */
  predicate IsAnswerComplete(pending: seq<FrameCommand>)
    requires pending != []
  {
    var frame := pending[|pending| - 1];
    if frame.index == 0 then frame.size == |frame.apdu|
    else pending[0].size == PayloadTotal(pending)
  }

  /** The answer handleAnswer returns and the pending list it leaves. */
  datatype Accumulated = Accumulated(answer: Option<seq<Byte>>, pending: seq<FrameCommand>)

  /** One call of handleAnswer: append the frame, then either deliver and clear, or keep. */
  function Accumulate(pending: seq<FrameCommand>, frame: FrameCommand): (r: Accumulated)
    ensures r.answer.Some? <==> IsAnswerComplete(pending + [frame])
    ensures r.answer.Some? ==> r.answer.value == Joined(pending + [frame]) && r.pending == []
    ensures r.answer.None? ==> r.pending == pending + [frame]
  {
    var all := pending + [frame];
    if IsAnswerComplete(all) then Accumulated(Some(Joined(all)), []) else Accumulated(None, all)
  }

  lemma {:induction false} JoinedLength(frames: seq<FrameCommand>)
    ensures |Joined(frames)| == PayloadTotal(frames)
  {
    if frames != [] {
      JoinedLength(frames[..|frames| - 1]);
    }
  }

  /**
   * Starting from an empty list, a completed answer is exactly as long as the size
   * declared by its first frame, and the frames fed in are delivered in order.
   */
  lemma {:induction false} FreshAnswerHasDeclaredSize(frames: seq<FrameCommand>, frame: FrameCommand)
    requires Accumulate(frames, frame).answer.Some?
    requires frames == [] || frame.index != 0
    ensures var answer := Accumulate(frames, frame).answer.value;
            |answer| == (frames + [frame])[0].size && answer == Joined(frames) + frame.apdu
  {
    var all := frames + [frame];
    JoinedLength(all);
    assert all[..|all| - 1] == frames;
  }

  /**
   * handleAnswer does not reset on a new first frame: whatever frames are left over
   * from an unfinished answer, a complete first frame delivers them in front of its own
   * payload, and the pending list is emptied.
   */
  lemma StaleFrameIsJoined(pending: seq<FrameCommand>, frame: FrameCommand)
    requires frame.index == 0 && frame.size == |frame.apdu|
    ensures Accumulate(pending, frame) == Accumulated(Some(Joined(pending) + frame.apdu), [])
  {
    var all := pending + [frame];
    assert all[..|all| - 1] == pending;
  }

  /** `pendingAnswers.sumOf { it.apdu.size }`, computed as a loop. */
  method SumPayloads(frames: seq<FrameCommand>) returns (total: nat)
    ensures total == PayloadTotal(frames)
  {
    total := 0;
    var i := 0;
    while i < |frames|
      invariant 0 <= i <= |frames|
      invariant total == PayloadTotal(frames[..i])
    {
      assert frames[..i + 1][..i] == frames[..i];
      total := total + |frames[i].apdu|;
      i := i + 1;
    }
    assert frames[..i] == frames;
  }

  /** `pendingAnswers.joinToString("") { it.apdu.toHexString() }`, on bytes, as a loop. */
  method JoinPayloads(frames: seq<FrameCommand>) returns (bytes: seq<Byte>)
    ensures bytes == Joined(frames)
    ensures |bytes| == PayloadTotal(frames)
  {
    bytes := [];
    var i := 0;
    while i < |frames|
      invariant 0 <= i <= |frames|
      invariant bytes == Joined(frames[..i])
    {
      assert frames[..i + 1][..i] == frames[..i];
      bytes := bytes + frames[i].apdu;
      i := i + 1;
    }
    assert frames[..i] == frames;
    JoinedLength(frames);
  }

  /**
   * BleReceiver of the state machine: it keeps the frames of the answer in progress.
   * Its source is not part of this model; it is given the rule of BleService.handleAnswer.
   */
  class BleReceiver {
    var pendingAnswers: seq<FrameCommand>
    const decode: FrameDecoder

    constructor (decode: FrameDecoder)
      ensures pendingAnswers == [] && this.decode == decode
    {
      pendingAnswers := [];
      this.decode := decode;
    }

    method HandleAnswer(id: string, value: seq<Byte>) returns (answer: Option<seq<Byte>>)
      modifies this
      ensures Accumulated(answer, pendingAnswers) == Accumulate(old(pendingAnswers), decode(id, value))
    {
      var r := Accumulate(pendingAnswers, decode(id, value));
      answer, pendingAnswers := r.answer, r.pending;
    }
  }
}
