/**
 The upward byte stream of one mux: the child's terminal output, stripped of forged frames, with
 the mux's own frames written between reads. The relay above splits it again with a scanner.
 */
module MuxStream {
  import opened Bytes
  import opened Apc
  import opened ApcLaws

  datatype Action = ChildReads(chunk: seq<Byte>) | SendsFrame(frame: seq<Byte>)

  /** The child-side scanner and everything written to the parent. */
  datatype Pump = Pump(child: Scan, written: seq<Byte>)

  function Act(p: Pump, a: Action): Pump
    requires Sane(p.child)
  {
    match a
    case ChildReads(chunk) =>
      var r := Feed(p.child, chunk);
      Pump(r.scan, p.written + r.output.out)
    case SendsFrame(frame) => if frame == [] then p else p.(written := p.written + Envelope(frame))
  }

  function Run(actions: seq<Action>): (p: Pump)
    ensures Sane(p.child)
    decreases |actions|
  {
    if actions == [] then Pump(IDLE, []) else Act(Run(actions[..|actions| - 1]), actions[|actions| - 1])
  }

  /** The pump's two writers to the parent, each called between reads. */
  class Upward {
    const child: Filter
    var written: seq<Byte>

    ghost function View(): Pump
      reads this, child
    {
      Pump(child.View(), written)
    }

    constructor ()
      ensures View() == Pump(IDLE, []) && fresh(child)
    {
      child := new Filter();
      written := [];
    }

    method ChildReadable(chunk: seq<Byte>)
      requires Sane(child.View())
      modifies this, child
      ensures View() == Act(old(View()), ChildReads(chunk))
    {
      var o := child.FeedChunk(chunk);
      if |o.out| > 0 { written := written + o.out; }
      assert o.out == [] ==> written + o.out == written;
    }

    method SendUp(frame: seq<Byte>)
      requires Sane(child.View())
      modifies this
      ensures View() == Act(old(View()), SendsFrame(frame))
    {
      if |frame| == 0 { return; }
      written := written + Envelope(frame);
    }
  }

  /** All the child wrote. */
  function ChildOutput(actions: seq<Action>): seq<Byte> {
    if actions == [] then []
    else
      var a := actions[|actions| - 1];
      ChildOutput(actions[..|actions| - 1]) + if a.ChildReads? then a.chunk else []
  }

  /** The frames the mux sent, in order (an empty frame is not sent). */
  function FramesSent(actions: seq<Action>): seq<seq<Byte>> {
    if actions == [] then []
    else
      var a := actions[|actions| - 1];
      FramesSent(actions[..|actions| - 1]) + if a.SendsFrame? && a.frame != [] then [a.frame] else []
  }

  predicate FramesSafe(actions: seq<Action>) {
    forall i | 0 <= i < |actions| :: actions[i].SendsFrame? ==> Safe(actions[i].frame)
  }

  /** Terminal bytes with every frame of ours removed. */
  function Strip(data: seq<Byte>): seq<Byte> { Feed(IDLE, data).output.out }

  lemma ActKeeps(p: Pump, a: Action, out: seq<Byte>, events: seq<seq<Byte>>)
    requires Replayable(p.child) && Feed(IDLE, p.written) == Fed(IDLE, Output(out, events))
    requires a.SendsFrame? ==> Safe(a.frame)
    ensures var p' := Act(p, a);
            && Replayable(p'.child)
            && Feed(IDLE, p'.written) == Fed(IDLE, match a
                 case ChildReads(chunk) => Output(out + Feed(p.child, chunk).output.out, events)
                 case SendsFrame(frame) => Output(out, events + if frame == [] then [] else [frame]))
  {
    match a
    case ChildReads(chunk) =>
      ForwardedIsComplete(p.child, chunk);
      hide Feed;
      FeedInParts(IDLE, p.written, Feed(p.child, chunk).output.out);
      assert events + [] == events;
    case SendsFrame(frame) =>
      if frame != [] {
        EnvelopeRoundTrip(frame);
        hide Feed;
        FeedInParts(IDLE, p.written, Envelope(frame));
        assert out + [] == out;
      } else {
        assert events + [] == events;
      }
  }

  lemma {:induction false} RunKeeps(actions: seq<Action>)
    requires FramesSafe(actions)
    ensures var p := Run(actions);
            && Replayable(p.child)
            && Feed(IDLE, ChildOutput(actions)).scan == p.child
            && Feed(IDLE, p.written) == Fed(IDLE, Output(Strip(ChildOutput(actions)), FramesSent(actions)))
    decreases |actions|
  {
    if actions == [] {
      FeedNothing(IDLE);
    } else {
      var init, a := actions[..|actions| - 1], actions[|actions| - 1];
      RunKeeps(init);
      ActKeeps(Run(init), a, Strip(ChildOutput(init)), FramesSent(init));
      hide Feed, Replayable;
      if a.ChildReads? {
        FeedInParts(IDLE, ChildOutput(init), a.chunk);
        assert FramesSent(actions) == FramesSent(init);
      } else {
        assert ChildOutput(actions) == ChildOutput(init);
        assert FramesSent(init) + [] == FramesSent(init);
      }
    }
  }

  /**
   In-band transparency: for any child output, any safe frames sent at any moments, and any chunks
   the stream arrives in, the scanner above recovers exactly those frames in order and exactly the
   child's stripped bytes in order, whatever the child tried to forge.
   */
  lemma Transparent(actions: seq<Action>, chunks: seq<seq<Byte>>)
    requires FramesSafe(actions) && Concat(chunks) == Run(actions).written
    ensures FeedChunks(IDLE, chunks) == Fed(IDLE, Output(Strip(ChildOutput(actions)), FramesSent(actions)))
  {
    RunKeeps(actions);
    ChunkingIrrelevant(IDLE, chunks);
  }

  /** The terminal bytes that come out above `n` stacked muxes. */
  function StripThrough(data: seq<Byte>, n: nat): seq<Byte> {
    if n == 0 then data else Strip(StripThrough(data, n - 1))
  }

  /** Further hops change nothing: one mux strips as much as any number of them. */
  lemma {:induction false} OneHopStripsAll(data: seq<Byte>, n: nat)
    requires n >= 1
    ensures StripThrough(data, n) == Strip(data)
  {
    if n > 1 {
      OneHopStripsAll(data, n - 1);
      StripIdempotent(data);
    } else {
      assert StripThrough(data, 0) == data;
    }
  }
}
