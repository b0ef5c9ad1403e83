/** Both halves in one object: `Engine` as the offline tools and tests drive it. */
module Lockstep {
  import opened Numbers
  import opened Clock
  import opened Pattern
  import opened Scheduling
  import opened Rendering
  import opened Controlling
  import opened Engines
  import opened GridRuns
  import ControlHalf
  import Observing
  import Following

  class LockstepEngine {
    const control: ControlHalf.Control
    const renderer: Renderer

    ghost predicate Ok()
      reads this, control, control.internal, control.follower, control.scheduler, control.queue, control.queued,
            renderer, renderer.consumer
    {
      control.Valid() && renderer.Valid() && renderer.consumer == control.queue
    }

    ghost function Value(): (e: Engine)
      reads this, control, control.internal, control.follower, control.scheduler, control.queue, control.queued,
            control.queued.entries, renderer, renderer.pending, renderer.consumer
      requires Ok()
      ensures e.Valid()
    {
      Engine(control.Value(), renderer.Value())
    }

    constructor (sampleRate: real, bpm: real, precision: Following.Precision, pattern: Pattern, lookahead: nat)
      requires sampleRate > 0.0 && pattern.Valid()
      ensures Ok() && Settled(Value()) && IsNew(Value())
    {
      var queue := new EventQueue(EVENT_QUEUE_CAPACITY, []);
      control := new ControlHalf.Control(sampleRate, bpm, precision, pattern, queue, lookahead);
      renderer := new Renderer(queue);
      new;
      IdleIsSettled(Value());
    }

    lemma IdleIsSettled(e: Engine)
      requires e.Valid() && e.control.pendingFlush == None && e.renderer == RenderState(0, [], [], 0)
      requires e.control.queue.pushed == [] && e.control.queue.popped == 0
      ensures Settled(e)
    {
      assert Events([]) == [];
    }

    /** One block: a tick of the control half, then the renderer. */
    method RenderBlock(frames: nat)
      requires Ok()
      modifies control`pendingFlush, control`published, control`renderBlock, control.queue, control.queued`head,
               control.queued`len, control.queued.entries, control.scheduler, control.follower, renderer,
               renderer.pending
      ensures Ok() && renderer.pending == old(renderer.pending) && renderer.position == old(renderer.position) + frames
      ensures var following := control.mode == Mode.Following;
              var f := if following then Following.Advanced(old(control.follower.Value()),
                  Observing.Finite(old(renderer.position) as real))
                       else old(control.follower.Value());
              && f.Output().Valid()
              && Value() == After(old(Value()), Render(frames, f.Output(), following && f.discontinuity))
    {
      hide Ticked, Processed, Following.Advanced, Following.Valid, Controlling.ControlState.Valid;
      var count := control.Tick(renderer.published, renderer.position);
      renderer.Process(frames);
    }

    /** Cuts `frames` samples into blocks no longer than `blockSize`: a run of renders, as `ops` lists them. */
    method RenderFrames(frames: nat, blockSize: nat) returns (ghost ops: seq<Op>)
      requires Ok()
      modifies control`pendingFlush, control`published, control`renderBlock, control.queue, control.queued`head,
               control.queued`len, control.queued.entries, control.scheduler, control.follower, renderer,
               renderer.pending
      ensures Ok() && renderer.position == old(renderer.position) + frames
      ensures OpsValid(ops) && Value() == Run(old(Value()), ops)
      ensures forall i :: 0 <= i < |ops| ==> ops[i].Render? && 1 <= ops[i].frames <= Max(blockSize, 1)
    {
      hide After, Run, Following.Advanced, OpValid;
      var block := Max(blockSize, 1);
      var left: nat := frames;
      ghost var start := Value();
      ops := [];
      RunFirst(start, ops);
      while left > 0
        invariant Ok() && renderer.pending == old(renderer.pending) && left >= 0
        invariant renderer.position + left == old(renderer.position) + frames
        invariant OpsValid(ops) && Value() == Run(start, ops)
        invariant forall i :: 0 <= i < |ops| ==> ops[i].Render? && 1 <= ops[i].frames <= block
      {
        var n := Min(block, left);
        ghost var following := control.mode == Mode.Following;
        ghost var f := if following then Following.Advanced(control.follower.Value(),
                                                            Observing.Finite(renderer.position as real))
                       else control.follower.Value();
        RenderBlock(n);
        ghost var op := Render(n, f.Output(), following && f.discontinuity);
        RenderOk(op);
        RunAppend(start, ops, op);
        ops := ops + [op];
        left := left - n;
      }
    }

    lemma RenderOk(op: Op)
      requires op.Render? && op.advanced.Valid()
      ensures OpValid(op)
    {
    }
  }
}
