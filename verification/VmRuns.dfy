/** A run of the VM, one step at a time. */
module VmRuns {
  import VM

  lemma ResumeGoesOn<W>(f: VM.Frame<W>, m: VM.Machine, r: VM.Reply<W>)
    ensures VM.Resume(f, m, r).Next? || VM.Resume(f, m, r).Abort?
  {
  }

  /** Where a run that calls out goes on. */
  lemma {:induction false} RunInvokes<W>(f: VM.Frame<W>, w: W, m: VM.Machine, s: VM.StepResult, r: VM.Reply<W>,
      t: VM.StepResult)
    requires m.pc < |f.code| && VM.Step(f, m) == s && s.Invoke? && f.host.Host?
    requires r == f.host.call(w, f.ctx.self, s.target, s.arg, s.forward, f.ctx.depth + 1) && t == VM.Resume(f, s.m, r)
    requires t.Next? || t.Abort?
    ensures VM.Run(f, w, m) == if t.Next? then VM.Run(f, r.world, t.m) else VM.Failure(t.err, r.world, t.spent)
  {
  }

  lemma {:induction false} RunSteps<W>(f: VM.Frame<W>, w: W, m: VM.Machine, s: VM.StepResult)
    requires m.pc < |f.code| && VM.Step(f, m) == s && !s.Invoke?
    ensures VM.Run(f, w, m) == match s
                               case Next(m1) => VM.Run(f, w, m1)
                               case Halt(m1, ret, rb) => VM.Success(m1, ret, rb, w)
                               case Abort(e, spent) => VM.Failure(e, w, spent)
  {
  }
}
