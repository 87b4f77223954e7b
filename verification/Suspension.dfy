/** nimble_task_suspend and nimble_task_resume: only a resume brings a suspended task back. */
module Suspension {
  import opened Base
  import opened Sequences
  import opened Scheduler
  import opened Membership
  import opened Kernel
  import opened Invariants
  import opened Effects

  predicate IsSuspended(s: Sched, t: Tid) { t in s.tasks && T(s, t).state == Suspended }

  lemma SuspendedDoesNotAct(k: Kernel, step: Step, t: Tid)
    requires Inv(k) && Enabled(k, step) && IsSuspended(k.s, t)
    ensures Actor(k, step) != Some(t)
  {}

  /** No signal, tick, switch or other call moves a suspended task: only its own resume does. */
  lemma OnlyResumeRevives(k: Kernel, step: Step, t: Tid)
    requires Inv(k) && Enabled(k, step) && IsSuspended(k.s, t)
    ensures IsSuspended(Next(k, step).0.s, t) <==> step != Resume(t)
  {
    SuspendedDoesNotAct(k, step, t);
    if step == Resume(t) {
      ResumeRevives(k.s, t);
    } else {
      hide Inv, Enabled, Next, T;
      var u := Bystander(k, step, t);
    }
  }

  lemma ResumeRevives(s: Sched, t: Tid)
    requires IsSuspended(s, t)
    ensures var u := ResumeTask(s, t);
      !IsSuspended(u, t) && T(u, t) == T(s, t).(state := Ready, link := OnReady(T(s, t).prio))
      && R(u, T(s, t).prio) == R(s, T(s, t).prio) + [t]
  {
    hide ResumeTask, T, R;
    var u := ResumeEffect(s, t);
  }

  /** Nobody resumes `t` in the run. */
  predicate NeverResumed(steps: seq<Step>, t: Tid) {
    forall step :: step in steps ==> step != Resume(t)
  }

  /** A suspended task stays so, and never runs, in every run that does not resume it. */
  lemma {:induction false} SuspendedThroughout(k: Kernel, steps: seq<Step>, t: Tid)
    requires Inv(k) && Legal(k, steps) && IsSuspended(k.s, t) && NeverResumed(steps, t)
    ensures IsSuspended(Run(k, steps).s, t) && !IsRunning(Run(k, steps).s, t)
    decreases |steps|
  {
    if steps != [] {
      hide Inv, Enabled, Next, T;
      assert steps[0] in steps && forall x :: x in steps[1..] ==> x in steps;
      OnlyResumeRevives(k, steps[0], t);
      NextKeeps(k, steps[0]);
      SuspendedThroughout(Next(k, steps[0]).0, steps[1..], t);
    }
  }
}
