/**
 * The context switch of the Cortex-M4 port: what the hardware and the two handlers do to the register file
 * and to the words of the task stacks, and that a task always gets its own registers back.
 */
module Context {
  import opened Base

  type Word = nat

  const XPSR_T_BIT: Word := 0x0100_0000

  /** NIMBLE_MIN_STACK_WORDS. */
  const MIN_STACK_WORDS: nat := 64

  /** The words [base, top) of memory. */
  datatype Stack = Stack(base: nat, top: nat)

  /** `low` is r0-r3, r12, lr, pc, xpsr, in stacking order; `high` is r4-r11. */
  datatype Regs = Regs(low: seq<Word>, high: seq<Word>, psp: nat)

  /** `sp` holds the saved stack pointer of each control block, `stacks` the memory given to each task. */
  datatype Machine = Machine(mem: seq<Word>, regs: Regs, sp: map<Tid, nat>, cur: Option<Tid>, stacks: map<Tid, Stack>)

  // ---- instructions ----------------------------------------------------------------------

  /** Memory with `words` written from address `a` up. */
  function Written(mem: seq<Word>, a: nat, words: seq<Word>): (r: seq<Word>)
    requires a + |words| <= |mem|
    ensures |r| == |mem|
    ensures r[a..a + |words|] == words
  {
    mem[..a] + words + mem[a + |words|..]
  }

  /** Exception entry: the hardware stacks eight registers. */
  function Stacked(m: Machine): Machine
    requires |m.regs.low| == 8 && 8 <= m.regs.psp <= |m.mem|
  {
    m.(mem := Written(m.mem, m.regs.psp - 8, m.regs.low), regs := m.regs.(psp := m.regs.psp - 8))
  }

  /** Exception return: the hardware unstacks them. */
  function Unstacked(m: Machine): Machine
    requires m.regs.psp + 8 <= |m.mem|
  {
    m.(regs := m.regs.(low := m.mem[m.regs.psp..m.regs.psp + 8], psp := m.regs.psp + 8))
  }

  /** `stmdb r0!, {r4-r11}` and the store of r0 into the control block. */
  function SavedHigh(m: Machine, t: Tid): Machine
    requires |m.regs.high| == 8 && 8 <= m.regs.psp <= |m.mem|
  {
    m.(mem := Written(m.mem, m.regs.psp - 8, m.regs.high), sp := m.sp[t := m.regs.psp - 8])
  }

  /** `ldmia r0!, {r4-r11}` from the control block's stack pointer, and the move to PSP. */
  function LoadedHigh(m: Machine, t: Tid): Machine
    requires t in m.sp && m.sp[t] + 8 <= |m.mem|
  {
    m.(regs := m.regs.(high := m.mem[m.sp[t]..m.sp[t] + 8], psp := m.sp[t] + 8), cur := Some(t))
  }

  /** PendSV from the interrupted task to `next`, entry to return. */
  function Switched(m: Machine, next: Tid): Machine
    requires Valid(m) && m.cur.Some? && next in m.sp
  {
    var e := SavedHigh(Stacked(m), m.cur.value);
    Unstacked(LoadedHigh(e, next))
  }

  /** SVC, once, to the first task. */
  function Started(m: Machine, next: Tid): Machine
    requires Valid(m) && m.cur == None && next in m.sp
  {
    Unstacked(LoadedHigh(m, next))
  }

  // ---- the fabricated frame --------------------------------------------------------------

  /** What nimble_port_init_task_stack leaves in the sixteen words under the top, lowest address first. */
  function FirstFrame(fn: Word, arg: Word, trap: Word): seq<Word> {
    [0x04040404, 0x05050505, 0x06060606, 0x07070707, 0x08080808, 0x09090909, 0x10101010, 0x11111111,
     arg, 0x01010101, 0x02020202, 0x03030303, 0x12121212, trap, fn, XPSR_T_BIT]
  }

  function Created(m: Machine, t: Tid, stack: Stack, fn: Word, arg: Word, trap: Word): Machine
    requires stack.base + 16 <= stack.top <= |m.mem|
  {
    m.(mem := Written(m.mem, stack.top - 16, FirstFrame(fn, arg, trap)), sp := m.sp[t := stack.top - 16],
       stacks := m.stacks[t := stack])
  }

  // ---- the layout ------------------------------------------------------------------------

  predicate Apart(a: Stack, b: Stack) { a.top <= b.base || b.top <= a.base }

  /**
   * Stacks do not overlap; a task that does not run has its sixteen words inside its stack; the running one has
   * room for them.
   */
  ghost predicate Valid(m: Machine) {
    && |m.regs.low| == 8 && |m.regs.high| == 8 && m.sp.Keys == m.stacks.Keys
    && (forall t :: t in m.stacks ==> m.stacks[t].top <= |m.mem|)
    && (forall t, u :: t in m.stacks && u in m.stacks && t != u ==> Apart(m.stacks[t], m.stacks[u]))
    && (forall t ::
          t in m.stacks && m.cur != Some(t) ==> m.stacks[t].base <= m.sp[t] && m.sp[t] + 16 <= m.stacks[t].top)
    && (m.cur.Some? ==> m.cur.value in m.stacks)
    && (m.cur.Some? ==> m.stacks[m.cur.value].base + 16 <= m.regs.psp <= m.stacks[m.cur.value].top)
  }

  /** The registers a task that does not run will be resumed with. */
  function SavedRegs(m: Machine, t: Tid): Regs
    requires t in m.sp && m.sp[t] + 16 <= |m.mem|
  {
    Regs(m.mem[m.sp[t] + 8..m.sp[t] + 16], m.mem[m.sp[t]..m.sp[t] + 8], m.sp[t] + 16)
  }

  datatype Step =
    | Execute(mem: seq<Word>, regs: Regs)   // the running task's own code
    | SwitchTo(next: Tid)
    | StartFirst(next: Tid)
    | CreateTask(t: Tid, stack: Stack, fn: Word, arg: Word, trap: Word)

  /** A task writes to no other task's stack and leaves room for its own frame; a new stack overlaps no other. */
  ghost predicate Allowed(m: Machine, step: Step) {
    match step
    case Execute(mem, regs) =>
      && m.cur.Some? && m.cur.value in m.stacks && |mem| == |m.mem| && |regs.low| == 8 && |regs.high| == 8
      && m.stacks[m.cur.value].base + 16 <= regs.psp <= m.stacks[m.cur.value].top
      && (forall t, a ::
            t in m.stacks && m.cur != Some(t) && m.stacks[t].base <= a < m.stacks[t].top && a < |mem| ==>
              mem[a] == m.mem[a])
    case SwitchTo(next) => m.cur.Some? && next in m.sp
    case StartFirst(next) => m.cur == None && next in m.sp
    case CreateTask(t, stack, _, _, _) =>
      && t !in m.stacks && stack.base + 16 <= stack.top <= |m.mem|
      && (forall u :: u in m.stacks ==> Apart(stack, m.stacks[u]))
  }

  function After(m: Machine, step: Step): Machine
    requires Valid(m) && Allowed(m, step)
  {
    match step
    case Execute(mem, regs) => m.(mem := mem, regs := regs)
    case SwitchTo(next) => Switched(m, next)
    case StartFirst(next) => Started(m, next)
    case CreateTask(t, stack, fn, arg, trap) => Created(m, t, stack, fn, arg, trap)
  }

  // ---- one step --------------------------------------------------------------------------

  lemma WrittenElsewhere(mem: seq<Word>, a: nat, words: seq<Word>, lo: nat, hi: nat)
    requires a + |words| <= |mem| && lo <= hi <= |mem| && (hi <= a || a + |words| <= lo)
    ensures Written(mem, a, words)[lo..hi] == mem[lo..hi]
  {
    forall i | lo <= i < hi ensures Written(mem, a, words)[i] == mem[i] {}
  }

  lemma WrittenTwice(mem: seq<Word>, a: nat, p: seq<Word>, q: seq<Word>)
    requires a + |p| + |q| <= |mem|
    ensures Written(Written(mem, a + |p|, q), a, p) == Written(mem, a, p + q)
  {}

  /** The sixteen words a switch leaves under the interrupted stack pointer. */
  lemma SwitchWrites(m: Machine, next: Tid)
    requires Valid(m) && m.cur.Some? && next in m.sp
    ensures var u, a := Switched(m, next), m.regs.psp - 16;
      && u.mem == Written(m.mem, a, m.regs.high + m.regs.low) && u.sp == m.sp[m.cur.value := a] && u.cur == Some(next)
      && u.stacks == m.stacks && u.sp[next] + 16 <= |u.mem| && u.regs == SavedRegs(u, next)
  {
    hide Written;
    WrittenTwice(m.mem, m.regs.psp - 16, m.regs.high, m.regs.low);
  }

  lemma StepKeepsValid(m: Machine, step: Step)
    requires Valid(m) && Allowed(m, step)
    ensures Valid(After(m, step))
  {
    hide Switched, Created;
    match step
    case Execute(_, _) =>
    case SwitchTo(next) => SwitchKeepsValid(m, next);
    case StartFirst(_) =>
    case CreateTask(t, stack, fn, arg, trap) => CreateKeepsValid(m, t, stack, fn, arg, trap);
  }

  lemma SwitchKeepsValid(m: Machine, next: Tid)
    requires Valid(m) && m.cur.Some? && next in m.sp
    ensures Valid(Switched(m, next))
  {
    hide Switched, Written;
    SwitchWrites(m, next);
  }

  lemma CreateKeepsValid(m: Machine, t: Tid, stack: Stack, fn: Word, arg: Word, trap: Word)
    requires Valid(m) && Allowed(m, CreateTask(t, stack, fn, arg, trap))
    ensures Valid(Created(m, t, stack, fn, arg, trap))
  {
    hide Written, FirstFrame;
  }

  lemma ReadsApart(m: Machine, mem: seq<Word>, a: nat, words: seq<Word>, t: Tid)
    requires t in m.sp && m.sp[t] + 16 <= |m.mem| && a + |words| <= |m.mem| && mem == Written(m.mem, a, words)
    requires m.sp[t] + 16 <= a || a + |words| <= m.sp[t]
    ensures SavedRegs(m.(mem := mem), t) == SavedRegs(m, t)
  {
    WrittenElsewhere(m.mem, a, words, m.sp[t], m.sp[t] + 8);
    WrittenElsewhere(m.mem, a, words, m.sp[t] + 8, m.sp[t] + 16);
  }

  /** A step leaves alone the saved context of a task that neither runs nor is switched to. */
  lemma StepKeepsSaved(m: Machine, step: Step, t: Tid)
    requires Valid(m) && Allowed(m, step) && t in m.sp && m.cur != Some(t) && After(m, step).cur != Some(t)
    ensures Valid(After(m, step)) && t in After(m, step).sp && SavedRegs(After(m, step), t) == SavedRegs(m, t)
  {
    StepKeepsValid(m, step);
    hide Switched, Started, Created, SavedRegs;
    match step
    case Execute(mem, regs) => ExecuteKeepsSaved(m, mem, regs, t);
    case SwitchTo(next) => SwitchKeepsSaved(m, next, t);
    case StartFirst(next) => StartKeepsSaved(m, next, t);
    case CreateTask(x, stack, fn, arg, trap) => CreateKeepsSaved(m, x, stack, fn, arg, trap, t);
  }

  lemma ExecuteKeepsSaved(m: Machine, mem: seq<Word>, regs: Regs, t: Tid)
    requires Valid(m) && Allowed(m, Execute(mem, regs)) && t in m.sp && m.cur != Some(t)
    ensures m.sp[t] + 16 <= |m.mem| && SavedRegs(m.(mem := mem, regs := regs), t) == SavedRegs(m, t)
  {
    SameWords(m.mem, mem, m.sp[t]);
  }

  lemma SwitchKeepsSaved(m: Machine, next: Tid, t: Tid)
    requires Valid(m) && Allowed(m, SwitchTo(next)) && t in m.sp && m.cur != Some(t)
    ensures var u := Switched(m, next); t in u.sp && u.sp[t] + 16 <= |u.mem| && SavedRegs(u, t) == SavedRegs(m, t)
  {
    hide Switched, Written;
    SwitchWrites(m, next);
    var u := Switched(m, next);
    assert Apart(m.stacks[t], m.stacks[m.cur.value]);
    ReadsApart(m, u.mem, m.regs.psp - 16, m.regs.high + m.regs.low, t);
  }

  lemma StartKeepsSaved(m: Machine, next: Tid, t: Tid)
    requires Valid(m) && Allowed(m, StartFirst(next)) && t in m.sp
    ensures var u := Started(m, next); t in u.sp && u.sp[t] + 16 <= |u.mem| && SavedRegs(u, t) == SavedRegs(m, t)
  {}

  lemma CreateKeepsSaved(m: Machine, x: Tid, stack: Stack, fn: Word, arg: Word, trap: Word, t: Tid)
    requires Valid(m) && Allowed(m, CreateTask(x, stack, fn, arg, trap)) && t in m.sp && m.cur != Some(t)
    ensures var u := Created(m, x, stack, fn, arg, trap);
      t in u.sp && u.sp[t] + 16 <= |u.mem| && SavedRegs(u, t) == SavedRegs(m, t)
  {
    hide Written, FirstFrame;
    assert Apart(stack, m.stacks[t]);
    FrameSize(fn, arg, trap);
    ReadsApart(m, Created(m, x, stack, fn, arg, trap).mem, stack.top - 16, FirstFrame(fn, arg, trap), t);
  }

  lemma FrameSize(fn: Word, arg: Word, trap: Word)
    ensures |FirstFrame(fn, arg, trap)| == 16
  {}

  lemma SameWords(p: seq<Word>, q: seq<Word>, a: nat)
    requires |p| == |q| && a + 16 <= |p| && forall i :: a <= i < a + 16 ==> q[i] == p[i]
    ensures q[a..a + 8] == p[a..a + 8] && q[a + 8..a + 16] == p[a + 8..a + 16]
  {}

  /** A switch away from a task saves exactly its registers. */
  lemma SwitchSaves(m: Machine, next: Tid)
    requires Valid(m) && m.cur.Some? && next in m.sp
    ensures var u := Switched(m, next); u.sp[m.cur.value] + 16 <= |u.mem| && SavedRegs(u, m.cur.value) == m.regs
  {
    SwitchWrites(m, next);
    var u, a, w := Switched(m, next), m.regs.psp - 16, m.regs.high + m.regs.low;
    hide Switched, Written;
    assert u.mem[a..a + 16] == w;
    assert u.mem[a..a + 8] == u.mem[a..a + 16][..8] && u.mem[a + 8..a + 16] == u.mem[a..a + 16][8..];
  }

  /** A switch to another task loads exactly the registers saved for it. */
  lemma SwitchRestores(m: Machine, next: Tid)
    requires Valid(m) && m.cur.Some? && next in m.sp && m.cur != Some(next)
    ensures m.sp[next] + 16 <= |m.mem| && Switched(m, next).regs == SavedRegs(m, next)
  {
    SwitchWrites(m, next);
    hide Switched, Written;
    assert Apart(m.stacks[next], m.stacks[m.cur.value]);
    var u := Switched(m, next);
    ReadsApart(m, u.mem, m.regs.psp - 16, m.regs.high + m.regs.low, next);
  }

  /** The words of a stack from address `a` up. */
  ghost predicate SameStack(m: Machine, u: Machine, t: Tid, a: nat) {
    && t in m.stacks && t in u.stacks && u.stacks[t] == m.stacks[t] && |u.mem| == |m.mem|
    && forall i :: a <= i < m.stacks[t].top && i < |m.mem| ==> u.mem[i] == m.mem[i]
  }

  lemma WrittenBetween(mem: seq<Word>, a: nat, words: seq<Word>)
    requires a + |words| <= |mem|
    ensures forall i :: 0 <= i < |mem| && (i < a || a + |words| <= i) ==> Written(mem, a, words)[i] == mem[i]
  {}

  /** Nothing that happens to other tasks writes to the stack of a task that does not run. */
  lemma StepKeepsStack(m: Machine, step: Step, t: Tid)
    requires Valid(m) && Allowed(m, step) && t in m.stacks && m.cur != Some(t)
    ensures SameStack(m, After(m, step), t, m.stacks[t].base)
  {
    hide Switched, Started, Created, Written, FirstFrame;
    match step
    case Execute(mem, regs) =>
    case SwitchTo(next) => SwitchKeepsStack(m, next, t);
    case StartFirst(next) => StartKeepsStack(m, next, t);
    case CreateTask(x, stack, fn, arg, trap) => CreateKeepsStack(m, x, stack, fn, arg, trap, t);
  }

  lemma SwitchKeepsStack(m: Machine, next: Tid, t: Tid)
    requires Valid(m) && m.cur.Some? && next in m.sp && t in m.stacks
    ensures SameStack(m, Switched(m, next), t, if m.cur == Some(t) then m.regs.psp else m.stacks[t].base)
  {
    hide Switched, Written;
    SwitchWrites(m, next);
    WrittenBetween(m.mem, m.regs.psp - 16, m.regs.high + m.regs.low);
    if m.cur != Some(t) { assert Apart(m.stacks[t], m.stacks[m.cur.value]); }
  }

  lemma StartKeepsStack(m: Machine, next: Tid, t: Tid)
    requires Valid(m) && m.cur == None && next in m.sp && t in m.stacks
    ensures SameStack(m, Started(m, next), t, m.stacks[t].base)
  {}

  lemma CreateKeepsStack(m: Machine, x: Tid, stack: Stack, fn: Word, arg: Word, trap: Word, t: Tid)
    requires Valid(m) && Allowed(m, CreateTask(x, stack, fn, arg, trap)) && t in m.stacks
    ensures SameStack(m, Created(m, x, stack, fn, arg, trap), t, m.stacks[t].base)
  {
    hide Written, FirstFrame;
    FrameSize(fn, arg, trap);
    WrittenBetween(m.mem, stack.top - 16, FirstFrame(fn, arg, trap));
    assert Apart(stack, m.stacks[t]);
  }

  // ---- runs ------------------------------------------------------------------------------

  /** A run in which `t` is never on the processor. */
  ghost predicate Away(m: Machine, steps: seq<Step>, t: Tid)
    requires Valid(m)
    decreases |steps|
  {
    m.cur != Some(t) && (steps != [] ==>
      Allowed(m, steps[0]) && (StepKeepsValid(m, steps[0]); Away(After(m, steps[0]), steps[1..], t)))
  }

  function Run(m: Machine, steps: seq<Step>, t: Tid): Machine
    requires Valid(m) && Away(m, steps, t)
    decreases |steps|
  {
    if steps == [] then m else StepKeepsValid(m, steps[0]); Run(After(m, steps[0]), steps[1..], t)
  }

  lemma {:induction false} SavedThroughout(m: Machine, steps: seq<Step>, t: Tid)
    requires Valid(m) && t in m.sp && Away(m, steps, t)
    ensures var u := Run(m, steps, t);
      Valid(u) && t in u.sp && u.cur != Some(t) && SavedRegs(u, t) == SavedRegs(m, t)
    decreases |steps|
  {
    hide After, Allowed, SavedRegs;
    assert m.sp[t] + 16 <= |m.mem|;
    if steps != [] {
      StepKeepsValid(m, steps[0]);
      var u := After(m, steps[0]);
      assert u.cur != Some(t);
      StepKeepsSaved(m, steps[0], t);
      SavedThroughout(u, steps[1..], t);
    }
  }

  lemma {:induction false} StackThroughout(m: Machine, steps: seq<Step>, t: Tid)
    requires Valid(m) && t in m.stacks && Away(m, steps, t)
    ensures SameStack(m, Run(m, steps, t), t, m.stacks[t].base)
    decreases |steps|
  {
    hide After, Allowed, Valid;
    if steps != [] {
      StepKeepsValid(m, steps[0]);
      StepKeepsStack(m, steps[0], t);
      StackThroughout(After(m, steps[0]), steps[1..], t);
    }
  }

  lemma StacksKnown(m: Machine)
    requires Valid(m)
    ensures m.sp.Keys == m.stacks.Keys && (m.cur.Some? ==> m.cur.value in m.stacks)
    ensures m.cur.Some? ==> m.stacks[m.cur.value].base <= m.regs.psp
  {}

  /** And with its registers a task that is switched back in finds its stack as it left it, word by word. */
  lemma StackPreserved(m: Machine, next: Tid, steps: seq<Step>, t: Tid)
    requires Valid(m) && m.cur == Some(t) && next in m.sp && next != t
    requires Valid(Switched(m, next)) && Away(Switched(m, next), steps, t)
    requires Run(Switched(m, next), steps, t).cur.Some?
    ensures var u := Run(Switched(m, next), steps, t);
      Valid(u) && t in u.sp && SameStack(m, Switched(u, t), t, m.regs.psp)
  {
    SwitchSaves(m, next);
    SwitchWrites(m, next);
    StacksKnown(m);
    hide Valid, Switched, Run, Away, SavedRegs;
    var out := Switched(m, next);
    SwitchKeepsStack(m, next, t);
    StacksKnown(out);
    SavedThroughout(out, steps, t);
    StackThroughout(out, steps, t);
    var u := Run(out, steps, t);
    SwitchKeepsStack(u, t, t);
  }

  /**
   * Context preservation: a task that is switched out, and later switched in again, finds every register as it
   * left it, whatever the others and the kernel did in between.
   */
  lemma ContextPreserved(m: Machine, next: Tid, steps: seq<Step>, t: Tid)
    requires Valid(m) && m.cur == Some(t) && next in m.sp && next != t
    requires Valid(Switched(m, next)) && Away(Switched(m, next), steps, t)
    requires Run(Switched(m, next), steps, t).cur.Some?
    ensures var u := Run(Switched(m, next), steps, t);
      Valid(u) && t in u.sp && Switched(u, t).regs == m.regs && Switched(u, t).cur == Some(t)
  {
    SwitchSaves(m, next);
    SwitchWrites(m, next);
    hide Switched, Run, Away;
    var out := Switched(m, next);
    SavedThroughout(out, steps, t);
    var u := Run(out, steps, t);
    SwitchRestores(u, t);
    SwitchWrites(u, t);
  }

  /** A switch from a task to itself changes no register. */
  lemma SwitchToSelf(m: Machine, t: Tid)
    requires Valid(m) && m.cur == Some(t)
    ensures Switched(m, t).regs == m.regs
  {
    SwitchSaves(m, t);
    SwitchWrites(m, t);
  }

  /**
   * The fabricated frame: entry point in PC, argument in R0, the trap in LR, Thumb state, an empty stack, and in every
   * other register a pattern that tells which it is.
   */
  predicate AtEntry(r: Regs, stack: Stack, fn: Word, arg: Word, trap: Word) {
    && r.low == [arg, 0x01010101, 0x02020202, 0x03030303, 0x12121212, trap, fn, XPSR_T_BIT]
    && r.high == [0x04040404, 0x05050505, 0x06060606, 0x07070707, 0x08080808, 0x09090909, 0x10101010, 0x11111111]
    && r.psp == stack.top
  }

  /** A task that has never run starts at its function with its argument, however long it has waited. */
  lemma FirstRunStartsAtEntry(m: Machine, t: Tid, stack: Stack, fn: Word, arg: Word, trap: Word, steps: seq<Step>)
    requires Valid(m) && Allowed(m, CreateTask(t, stack, fn, arg, trap)) && m.cur != Some(t)
    requires Valid(Created(m, t, stack, fn, arg, trap)) && Away(Created(m, t, stack, fn, arg, trap), steps, t)
    ensures var u := Run(Created(m, t, stack, fn, arg, trap), steps, t);
      && Valid(u) && t in u.sp
      && (u.cur.Some? ==> AtEntry(Switched(u, t).regs, stack, fn, arg, trap))
      && (u.cur == None ==> AtEntry(Started(u, t).regs, stack, fn, arg, trap))
  {
    hide Created, Switched, Started, SavedRegs, Run, Away, FirstFrame, AtEntry;
    var c := Created(m, t, stack, fn, arg, trap);
    CreatedSaved(m, t, stack, fn, arg, trap);
    SavedThroughout(c, steps, t);
    var u := Run(c, steps, t);
    if u.cur.Some? { SwitchRestores(u, t); } else { StartRestores(u, t); }
  }

  lemma StartRestores(m: Machine, t: Tid)
    requires Valid(m) && m.cur == None && t in m.sp
    ensures m.sp[t] + 16 <= |m.mem| && Started(m, t).regs == SavedRegs(m, t)
  {}

  lemma CreatedSaved(m: Machine, t: Tid, stack: Stack, fn: Word, arg: Word, trap: Word)
    requires stack.base + 16 <= stack.top <= |m.mem|
    ensures var c := Created(m, t, stack, fn, arg, trap);
      t in c.sp && c.sp[t] + 16 <= |c.mem| && AtEntry(SavedRegs(c, t), stack, fn, arg, trap)
  {
    hide Written;
    var c, a, f := Created(m, t, stack, fn, arg, trap), stack.top - 16, FirstFrame(fn, arg, trap);
    assert c.mem[a..a + 16] == f && c.sp[t] == a;
    assert c.mem[a + 8..a + 16] == c.mem[a..a + 16][8..] && c.mem[a..a + 8] == c.mem[a..a + 16][..8];
    assert f[8..] == [arg, 0x01010101, 0x02020202, 0x03030303, 0x12121212, trap, fn, XPSR_T_BIT];
  }

  // ---- the code --------------------------------------------------------------------------

  /** The processor and its memory, changed in place. */
  class Processor {
    const mem: array<Word>
    var regs: Regs
    var sp: map<Tid, nat>
    var cur: Option<Tid>
    var stacks: map<Tid, Stack>

    constructor (size: nat, regs: Regs, stacks: map<Tid, Stack>)
      ensures fresh(mem) && mem.Length == size && this.regs == regs && sp == map[] && cur == None
      ensures this.stacks == stacks
    {
      mem := new Word[size](_ => 0);
      this.regs, sp, cur, this.stacks := regs, map[], None, stacks;
    }

    ghost function State(): Machine
      reads this, mem
    {
      Machine(mem[..], regs, sp, cur, stacks)
    }

    /** Store multiple: `words` from address `a` up. */
    method StoreMultiple(a: nat, words: seq<Word>)
      requires a + |words| <= mem.Length
      modifies mem
      ensures mem[..] == Written(old(mem[..]), a, words)
    {
      for i := 0 to |words|
        invariant mem[..] == Written(old(mem[..]), a, words[..i])
      {
        mem[a + i] := words[i];
      }
      assert words[..|words|] == words;
    }

    /** Load multiple: `n` words from address `a` up. */
    method LoadMultiple(a: nat, n: nat) returns (words: seq<Word>)
      requires a + n <= mem.Length
      ensures words == mem[a..a + n]
    {
      words := [];
      for i := 0 to n
        invariant words == mem[a..a + i]
      {
        words := words + [mem[a + i]];
      }
    }

    /** PendSV_Handler between the hardware's stacking and unstacking; `next` is what select_next returned. */
    method PendSV(next: Tid)
      requires Valid(State()) && cur.Some? && next in sp
      modifies this, mem
      ensures State() == Switched(old(State()), next)
    {
      hide Written;
      ghost var m := State();
      StackAndSave();
      SwitchWrites(m, next);
      LoadAndUnstack(next);
    }

    /** Exception entry, and the first half of the handler. */
    method StackAndSave()
      requires Valid(State()) && cur.Some?
      modifies this, mem
      ensures State() == SavedHigh(Stacked(old(State())), old(cur).value)
    {
      hide Written;
      StoreMultiple(regs.psp - 8, regs.low);    // by the hardware
      regs := regs.(psp := regs.psp - 8);
      StoreMultiple(regs.psp - 8, regs.high);   // stmdb r0!, {r4-r11}
      sp := sp[cur.value := regs.psp - 8];      // str r0, [r2]
    }

    /** The second half of the handler, and exception return. */
    method LoadAndUnstack(next: Tid)
      requires next in sp && sp[next] + 16 <= mem.Length
      modifies this
      ensures State() == Unstacked(LoadedHigh(old(State()), next))
    {
      cur := Some(next);                                // str r2, [r3]
      var high := LoadMultiple(sp[next], 8);            // ldmia r0!, {r4-r11}
      regs := regs.(high := high, psp := sp[next] + 8); // msr psp, r0
      var low := LoadMultiple(regs.psp, 8);             // by the hardware
      regs := regs.(low := low, psp := regs.psp + 8);
    }

    /** SVC_Handler, for the task nimble_scheduler_start chose. */
    method StartFirst(next: Tid)
      requires Valid(State()) && cur == None && next in sp
      modifies this
      ensures State() == Started(old(State()), next)
    {
      LoadAndUnstack(next);
    }

    /** `*(--sp) = word`. */
    method Push(p: nat, word: Word) returns (q: nat)
      requires 0 < p <= mem.Length
      modifies mem
      ensures q == p - 1 && mem[..] == Written(old(mem[..]), q, [word])
    {
      q := p - 1;
      mem[q] := word;
    }

    /** nimble_port_init_task_stack: sixteen pushes, xPSR first. */
    method InitTaskStack(top: nat, fn: Word, arg: Word, trap: Word) returns (p: nat)
      requires 16 <= top <= mem.Length
      modifies mem
      ensures p == top - 16 && mem[..] == Written(old(mem[..]), p, FirstFrame(fn, arg, trap))
    {
      hide Written, Mirrored;
      ghost var was := mem[..];
      WrittenNone(was, top);
      var hardware := [XPSR_T_BIT, fn, trap, 0x12121212, 0x03030303, 0x02020202, 0x01010101, arg];
      var software := [0x11111111, 0x10101010, 0x09090909, 0x08080808, 0x07070707, 0x06060606, 0x05050505, 0x04040404];
      var frame := hardware + software;
      p := top;
      for i := 0 to 16
        invariant p == top - i
        invariant mem[..] == Written(was, p, Mirrored(frame[..i]))
      {
        p := Push(p, frame[i]);
        MirroredNext(frame, i);
        WrittenTwice(was, p, [frame[i]], Mirrored(frame[..i]));
      }
      assert frame[..16] == frame;
      FrameMirrored(fn, arg, trap, frame);
    }

    /** nimble_task_create, as far as the stack is concerned: the control block points at the fabricated frame. */
    method CreateTask(t: Tid, base: nat, words: nat, fn: Word, arg: Word, trap: Word) returns (status: Status)
      requires base + words <= mem.Length
      modifies this, mem
      ensures if words < MIN_STACK_WORDS then State() == old(State()) && status == InvalidArg
              else State() == Created(old(State()), t, Stack(base, base + words), fn, arg, trap) && status == OK
    {
      hide Written, FirstFrame;
      if words < MIN_STACK_WORDS { return InvalidArg; }
      var top := base + words;
      var p := InitTaskStack(top, fn, arg, trap);
      sp := sp[t := p];
      stacks := stacks[t := Stack(base, top)];
      return OK;
    }
  }

  /** The pushes, lowest address first. */
  function Mirrored(s: seq<Word>): (r: seq<Word>)
    ensures |r| == |s| && forall i :: 0 <= i < |s| ==> r[i] == s[|s| - 1 - i]
  {
    if s == [] then [] else Mirrored(s[1..]) + [s[0]]
  }

  lemma MirroredSnoc(s: seq<Word>, x: Word)
    ensures Mirrored(s + [x]) == [x] + Mirrored(s)
  {}

  lemma MirroredNext(s: seq<Word>, i: nat)
    requires i < |s|
    ensures Mirrored(s[..i + 1]) == [s[i]] + Mirrored(s[..i])
  {
    assert s[..i + 1] == s[..i] + [s[i]];
    MirroredSnoc(s[..i], s[i]);
  }

  lemma WrittenNone(mem: seq<Word>, a: nat)
    requires a <= |mem|
    ensures Written(mem, a, Mirrored([])) == mem
  {}

  lemma FrameMirrored(fn: Word, arg: Word, trap: Word, frame: seq<Word>)
    requires frame == [XPSR_T_BIT, fn, trap, 0x12121212, 0x03030303, 0x02020202, 0x01010101, arg]
                      + [0x11111111, 0x10101010, 0x09090909, 0x08080808, 0x07070707, 0x06060606, 0x05050505, 0x04040404]
    ensures Mirrored(frame) == FirstFrame(fn, arg, trap)
  {}
}
