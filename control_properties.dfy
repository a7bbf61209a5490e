/** General properties of the control unit, stated on the value-level step
    function of ControlSpec: what no handler touches, cycle accounting, the
    invariant every reachable configuration keeps, and the lines the
    controller raises but never lowers. */
module ControlProperties {
  import opened ControlSpec

  // ---------------------------------------------------------------------
  // One call of state_machine
  // ---------------------------------------------------------------------

  /** No state handler touches the cycle counter, the halted flag outside
      dispatch, or the two reset lines the controller never drives. */
  lemma HandleFrame(t: Config, inp: Inputs)
    ensures Handle(t, inp).cycleCount == t.cycleCount
    ensures Handle(t, inp).halted <==> t.halted || (t.state == ReadyToExecute && inp.opcode == OpcodeValue(HALT))
    ensures Handle(t, inp).halted && !t.halted ==> Handle(t, inp).state == ReadyToExecute
    ensures Handle(t, inp).out.resetCP == t.out.resetCP && Handle(t, inp).out.resetRPL == t.out.resetRPL
  {
    match t.state
    case Initial =>
    case InstReady =>
    case IrHasInst =>
      if t.restartPipe {} else {}
    case RplReady =>
    case ReadyToExecute =>
      match DecodeOpcode(inp.opcode) {
        case JN => if inp.n {} else {}
        case JZ => if inp.z {} else {}
        case _ =>
      }
    case ReadyToCompute =>
    case ReadyToStore =>
    case ReadyToJump =>
    case ResultReady =>
    case ReadyToLoad =>
  }

  /** Every state handler keeps the invariant. */
  lemma HandleKeepsInvariant(t: Config, inp: Inputs)
    requires !t.halted && Invariant(t)
    ensures Invariant(Handle(t, inp))
  {
    match t.state
    case Initial =>
    case InstReady =>
    case IrHasInst =>
      if t.restartPipe {} else {}
    case RplReady =>
    case ReadyToExecute =>
      match DecodeOpcode(inp.opcode) {
        case JN => if inp.n {} else {}
        case JZ => if inp.z {} else {}
        case _ =>
      }
    case ReadyToCompute =>
    case ReadyToStore =>
    case ReadyToJump =>
    case ResultReady =>
    case ReadyToLoad =>
  }

  /** state_machine counts each of its calls exactly once; the run stops
      exactly when HALT is dispatched, and the state is then left where it
      was; resetCP and resetRPL are never driven. */
  lemma NextCycleCount(c: Config, inp: Inputs)
    requires !c.halted
    ensures Next(c, inp).cycleCount == c.cycleCount + 1
    ensures Next(c, inp).halted <==> c.state == ReadyToExecute && inp.opcode == OpcodeValue(HALT)
    ensures Next(c, inp).halted ==> Next(c, inp).state == ReadyToExecute
    ensures Next(c, inp).out.resetCP == c.out.resetCP && Next(c, inp).out.resetRPL == c.out.resetRPL
  {
    var t := c.(cycleCount := c.cycleCount + 1);
    assert t.state == c.state && t.halted == c.halted && t.out == c.out;
    HandleFrame(t, inp);
    assert Next(c, inp) == Handle(t, inp);
  }

  /** Every call of state_machine keeps the invariant. */
  lemma NextKeepsInvariant(c: Config, inp: Inputs)
    requires !c.halted && Invariant(c)
    ensures Invariant(Next(c, inp))
  {
    var t := c.(cycleCount := c.cycleCount + 1);
    assert t.state == c.state && t.restartPipe == c.restartPipe && t.halted == c.halted && t.out == c.out;
    HandleKeepsInvariant(t, inp);
    assert Next(c, inp) == Handle(t, inp);
  }

  // ---------------------------------------------------------------------
  // Runs
  // ---------------------------------------------------------------------

  /** Running `a` then `b` is running `a + b`. */
  lemma {:induction false} RunAppend(c: Config, a: seq<Inputs>, b: seq<Inputs>)
    ensures Run(c, a + b) == Run(Run(c, a), b)
    ensures Visited(c, a + b) == Visited(c, a) + Visited(Run(c, a), b)
    decreases |a|
  {
    if a == [] {
      assert a + b == b;
    } else if c.halted {
    } else {
      assert (a + b)[1..] == a[1..] + b;
      RunAppend(Next(c, a[0]), a[1..], b);
    }
  }

  /** The cycle counter counts the calls of state_machine in a run: never more than
      one per input, and exactly one per input as long as the run has not
      stopped. */
  lemma {:induction false} RunCycleCount(c: Config, ins: seq<Inputs>)
    ensures Run(c, ins).cycleCount <= c.cycleCount + |ins|
    ensures !Run(c, ins).halted ==> Run(c, ins).cycleCount == c.cycleCount + |ins|
    ensures |Visited(c, ins)| == Run(c, ins).cycleCount - c.cycleCount
    decreases |ins|
  {
    if ins != [] && !c.halted {
      NextCycleCount(c, ins[0]);
      RunCycleCount(Next(c, ins[0]), ins[1..]);
    }
  }

  /** After n calls of state_machine from reset, getCycleCount() returns n. */
  lemma ResetCycleCount(ins: seq<Inputs>)
    ensures !Run(Init(), ins).halted ==> Run(Init(), ins).cycleCount == |ins|
    ensures Run(Init(), ins).cycleCount == |Visited(Init(), ins)|
  {
    RunCycleCount(Init(), ins);
  }

  /** A run keeps the invariant. */
  lemma {:induction false} RunKeepsInvariant(c: Config, ins: seq<Inputs>)
    requires Invariant(c)
    ensures Invariant(Run(c, ins))
    decreases |ins|
  {
    if ins != [] && !c.halted {
      NextKeepsInvariant(c, ins[0]);
      RunKeepsInvariant(Next(c, ins[0]), ins[1..]);
    }
  }

  /** Every configuration reachable from reset satisfies the invariant; in
      particular the program counter is never asked to load a jump target
      and to increment in the same call, the flush flag is clear whenever
      a fetch starts, and only READY_TO_JUMP drives the load strobe. */
  lemma Reachable(ins: seq<Inputs>)
    ensures Invariant(Run(Init(), ins))
    ensures !(Run(Init(), ins).out.loadCP && Run(Init(), ins).out.enableCP)
    ensures Run(Init(), ins).state in {Initial, InstReady, RplReady} ==> !Run(Init(), ins).restartPipe
  {
    RunKeepsInvariant(Init(), ins);
  }

  // ---------------------------------------------------------------------
  // Lines the controller raises but never lowers
  // ---------------------------------------------------------------------

  /** No handler writes 0 to resetZN or to writeRPL: once raised, each stays
      raised after every later call. */
  lemma NextKeepsRaisedLines(c: Config, inp: Inputs)
    requires !c.halted
    ensures c.out.resetZN ==> Next(c, inp).out.resetZN
    ensures c.out.writeRPL ==> Next(c, inp).out.writeRPL
  {
    match c.state
    case Initial =>
    case InstReady =>
    case IrHasInst =>
      if c.restartPipe {} else {}
    case RplReady =>
    case ReadyToExecute =>
      match DecodeOpcode(inp.opcode) {
        case JN => if inp.n {} else {}
        case JZ => if inp.z {} else {}
        case _ =>
      }
    case ReadyToCompute =>
    case ReadyToStore =>
    case ReadyToJump =>
    case ResultReady =>
    case ReadyToLoad =>
  }

  /** Over a whole run, a raised resetZN or writeRPL is never lowered. */
  lemma {:induction false} RunKeepsRaisedLines(c: Config, ins: seq<Inputs>)
    ensures c.out.resetZN ==> Run(c, ins).out.resetZN
    ensures c.out.writeRPL ==> Run(c, ins).out.writeRPL
    decreases |ins|
  {
    if ins != [] && !c.halted {
      NextKeepsRaisedLines(c, ins[0]);
      RunKeepsRaisedLines(Next(c, ins[0]), ins[1..]);
    }
  }
}
