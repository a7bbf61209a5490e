/** What the control unit does call by call: the ports each state handler
    and each opcode drives, the states every instruction visits from one
    dispatch to the next, the flush after a taken jump, and the cycle count
    of a small program. */
module ControlPaths {
  import opened ControlSpec
  import opened ControlProperties

  // ---------------------------------------------------------------------
  // The fetch path
  // ---------------------------------------------------------------------

  /** INITIAL: read the instruction memory and increment the program counter. */
  lemma InitialStep(c: Config, inp: Inputs)
    requires !c.halted && c.state == Initial
    ensures var r := Next(c, inp);
      && r.state == InstReady && r.restartPipe == c.restartPipe
      && r.out == c.out.(enableIM := true, writeIM := false, enableCP := true)
  {
  }

  /** INST_READY: stop reading, stop incrementing, latch the instruction register. */
  lemma InstReadyStep(c: Config, inp: Inputs)
    requires !c.halted && c.state == InstReady
    ensures var r := Next(c, inp);
      && r.state == IrHasInst && r.restartPipe == c.restartPipe
      && r.out == c.out.(enableIM := false, enableRI := true, writeRI := true, enableCP := false)
  {
  }

  /** IR_HAS_INST: with a flush pending, clear the flag and refetch without
      driving any port; otherwise commit the instruction to the pipeline
      register. */
  lemma IrHasInstStep(c: Config, inp: Inputs)
    requires !c.halted && c.state == IrHasInst
    ensures var r := Next(c, inp);
      c.restartPipe ==> r.state == Initial && !r.restartPipe && r.out == c.out
    ensures var r := Next(c, inp);
      !c.restartPipe ==>
        && r.state == RplReady && !r.restartPipe
        && r.out == c.out.(enableRI := false, enableRPL := true, writeRPL := true)
  {
  }

  /** RPL_READY: close the pipeline register and fetch the next instruction. */
  lemma RplReadyStep(c: Config, inp: Inputs)
    requires !c.halted && c.state == RplReady
    ensures var r := Next(c, inp);
      && r.state == ReadyToExecute && r.restartPipe == c.restartPipe
      && r.out == c.out.(enableRPL := false, enableIM := true, writeIM := false, enableCP := true)
  {
  }

  // ---------------------------------------------------------------------
  // Opcode dispatch in READY_TO_EXECUTE
  // ---------------------------------------------------------------------

  /** Dispatch is total over the sixteen opcodes: HALT stops the run and
      leaves the state in place, every other code selects its next state,
      and every code not named by the opcode table goes down the ALU path
      with the register file read. */
  lemma DispatchStep(c: Config, inp: Inputs)
    requires !c.halted && c.state == ReadyToExecute
    ensures var r := Next(c, inp); var k := DecodeOpcode(inp.opcode);
      && (r.halted <==> k == HALT)
      && (k == HALT ==> r.state == ReadyToExecute && r.out == LoadRI(c.out))
      && (k == LRI ==> r.state == ResultReady)
      && (k == LD ==> r.state == ReadyToLoad)
      && (k == ST ==> r.state == ReadyToStore)
      && (k == J || k == JN || k == JZ ==> r.state == ReadyToJump)
      && (k.ALU? ==> r.state == ReadyToCompute
                     && r.out == LoadRI(c.out).(seletorMultiRBW := 0, enableRB := true, writeRB := false))
  {
    match DecodeOpcode(inp.opcode) {
      case JN => if inp.n {} else {}
      case JZ => if inp.z {} else {}
      case _ =>
    }
  }

  /** LRI forwards the destination operand and operand 1 to the register
      file as register index and immediate value, and selects the immediate
      write path. */
  lemma LoadImmediateDispatch(c: Config, inp: Inputs)
    requires !c.halted && c.state == ReadyToExecute && inp.opcode == OpcodeValue(LRI)
    ensures var r := Next(c, inp);
      && r.state == ResultReady && r.restartPipe == c.restartPipe
      && r.out == LoadRI(c.out).(enableRB := true, writeRB := true, immediateRegister := inp.opd,
                                 immediateValue := inp.of1, seletorMultiRBW := 2)
  {
  }

  /** LD reads the data memory and writes the register file from the
      memory-data path; ST reads the register file and selects the store
      address path. */
  lemma MemoryDispatch(c: Config, inp: Inputs)
    requires !c.halted && c.state == ReadyToExecute
    ensures inp.opcode == OpcodeValue(LD) ==>
      var r := Next(c, inp);
      && r.state == ReadyToLoad && r.restartPipe == c.restartPipe
      && r.out == LoadRI(c.out).(enableRB := true, writeRB := true, enableDM := true, writeDM := false,
                                 seletorMultiRBW := 1, seletorMultiDM := 1)
    ensures inp.opcode == OpcodeValue(ST) ==>
      var r := Next(c, inp);
      && r.state == ReadyToStore && r.restartPipe == c.restartPipe
      && r.out == LoadRI(c.out).(enableRB := true, writeRB := false, seletorMultiDM := 0)
  {
    if inp.opcode == OpcodeValue(LD) {} else {}
  }

  /** J always jumps: the destination operand is latched as the jump value,
      the load strobe is raised, the increment is dropped and a flush is
      scheduled. */
  lemma JumpDispatch(c: Config, inp: Inputs)
    requires !c.halted && c.state == ReadyToExecute && inp.opcode == OpcodeValue(J)
    ensures var r := Next(c, inp);
      && r.state == ReadyToJump && r.restartPipe
      && r.out == LoadRI(c.out).(enableCP := false, loadCP := true, jumpValueCP := inp.opd)
  {
  }

  /** JN and JZ jump, reset the ALU flags and schedule a flush exactly when
      the tested flag is set; otherwise they drive nothing beyond
      prepareLoadRI and leave the flush flag alone. Both go to READY_TO_JUMP. */
  lemma ConditionalJumpDispatch(c: Config, inp: Inputs)
    requires !c.halted && c.state == ReadyToExecute
    requires inp.opcode == OpcodeValue(JN) || inp.opcode == OpcodeValue(JZ)
    ensures var r := Next(c, inp);
      var taken := if inp.opcode == OpcodeValue(JN) then inp.n else inp.z;
      && r.state == ReadyToJump
      && (taken ==> r.restartPipe
                    && r.out == LoadRI(c.out).(enableCP := false, loadCP := true,
                                               jumpValueCP := inp.opd, resetZN := true))
      && (!taken ==> r.restartPipe == c.restartPipe && r.out == LoadRI(c.out))
  {
    if inp.opcode == OpcodeValue(JN) {
      if inp.n {} else {}
    } else {
      if inp.z {} else {}
    }
  }

  // ---------------------------------------------------------------------
  // The execute paths
  // ---------------------------------------------------------------------

  /** READY_TO_COMPUTE: write the ALU result to the register file, hold the
      instruction register. */
  lemma ComputeStep(c: Config, inp: Inputs)
    requires !c.halted && c.state == ReadyToCompute
    ensures var r := Next(c, inp);
      && r.state == ResultReady && r.restartPipe == c.restartPipe
      && r.out == c.out.(enableRB := true, writeRB := true, enableRI := false)
  {
  }

  /** READY_TO_STORE: write the data memory, hold the instruction register. */
  lemma StoreStep(c: Config, inp: Inputs)
    requires !c.halted && c.state == ReadyToStore
    ensures var r := Next(c, inp);
      && r.state == ResultReady && r.restartPipe == c.restartPipe
      && r.out == c.out.(enableDM := true, writeDM := true, enableRI := false)
  {
  }

  /** READY_TO_LOAD: write the loaded word to the register file. */
  lemma LoadStep(c: Config, inp: Inputs)
    requires !c.halted && c.state == ReadyToLoad
    ensures var r := Next(c, inp);
      && r.state == ResultReady && r.restartPipe == c.restartPipe
      && r.out == c.out.(enableRB := true, writeRB := true)
  {
  }

  /** RESULT_READY: close the register file and the data memory, hold the
      instruction register, and go back to the pipeline-register stage. */
  lemma ResultStep(c: Config, inp: Inputs)
    requires !c.halted && c.state == ResultReady
    ensures var r := Next(c, inp);
      && r.state == IrHasInst && r.restartPipe == c.restartPipe
      && r.out == c.out.(enableRB := false, enableDM := false, enableRI := false)
  {
  }

  /** READY_TO_JUMP: drop the load strobe and go back to the
      pipeline-register stage, where a pending flush is acted on. */
  lemma JumpStep(c: Config, inp: Inputs)
    requires !c.halted && c.state == ReadyToJump
    ensures var r := Next(c, inp);
      && r.state == IrHasInst && r.restartPipe == c.restartPipe
      && r.out == c.out.(loadCP := false)
  {
  }

  // ---------------------------------------------------------------------
  // Paths through the machine
  // ---------------------------------------------------------------------

  /** The states an instruction visits from its dispatch in READY_TO_EXECUTE
      up to the dispatch of the next one, when `inp` is what the ports show
      at its dispatch. A taken jump flushes and refetches; HALT stops. */
  function ExecutePath(inp: Inputs): seq<State>
  {
    var back := [IrHasInst, RplReady, ReadyToExecute];
    var refetch := [IrHasInst, Initial, InstReady] + back;
    match DecodeOpcode(inp.opcode)
    case HALT => [ReadyToExecute]
    case LRI => [ResultReady] + back
    case LD => [ReadyToLoad, ResultReady] + back
    case ST => [ReadyToStore, ResultReady] + back
    case J => [ReadyToJump] + refetch
    case JN => [ReadyToJump] + (if inp.n then refetch else back)
    case JZ => [ReadyToJump] + (if inp.z then refetch else back)
    case ALU(_) => [ReadyToCompute, ResultReady] + back
  }

  /** A run that ends at the next dispatch, `|ins|` calls later, with no
      flush pending. */
  ghost predicate ReachesDispatch(c: Config, ins: seq<Inputs>)
  {
    var r := Run(c, ins);
    r.state == ReadyToExecute && !r.restartPipe && !r.halted && r.cycleCount == c.cycleCount + |ins|
  }

  /** One call of state_machine in a run that has not stopped. */
  lemma Tick(c: Config, ins: seq<Inputs>)
    requires !c.halted && |ins| > 0
    ensures Run(c, ins) == Run(Next(c, ins[0]), ins[1..])
    ensures Visited(c, ins) == [Next(c, ins[0]).state] + Visited(Next(c, ins[0]), ins[1..])
    ensures Next(c, ins[0]).cycleCount == c.cycleCount + 1
    ensures !Next(c, ins[0]).halted <==> c.state != ReadyToExecute || DecodeOpcode(ins[0].opcode) != HALT
  {
    NextCycleCount(c, ins[0]);
  }

  /** IR_HAS_INST without a flush pending reaches the next dispatch in two
      calls, through RPL_READY. */
  lemma CommitPath(c: Config, ins: seq<Inputs>)
    requires !c.halted && c.state == IrHasInst && !c.restartPipe && |ins| == 2
    ensures Visited(c, ins) == [RplReady, ReadyToExecute]
    ensures ReachesDispatch(c, ins)
  {
    IrHasInstStep(c, ins[0]);
    Tick(c, ins);
    var c1 := Next(c, ins[0]);
    RplReadyStep(c1, ins[1]);
    Tick(c1, ins[1..]);
    assert ins[1..][1..] == [];
  }

  /** With no flush pending, INITIAL follows the fixed fetch path
      INST_READY, IR_HAS_INST, RPL_READY, READY_TO_EXECUTE. */
  lemma FetchPath(c: Config, ins: seq<Inputs>)
    requires !c.halted && c.state == Initial && !c.restartPipe && |ins| == 4
    ensures Visited(c, ins) == [InstReady, IrHasInst, RplReady, ReadyToExecute]
    ensures ReachesDispatch(c, ins)
  {
    InitialStep(c, ins[0]);
    Tick(c, ins);
    var c1 := Next(c, ins[0]);
    InstReadyStep(c1, ins[1]);
    Tick(c1, ins[1..]);
    var c2 := Next(c1, ins[1]);
    assert ins[1..][1..] == ins[2..];
    CommitPath(c2, ins[2..]);
  }

  /** RESULT_READY reaches the next dispatch in three calls. */
  lemma ResultPath(c: Config, ins: seq<Inputs>)
    requires !c.halted && c.state == ResultReady && !c.restartPipe && |ins| == 3
    ensures Visited(c, ins) == [IrHasInst, RplReady, ReadyToExecute]
    ensures ReachesDispatch(c, ins)
  {
    ResultStep(c, ins[0]);
    Tick(c, ins);
    CommitPath(Next(c, ins[0]), ins[1..]);
  }

  /** READY_TO_JUMP goes back to IR_HAS_INST; with a flush pending it then
      refetches from INITIAL, otherwise it commits the instruction already
      fetched. */
  lemma JumpPath(c: Config, ins: seq<Inputs>)
    requires !c.halted && c.state == ReadyToJump
    requires |ins| == if c.restartPipe then 6 else 3
    ensures Visited(c, ins) ==
      if c.restartPipe then [IrHasInst, Initial, InstReady, IrHasInst, RplReady, ReadyToExecute]
      else [IrHasInst, RplReady, ReadyToExecute]
    ensures ReachesDispatch(c, ins)
  {
    JumpStep(c, ins[0]);
    Tick(c, ins);
    var c1 := Next(c, ins[0]);
    if c.restartPipe {
      IrHasInstStep(c1, ins[1]);
      Tick(c1, ins[1..]);
      assert ins[1..][1..] == ins[2..];
      FetchPath(Next(c1, ins[1]), ins[2..]);
    } else {
      CommitPath(c1, ins[1..]);
    }
  }

  /** HALT stops the run in the call that dispatches it: no later call
      happens and the counter stays one past the dispatch. */
  lemma HaltStopsRun(c: Config, ins: seq<Inputs>)
    requires !c.halted && c.state == ReadyToExecute && |ins| > 0
    requires ins[0].opcode == OpcodeValue(HALT)
    ensures Visited(c, ins) == [ReadyToExecute]
    ensures Run(c, ins).halted && Run(c, ins).cycleCount == c.cycleCount + 1
  {
    DispatchStep(c, ins[0]);
    Tick(c, ins);
  }

  /** LRI, LD, ST and the ALU opcodes follow their ExecutePath back to the
      next dispatch. */
  lemma DataInstructionPath(c: Config, ins: seq<Inputs>)
    requires !c.halted && c.state == ReadyToExecute && !c.restartPipe
    requires |ins| > 0 && |ins| == |ExecutePath(ins[0])|
    requires DecodeOpcode(ins[0].opcode) in {LRI, LD, ST} || DecodeOpcode(ins[0].opcode).ALU?
    ensures Visited(c, ins) == ExecutePath(ins[0])
    ensures ReachesDispatch(c, ins)
  {
    var inp := ins[0];
    DispatchStep(c, inp);
    Tick(c, ins);
    var c1 := Next(c, inp);
    if inp.opcode == OpcodeValue(LRI) {
      LoadImmediateDispatch(c, inp);
      ResultPath(c1, ins[1..]);
    } else {
      if inp.opcode == OpcodeValue(LD) {
        MemoryDispatch(c, inp);
        LoadStep(c1, ins[1]);
      } else if inp.opcode == OpcodeValue(ST) {
        MemoryDispatch(c, inp);
        StoreStep(c1, ins[1]);
      } else {
        ComputeStep(c1, ins[1]);
      }
      Tick(c1, ins[1..]);
      assert ins[1..][1..] == ins[2..];
      ResultPath(Next(c1, ins[1]), ins[2..]);
    }
  }

  /** J, JN and JZ follow their ExecutePath back to the next dispatch,
      refetching exactly when the jump is taken. */
  lemma JumpInstructionPath(c: Config, ins: seq<Inputs>)
    requires !c.halted && c.state == ReadyToExecute && !c.restartPipe
    requires |ins| > 0 && |ins| == |ExecutePath(ins[0])|
    requires DecodeOpcode(ins[0].opcode) in {J, JN, JZ}
    ensures Visited(c, ins) == ExecutePath(ins[0])
    ensures ReachesDispatch(c, ins)
  {
    var inp := ins[0];
    DispatchStep(c, inp);
    Tick(c, ins);
    if inp.opcode == OpcodeValue(J) {
      JumpDispatch(c, inp);
    } else {
      ConditionalJumpDispatch(c, inp);
    }
    JumpPath(Next(c, inp), ins[1..]);
  }

  /** Every instruction dispatched with no flush pending follows its
      ExecutePath: HALT stops the run, every other opcode comes back to
      READY_TO_EXECUTE with no flush pending after exactly |ExecutePath|
      calls, one cycle counted per call. */
  lemma InstructionPath(c: Config, ins: seq<Inputs>)
    requires !c.halted && c.state == ReadyToExecute && !c.restartPipe
    requires |ins| > 0 && |ins| == |ExecutePath(ins[0])|
    ensures Visited(c, ins) == ExecutePath(ins[0])
    ensures Run(c, ins).halted <==> ins[0].opcode == OpcodeValue(HALT)
    ensures ins[0].opcode != OpcodeValue(HALT) ==> ReachesDispatch(c, ins)
    ensures Run(c, ins).cycleCount == c.cycleCount + |ins|
  {
    var k := DecodeOpcode(ins[0].opcode);
    if k == HALT {
      HaltStopsRun(c, ins);
    } else if k in {J, JN, JZ} {
      JumpInstructionPath(c, ins);
    } else {
      DataInstructionPath(c, ins);
    }
  }

  /** Whether the jump dispatched with these inputs is taken. */
  predicate JumpTaken(inp: Inputs)
  {
    var k := DecodeOpcode(inp.opcode);
    k == J || (k == JN && inp.n) || (k == JZ && inp.z)
  }

  /** A taken jump is followed by READY_TO_JUMP, IR_HAS_INST and INITIAL:
      the program counter is loaded with the destination operand for one
      call, and the run never passes through RPL_READY, so the instruction
      fetched while the jump was dispatched is never committed to the
      pipeline register; its enable line is left as it was. */
  lemma TakenJumpFlushes(c: Config, ins: seq<Inputs>)
    requires !c.halted && c.state == ReadyToExecute && |ins| == 3 && JumpTaken(ins[0])
    ensures Visited(c, ins) == [ReadyToJump, IrHasInst, Initial]
    ensures var r1 := Next(c, ins[0]); r1.out.loadCP && r1.out.jumpValueCP == ins[0].opd
    ensures var r := Run(c, ins);
      && r.state == Initial && !r.restartPipe && !r.halted
      && !r.out.loadCP && r.out.jumpValueCP == ins[0].opd
      && r.out.enableRPL == c.out.enableRPL && RplReady !in Visited(c, ins)
  {
    var inp := ins[0];
    if inp.opcode == OpcodeValue(J) {
      JumpDispatch(c, inp);
    } else {
      ConditionalJumpDispatch(c, inp);
    }
    DispatchStep(c, inp);
    Tick(c, ins);
    var c1 := Next(c, inp);
    JumpStep(c1, ins[1]);
    Tick(c1, ins[1..]);
    var c2 := Next(c1, ins[1]);
    IrHasInstStep(c2, ins[2]);
    assert ins[1..][1..] == ins[2..];
    Tick(c2, ins[2..]);
    assert ins[2..][1..] == [];
  }

  /** From one dispatch of an instruction other than HALT, the run
      reaches the next dispatch after exactly the calls of its ExecutePath
      and carries on from there. */
  lemma NextDispatch(c: Config, ins: seq<Inputs>, len: nat)
    requires !c.halted && c.state == ReadyToExecute && !c.restartPipe
    requires 0 < len <= |ins| && len == |ExecutePath(ins[0])|
    requires ins[0].opcode != OpcodeValue(HALT)
    ensures var m := Run(c, ins[..len]);
      && Run(c, ins) == Run(m, ins[len..])
      && m.state == ReadyToExecute && !m.restartPipe && !m.halted
      && m.cycleCount == c.cycleCount + len
  {
    assert ins[..len][0] == ins[0];
    InstructionPath(c, ins[..len]);
    assert ins[..len] + ins[len..] == ins;
    RunAppend(c, ins[..len], ins[len..]);
  }

  /** The tail of the example program below: an ALU operation then HALT. */
  lemma ComputeThenHalt(c: Config, ins: seq<Inputs>)
    requires !c.halted && c.state == ReadyToExecute && !c.restartPipe
    requires |ins| == 6 && IsAluCode(ins[0].opcode) && ins[5].opcode == OpcodeValue(HALT)
    ensures Run(c, ins).halted && Run(c, ins).cycleCount == c.cycleCount + 6
  {
    assert |ExecutePath(ins[0])| == 5;
    NextDispatch(c, ins, 5);
    var rest := ins[5..];
    assert rest[0] == ins[5];
    HaltStopsRun(Run(c, ins[..5]), rest);
  }

  /** The tail of the example program below from its second load
      immediate. */
  lemma LoadThenComputeThenHalt(c: Config, ins: seq<Inputs>)
    requires !c.halted && c.state == ReadyToExecute && !c.restartPipe
    requires |ins| == 10 && ins[0].opcode == OpcodeValue(LRI)
    requires IsAluCode(ins[4].opcode) && ins[9].opcode == OpcodeValue(HALT)
    ensures Run(c, ins).halted && Run(c, ins).cycleCount == c.cycleCount + 10
  {
    assert |ExecutePath(ins[0])| == 4;
    NextDispatch(c, ins, 4);
    var rest := ins[4..];
    assert rest[0] == ins[4] && rest[5] == ins[9];
    ComputeThenHalt(Run(c, ins[..4]), rest);
  }

  /** The example program below from its first dispatch. */
  lemma ExampleFromDispatch(c: Config, ins: seq<Inputs>)
    requires !c.halted && c.state == ReadyToExecute && !c.restartPipe
    requires |ins| == 14
    requires ins[0].opcode == OpcodeValue(LRI) && ins[4].opcode == OpcodeValue(LRI)
    requires IsAluCode(ins[8].opcode) && ins[13].opcode == OpcodeValue(HALT)
    ensures Run(c, ins).halted && Run(c, ins).cycleCount == c.cycleCount + 14
  {
    assert |ExecutePath(ins[0])| == 4;
    NextDispatch(c, ins, 4);
    var rest := ins[4..];
    assert rest[0] == ins[4] && rest[4] == ins[8] && rest[9] == ins[13];
    LoadThenComputeThenHalt(Run(c, ins[..4]), rest);
  }

  /** The program LRI r0,5; LRI r1,3; an ALU operation; HALT, given those
      opcodes at its dispatch calls: four calls of state_machine fill the
      pipeline, four go to each LRI, five to the ALU operation and one to
      HALT, so the run stops with a count of 18. */
  lemma ExampleProgram(ins: seq<Inputs>)
    requires |ins| == 18
    requires ins[4].opcode == OpcodeValue(LRI) && ins[8].opcode == OpcodeValue(LRI)
    requires IsAluCode(ins[12].opcode) && ins[17].opcode == OpcodeValue(HALT)
    ensures Run(Init(), ins).halted && Run(Init(), ins).cycleCount == 18
  {
    var c0 := Init();
    FetchPath(c0, ins[..4]);
    assert ins[..4] + ins[4..] == ins;
    RunAppend(c0, ins[..4], ins[4..]);
    var s4 := ins[4..];
    assert s4[0] == ins[4] && s4[4] == ins[8] && s4[8] == ins[12] && s4[13] == ins[17];
    ExampleFromDispatch(Run(c0, ins[..4]), s4);
  }
}
