/** The control unit as the object it is in the simulator: one field per
    member variable and per output port, one method per state handler and
    per helper, each updating the fields in place. Step is proved to do to
    the fields exactly what ControlSpec.Next does to a snapshot of them, so
    every property proved about Next and Run holds of the object. */
module ControlUnit {
  import opened ControlSpec
  import opened ControlProperties

  class Control {
    // Private state of the state machine.
    var state: State
    var restartPipe: bool
    var cycleCount: nat
    // Set by sc_stop(): the scheduler makes no further call of state_machine.
    var halted: bool

    // The last value written to each output port. Every `.write` of the
    // source updates one port of this record.
    var out: Ports

    /** The fields of the object as a value. */
    function Snapshot(): Config
      reads this
    {
      Config(state, restartPipe, cycleCount, halted, out)
    }

    /** The member initialisers: state_INITIAL, no flush pending, no cycle
        counted, every port at 0. */
    constructor()
      ensures Snapshot() == Init()
      ensures Invariant(Snapshot())
    {
      state := Initial;
      restartPipe := false;
      cycleCount := 0;
      halted := false;
      out := Reset;
    }

    /** getCycleCount(): the number of calls of state_machine so far. */
    function GetCycleCount(): (n: nat)
      reads this
      ensures n == Snapshot().cycleCount
    {
      cycleCount
    }

    /** state_machine: one call with the given input ports. */
    method Step(opcode: U4, of1: U8, opd: U9, n: bool, z: bool)
      requires !halted
      modifies this
      ensures Snapshot() == Next(old(Snapshot()), Inputs(opcode, of1, opd, n, z))
      ensures old(Invariant(Snapshot())) ==> Invariant(Snapshot())
      ensures GetCycleCount() == old(GetCycleCount()) + 1
    {
      ghost var c := Snapshot();
      var inp := Inputs(opcode, of1, opd, n, z);
      cycleCount := cycleCount + 1;
      assert Snapshot() == c.(cycleCount := c.cycleCount + 1);
      RunStateHandler(inp);
      assert Snapshot() == Next(c, inp);
      NextCycleCount(c, inp);
      if Invariant(c) {
        NextKeepsInvariant(c, inp);
      }
    }

    /** The call through the `state` member pointer: run the handler of the
        current state. */
    method RunStateHandler(inp: Inputs)
      modifies this`out, this`state, this`restartPipe, this`halted
      ensures Snapshot() == Handle(old(Snapshot()), inp)
    {
      match state
      case Initial => StateInitial();
      case InstReady => StateInstReady();
      case IrHasInst => StateIrHasInst();
      case RplReady => StateRplReady();
      case ReadyToExecute => StateReadyToExecute(inp);
      case ReadyToCompute => StateReadyToCompute();
      case ReadyToStore => StateReadyToStore();
      case ReadyToJump => StateReadyToJump();
      case ResultReady => StateResultReady();
      case ReadyToLoad => StateReadyToLoad();
    }

    // -------------------------------------------------------------------
    // State handlers
    // -------------------------------------------------------------------

    method StateInitial()
      requires state == Initial
      modifies this`out, this`state
      ensures state == InstReady && out == ReadInstFromIM(old(out))
    {
      PrepareReadInstFromIM();
      state := InstReady;
    }

    method StateInstReady()
      requires state == InstReady
      modifies this`out, this`state
      ensures state == IrHasInst && out == LoadRI(old(out))
    {
      PrepareLoadRI();
      state := IrHasInst;
    }

    method StateIrHasInst()
      requires state == IrHasInst
      modifies this`out, this`state, this`restartPipe
      ensures old(restartPipe) ==> state == Initial && !restartPipe && out == old(out)
      ensures !old(restartPipe) ==>
        state == RplReady && !restartPipe && out == LoadRPL(old(out))
    {
      if restartPipe {
        restartPipe := false;
        state := Initial;
      } else {
        PrepareLoadRPL();
        state := RplReady;
      }
    }

    method StateRplReady()
      requires state == RplReady
      modifies this`out, this`state
      ensures state == ReadyToExecute && out == ReadInstFromIM(old(out).(enableRPL := false))
    {
      out := out.(enableRPL := false);
      PrepareReadInstFromIM();
      state := ReadyToExecute;
    }

    method StateReadyToExecute(inp: Inputs)
      requires state == ReadyToExecute
      modifies this`out, this`state, this`restartPipe, this`halted
      ensures Snapshot() == Handle(old(Snapshot()), inp)
    {
      PrepareLoadRI();
      HandleOpcode(inp);
    }

    /** handleOpcode: the comparison chain over the opcode table. */
    method HandleOpcode(inp: Inputs)
      modifies this`out, this`state, this`restartPipe, this`halted
      ensures Snapshot() == Dispatch(old(Snapshot()), inp)
    {
      var opcode := inp.opcode;
      if opcode == OpcodeValue(LRI) {
        assert DecodeOpcode(opcode) == LRI;
        PrepareWriteRB();
        out := out.(immediateRegister := inp.opd, immediateValue := inp.of1, seletorMultiRBW := 2);
        state := ResultReady;
      } else if opcode == OpcodeValue(LD) {
        assert DecodeOpcode(opcode) == LD;
        PrepareWriteRB();
        PrepareReadDM();
        out := out.(seletorMultiRBW := 1, seletorMultiDM := 1);
        state := ReadyToLoad;
      } else if opcode == OpcodeValue(ST) {
        assert DecodeOpcode(opcode) == ST;
        PrepareReadRB();
        out := out.(seletorMultiDM := 0);
        state := ReadyToStore;
      } else if opcode == OpcodeValue(J) {
        assert DecodeOpcode(opcode) == J;
        PrepareJump(inp.opd);
        state := ReadyToJump;
      } else if opcode == OpcodeValue(JN) {
        assert DecodeOpcode(opcode) == JN;
        if inp.n {
          PrepareConditionalJump(inp.opd);
        }
        state := ReadyToJump;
      } else if opcode == OpcodeValue(JZ) {
        assert DecodeOpcode(opcode) == JZ;
        if inp.z {
          PrepareConditionalJump(inp.opd);
        }
        state := ReadyToJump;
      } else if opcode == OpcodeValue(HALT) {
        assert DecodeOpcode(opcode) == HALT;
        halted := true;
      } else {
        assert DecodeOpcode(opcode) == ALU(opcode);
        out := out.(seletorMultiRBW := 0);
        PrepareReadRB();
        state := ReadyToCompute;
      }
    }

    method StateReadyToCompute()
      requires state == ReadyToCompute
      modifies this`out, this`state
      ensures state == ResultReady && out == ControlSpec.StallPipe(WriteRB(old(out)))
    {
      PrepareWriteRB();
      StallPipe();
      state := ResultReady;
    }

    method StateReadyToStore()
      requires state == ReadyToStore
      modifies this`out, this`state
      ensures state == ResultReady && out == ControlSpec.StallPipe(WriteDM(old(out)))
    {
      PrepareWriteDM();
      StallPipe();
      state := ResultReady;
    }

    method StateReadyToJump()
      requires state == ReadyToJump
      modifies this`out, this`state
      ensures state == IrHasInst && out == old(out).(loadCP := false)
    {
      out := out.(loadCP := false);
      state := IrHasInst;
    }

    method StateResultReady()
      requires state == ResultReady
      modifies this`out, this`state
      ensures state == IrHasInst && out == ControlSpec.StallPipe(old(out).(enableRB := false, enableDM := false))
    {
      out := out.(enableRB := false, enableDM := false);
      StallPipe();
      state := IrHasInst;
    }

    method StateReadyToLoad()
      requires state == ReadyToLoad
      modifies this`out, this`state
      ensures state == ResultReady && out == WriteRB(old(out))
    {
      PrepareWriteRB();
      state := ResultReady;
    }

    // -------------------------------------------------------------------
    // Port helpers
    // -------------------------------------------------------------------

    method PrepareReadRB()
      modifies this`out
      ensures out == ReadRB(old(out))
    {
      out := out.(enableRB := true, writeRB := false);
    }

    method PrepareWriteRB()
      modifies this`out
      ensures out == WriteRB(old(out))
    {
      out := out.(enableRB := true, writeRB := true);
    }

    method PrepareReadDM()
      modifies this`out
      ensures out == ReadDM(old(out))
    {
      out := out.(enableDM := true, writeDM := false);
    }

    method PrepareWriteDM()
      modifies this`out
      ensures out == WriteDM(old(out))
    {
      out := out.(enableDM := true, writeDM := true);
    }

    /** Read the instruction memory and increment the program counter. */
    method PrepareReadInstFromIM()
      modifies this`out
      ensures out == ReadInstFromIM(old(out))
    {
      out := out.(enableIM := true, writeIM := false, enableCP := true);
    }

    /** Close the instruction memory, stop incrementing and latch the
        instruction register. */
    method PrepareLoadRI()
      modifies this`out
      ensures out == LoadRI(old(out))
    {
      out := out.(enableIM := false, enableRI := true, writeRI := true, enableCP := false);
    }

    /** Move the decoded instruction into the pipeline register. */
    method PrepareLoadRPL()
      modifies this`out
      ensures out == LoadRPL(old(out))
    {
      out := out.(enableRI := false, enableRPL := true, writeRPL := true);
    }

    /** Hold the instruction register for one call. */
    method StallPipe()
      modifies this`out
      ensures out == ControlSpec.StallPipe(old(out))
    {
      out := out.(enableRI := false);
    }

    /** Load the program counter with `target` and schedule a flush; the
        source reads the destination operand port, passed here as `target`. */
    method PrepareJump(target: U9)
      modifies this`out, this`restartPipe
      ensures out == JumpPorts(old(out), target) && restartPipe
    {
      out := out.(enableCP := false, loadCP := true, jumpValueCP := target);
      restartPipe := true;
    }

    /** A jump that also resets the ALU's N and Z flags. */
    method PrepareConditionalJump(target: U9)
      modifies this`out, this`restartPipe
      ensures out == JumpPorts(old(out), target).(resetZN := true) && restartPipe
    {
      PrepareJump(target);
      out := out.(resetZN := true);
    }
  }
}
