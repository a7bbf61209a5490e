/** Value-level specification of the control unit: the signal widths, the
    opcode table, a snapshot of everything the controller holds, and the
    function that says what one call of state_machine does to that snapshot. */
module ControlSpec {

  // Fixed-width unsigned signals (sc_uint<k> in the source).
  type U2 = x: nat | x < 4
  type U4 = x: nat | x < 16
  type U8 = x: nat | x < 256
  type U9 = x: nat | x < 512

  /** The ten states of the Mealy machine, one per state_* handler. */
  datatype State =
    | Initial
    | InstReady
    | IrHasInst
    | RplReady
    | ReadyToExecute
    | ReadyToCompute
    | ReadyToStore
    | ReadyToJump
    | ResultReady
    | ReadyToLoad

  /** A code that none of the named opcodes uses. */
  predicate IsAluCode(v: U4)
  {
    v != 0 && !(8 <= v <= 13)
  }

  /** The codes handleOpcode sends down the arithmetic/logic path. */
  type AluCode = v: U4 | IsAluCode(v) witness 1

  /** What handleOpcode makes of a 4-bit opcode: the seven named codes, and
      every other code as an arithmetic/logic operation. */
  datatype Opcode = HALT | LD | ST | J | JN | JZ | LRI | ALU(code: AluCode)

  /** The encodings of the source's `opcode` enum; the arithmetic/logic
      operations are exactly the opcodes encoded outside it. */
  function OpcodeValue(k: Opcode): (v: U4)
    ensures k.ALU? <==> IsAluCode(v)
  {
    match k
    case HALT => 0
    case LD => 8
    case ST => 9
    case J => 10
    case JN => 11
    case JZ => 12
    case LRI => 13
    case ALU(code) => code
  }

  /** The comparison chain of handleOpcode, in the source's order. */
  function DecodeOpcode(v: U4): (k: Opcode)
    ensures OpcodeValue(k) == v
    ensures k.ALU? <==> IsAluCode(v)
  {
    if v == OpcodeValue(LRI) then LRI
    else if v == OpcodeValue(LD) then LD
    else if v == OpcodeValue(ST) then ST
    else if v == OpcodeValue(J) then J
    else if v == OpcodeValue(JN) then JN
    else if v == OpcodeValue(JZ) then JZ
    else if v == OpcodeValue(HALT) then HALT
    else ALU(v)
  }

  /** Decoding inverts the encoding, so no two opcodes share a code. */
  lemma DecodeEncode(k: Opcode)
    ensures DecodeOpcode(OpcodeValue(k)) == k
  {
    match k
    case ALU(code) =>
    case _ =>
  }

  /** The input ports the controller reads during one call (of2 is never read). */
  datatype Inputs = Inputs(opcode: U4, of1: U8, opd: U9, n: bool, z: bool)

  /** The last value written to each output port of the controller. */
  datatype Ports = Ports(
    // program counter
    enableCP: bool, loadCP: bool, resetCP: bool, jumpValueCP: U9,
    // instruction memory
    enableIM: bool, writeIM: bool,
    // data memory
    enableDM: bool, writeDM: bool,
    // instruction register
    enableRI: bool, writeRI: bool, immediateValue: U8, immediateRegister: U9,
    // register file
    enableRB: bool, writeRB: bool,
    // pipeline register
    enableRPL: bool, writeRPL: bool, resetRPL: bool,
    // ALU flag reset
    resetZN: bool,
    // multiplexer selectors
    seletorMultiRBW: U2, seletorMultiDM: U2)

  /** Everything the controller holds: its private state, flush flag and
      cycle counter, whether the run was stopped, and its output ports. */
  datatype Config = Config(state: State, restartPipe: bool, cycleCount: nat, halted: bool, out: Ports)

  /** Relations between the state and the outputs that hold in every
      configuration reachable from reset. */
  ghost predicate Invariant(c: Config)
  {
    && (c.halted ==> c.state == ReadyToExecute)
    && (c.restartPipe ==> c.state == ReadyToJump || c.state == IrHasInst)
    && (c.out.loadCP ==> c.state == ReadyToJump)
    && (c.state == ReadyToJump ==> c.out.loadCP == c.restartPipe)
    && c.out.enableCP == c.out.enableIM
    && (c.out.enableIM <==> !c.halted && (c.state == InstReady || c.state == ReadyToExecute))
    && (c.out.enableRPL <==> c.state == RplReady)
    && !c.out.writeIM
  }

  /** Every output port at 0, as SystemC initialises the signals. */
  const Reset: Ports :=
    Ports(false, false, false, 0,
          false, false,
          false, false,
          false, false, 0, 0,
          false, false,
          false, false, false,
          false,
          0, 0)

  /** A freshly constructed controller. */
  function Init(): (c: Config)
    ensures c.state == Initial && !c.restartPipe && c.cycleCount == 0 && !c.halted
    ensures Invariant(c)
  {
    Config(Initial, false, 0, false, Reset)
  }

  // The port helpers of the controller, as updates of the output ports:
  // each drives its own ports and leaves every other port as it was.

  /** prepareReadRB: read the register file. */
  function ReadRB(o: Ports): (r: Ports)
    ensures r.enableRB && !r.writeRB
    ensures r.(enableRB := o.enableRB, writeRB := o.writeRB) == o
  {
    o.(enableRB := true, writeRB := false)
  }

  /** prepareWriteRB: write the register file. */
  function WriteRB(o: Ports): (r: Ports)
    ensures r.enableRB && r.writeRB
    ensures r.(enableRB := o.enableRB, writeRB := o.writeRB) == o
  {
    o.(enableRB := true, writeRB := true)
  }

  /** prepareReadDM: read the data memory. */
  function ReadDM(o: Ports): (r: Ports)
    ensures r.enableDM && !r.writeDM
    ensures r.(enableDM := o.enableDM, writeDM := o.writeDM) == o
  {
    o.(enableDM := true, writeDM := false)
  }

  /** prepareWriteDM: write the data memory. */
  function WriteDM(o: Ports): (r: Ports)
    ensures r.enableDM && r.writeDM
    ensures r.(enableDM := o.enableDM, writeDM := o.writeDM) == o
  {
    o.(enableDM := true, writeDM := true)
  }

  /** prepareReadInstFromIM: read the instruction memory and increment the
      program counter. */
  function ReadInstFromIM(o: Ports): (r: Ports)
    ensures r.enableIM && !r.writeIM && r.enableCP
    ensures r.(enableIM := o.enableIM, writeIM := o.writeIM, enableCP := o.enableCP) == o
  {
    o.(enableIM := true, writeIM := false, enableCP := true)
  }

  /** prepareLoadRI: close the instruction memory, stop incrementing and
      latch the instruction register. */
  function LoadRI(o: Ports): (r: Ports)
    ensures !r.enableIM && r.enableRI && r.writeRI && !r.enableCP
    ensures r.(enableIM := o.enableIM, enableRI := o.enableRI, writeRI := o.writeRI, enableCP := o.enableCP) == o
  {
    o.(enableIM := false, enableRI := true, writeRI := true, enableCP := false)
  }

  /** prepareLoadRPL: move the decoded instruction into the pipeline register. */
  function LoadRPL(o: Ports): (r: Ports)
    ensures !r.enableRI && r.enableRPL && r.writeRPL
    ensures r.(enableRI := o.enableRI, enableRPL := o.enableRPL, writeRPL := o.writeRPL) == o
  {
    o.(enableRI := false, enableRPL := true, writeRPL := true)
  }

  /** stallPipe: hold the instruction register. */
  function StallPipe(o: Ports): (r: Ports)
    ensures !r.enableRI
    ensures r.(enableRI := o.enableRI) == o
  {
    o.(enableRI := false)
  }

  /** The ports prepareJump drives: load the program counter with the
      destination instead of incrementing it. */
  function JumpPorts(o: Ports, target: U9): (r: Ports)
    ensures !r.enableCP && r.loadCP && r.jumpValueCP == target
    ensures r.(enableCP := o.enableCP, loadCP := o.loadCP, jumpValueCP := o.jumpValueCP) == o
  {
    o.(enableCP := false, loadCP := true, jumpValueCP := target)
  }

  /** Opcode dispatch (handleOpcode), applied after the instruction register
      has been set up to take the next instruction. */
  function Dispatch(t: Config, inp: Inputs): (r: Config)
    ensures r.cycleCount == t.cycleCount
    ensures r.halted <==> t.halted || DecodeOpcode(inp.opcode) == HALT
  {
    match DecodeOpcode(inp.opcode)
    case LRI =>
      t.(out := WriteRB(t.out).(immediateRegister := inp.opd, immediateValue := inp.of1,
                                seletorMultiRBW := 2),
         state := ResultReady)
    case LD =>
      t.(out := ReadDM(WriteRB(t.out)).(seletorMultiRBW := 1, seletorMultiDM := 1),
         state := ReadyToLoad)
    case ST =>
      t.(out := ReadRB(t.out).(seletorMultiDM := 0), state := ReadyToStore)
    case J =>
      t.(out := JumpPorts(t.out, inp.opd), restartPipe := true, state := ReadyToJump)
    case JN =>
      ConditionalJump(t, inp.n, inp.opd)
    case JZ =>
      ConditionalJump(t, inp.z, inp.opd)
    case HALT =>
      t.(halted := true)
    case ALU(_) =>
      t.(out := ReadRB(t.out.(seletorMultiRBW := 0)), state := ReadyToCompute)
  }

  /** JN and JZ: jump and reset the ALU flags when the tested flag is set
      (prepareConditionalJump), otherwise drive nothing; go to READY_TO_JUMP
      either way. */
  function ConditionalJump(t: Config, flag: bool, target: U9): (r: Config)
    ensures r.state == ReadyToJump && r.cycleCount == t.cycleCount && r.halted == t.halted
    ensures flag ==> r.restartPipe && r.out.loadCP && !r.out.enableCP && r.out.jumpValueCP == target
                     && r.out.resetZN
    ensures !flag ==> r.restartPipe == t.restartPipe && r.out == t.out
  {
    if flag then
      t.(out := JumpPorts(t.out, target).(resetZN := true), restartPipe := true,
         state := ReadyToJump)
    else
      t.(state := ReadyToJump)
  }

  /** One call of state_machine (once at initialisation, then once per
      positive clock edge): count the call, then run the handler of the
      current state. The scheduler makes no further call once the run is
      stopped. */
  function Next(c: Config, inp: Inputs): (r: Config)
    requires !c.halted
    ensures r.cycleCount == c.cycleCount + 1
  {
    Handle(c.(cycleCount := c.cycleCount + 1), inp)
  }

  /** The handler of the current state (the state_* member the source's
      `state` pointer designates). */
  function Handle(t: Config, inp: Inputs): (r: Config)
    ensures r.cycleCount == t.cycleCount
  {
    match t.state
    case Initial =>
      t.(out := ReadInstFromIM(t.out), state := InstReady)
    case InstReady =>
      t.(out := LoadRI(t.out), state := IrHasInst)
    case IrHasInst =>
      if t.restartPipe then t.(restartPipe := false, state := Initial)
      else t.(out := LoadRPL(t.out), state := RplReady)
    case RplReady =>
      t.(out := ReadInstFromIM(t.out.(enableRPL := false)), state := ReadyToExecute)
    case ReadyToExecute =>
      Dispatch(t.(out := LoadRI(t.out)), inp)
    case ReadyToCompute =>
      t.(out := StallPipe(WriteRB(t.out)), state := ResultReady)
    case ReadyToStore =>
      t.(out := StallPipe(WriteDM(t.out)), state := ResultReady)
    case ReadyToJump =>
      t.(out := t.out.(loadCP := false), state := IrHasInst)
    case ResultReady =>
      t.(out := StallPipe(t.out.(enableRB := false, enableDM := false)), state := IrHasInst)
    case ReadyToLoad =>
      t.(out := WriteRB(t.out), state := ResultReady)
  }

  /** A sequence of calls of state_machine, one per element of `ins`; once
      HALT has stopped the run, the remaining calls never happen. */
  function Run(c: Config, ins: seq<Inputs>): Config
    decreases |ins|
  {
    if ins == [] || c.halted then c else Run(Next(c, ins[0]), ins[1..])
  }

  /** The state entered on each call of state_machine in a run. */
  function Visited(c: Config, ins: seq<Inputs>): seq<State>
    decreases |ins|
  {
    if ins == [] || c.halted then [] else [Next(c, ins[0]).state] + Visited(Next(c, ins[0]), ins[1..])
  }
}
