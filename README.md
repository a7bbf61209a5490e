# Control unit of the pipelined RISC simulator

This project models the control unit of a small SystemC simulator of a
pipelined processor (`processor/components/control/control.cpp`). The unit is
a Mealy machine with ten states. `state_machine` runs once when the simulation starts and then on every
positive clock edge. Each call:

- counts the call in `cycleCount`;
- runs the handler of its current state;
- writes enable, write-select and multiplexer-select lines to the datapath;
- reads the opcode, operand and flag inputs where it needs them;
- chooses the next state.

Opcode dispatch in `READY_TO_EXECUTE` covers all sixteen 4-bit codes. A
taken jump schedules a single-instruction flush (`restartPipe`). The next
`IR_HAS_INST` then throws away the instruction fetched behind the jump and
refetches from `INITIAL`.

The project has four modules:

- `ControlSpec` (`control_spec.dfy`) is the value-level model:
  - the signal widths as bounded naturals;
  - the opcode table and its decoding chain;
  - a `Config` snapshot of everything the controller holds: state, flush flag, cycle counter, whether the run was stopped, and the twenty output ports;
  - the port helpers (`prepare*`, `stallPipe`) as updates of the ports;
  - `Next`, one call of `state_machine`;
  - `Run` and `Visited`, a sequence of calls and the states they enter;
  - `Invariant`, the relations between state and outputs that every reachable configuration keeps.
- `ControlProperties` (`control_properties.dfy`) proves the general properties:
  - cycle accounting;
  - the invariant is preserved;
  - the resetZN and writeRPL lines are never lowered once raised.
- `ControlPaths` (`control_paths.dfy`) proves:
  - what each state handler and each opcode does to the ports;
  - the state sequence every instruction follows from one dispatch to the next;
  - the flush after a taken jump;
  - the cycle count of the example program `LRI; LRI; ALU; HALT`.
- `ControlUnit` (`control.dfy`) is the object as the simulator has it: class `Control`. It has:
  - the fields `state`, `restartPipe` and `cycleCount`, plus the output ports;
  - one method per state handler, per port helper and for `handleOpcode`, each updating the fields in place;
  - `Step` (`state_machine`), proved to change the fields exactly as `ControlSpec.Next` changes their snapshot.

  So every property proved about `Next` and `Run` holds of the object.

Modelling conventions:

- One call of `state_machine` is one atomic step. When a handler writes the same port twice, the last write wins.
- `sc_stop()` (HALT) sets a `halted` flag. `Step` requires the flag to be clear, because the scheduler makes no further calls. The source leaves `state` unassigned on HALT, so the model keeps it at `ReadyToExecute`.
- Output ports start at 0 / false, as SystemC initialises signals.
- The member-function pointer `state` becomes the closed datatype `State`.

Two facts about the code shape the model:

- `resetRPL` is declared (control.cpp:52) but never written. A flush only skips the commit to the pipeline register in `IR_HAS_INST` (control.cpp:147-149).
- `resetZN` is written in one place only, to 1, on a taken `JN`/`JZ` (control.cpp:299). It is never lowered again (`ControlProperties.RunKeepsRaisedLines`).

## Model

| member | source | states |
|---|---|---|
| ControlSpec.DecodeOpcode | processor/components/control/control.cpp:162-216 | the comparison chain maps every 4-bit code to an opcode whose encoding is that code; a code falls to the arithmetic/logic branch exactly when it is none of 0, 8..13 |
| ControlSpec.Init | processor/components/control/control.cpp:73-75 | a new controller is in INITIAL with no flush pending, no cycle counted, not stopped, and satisfies the invariant |
| ControlSpec.OpcodeValue | processor/components/control/control.cpp:162-170 | the encoding of each opcode, as the enum gives it; an opcode is an ALU opcode exactly when its code is none of 0, 8..13 |
| ControlSpec.DecodeEncode | processor/components/control/control.cpp:162-170 | decoding the encoding of any opcode gives that opcode back, so the table is injective |
| ControlSpec.ReadRB | processor/components/control/control.cpp:247-250 | enableRB=1, writeRB=0; every other port unchanged |
| ControlSpec.WriteRB | processor/components/control/control.cpp:252-255 | enableRB=1, writeRB=1; every other port unchanged |
| ControlSpec.ReadDM | processor/components/control/control.cpp:257-260 | enableDM=1, writeDM=0; every other port unchanged |
| ControlSpec.WriteDM | processor/components/control/control.cpp:262-265 | enableDM=1, writeDM=1; every other port unchanged |
| ControlSpec.ReadInstFromIM | processor/components/control/control.cpp:267-271 | enableIM=1, writeIM=0, enableCP=1; every other port unchanged |
| ControlSpec.LoadRI | processor/components/control/control.cpp:273-278 | enableIM=0, enableRI=1, writeRI=1, enableCP=0; every other port unchanged |
| ControlSpec.LoadRPL | processor/components/control/control.cpp:280-284 | enableRI=0, enableRPL=1, writeRPL=1; every other port unchanged |
| ControlSpec.StallPipe | processor/components/control/control.cpp:286-288 | enableRI=0; every other port unchanged |
| ControlSpec.JumpPorts | processor/components/control/control.cpp:290-295 | enableCP=0, loadCP=1, jumpValueCP=the target; every other port unchanged |
| ControlSpec.Dispatch | processor/components/control/control.cpp:177-216 | dispatch leaves the cycle counter alone and stops the run exactly when the opcode decodes to HALT |
| ControlSpec.ConditionalJump | processor/components/control/control.cpp:198-207 | JN/JZ go to READY_TO_JUMP; with the tested flag set they drive the jump ports with the target, raise resetZN and schedule the flush; with it clear no port and no flag changes |
| ControlSpec.Handle | processor/components/control/control.cpp:136-245 | no state handler changes the cycle counter |
| ControlSpec.Next | processor/components/control/control.cpp:131-134 | each call of state_machine adds exactly one to the cycle counter |
| ControlUnit.Control.constructor | processor/components/control/control.cpp:64-75 | the object starts as `Init()` with all ports at 0 |
| ControlUnit.Control.GetCycleCount | processor/components/control/control.cpp:69 | returns the cycle counter of the object's state: the number of calls of state_machine so far |
| ControlUnit.Control.Step | processor/components/control/control.cpp:131-134 | one call changes the fields exactly as `Next` changes their snapshot, keeps the invariant, and adds one to `getCycleCount()` |
| ControlUnit.Control.RunStateHandler | processor/components/control/control.cpp:133 | calling through the state pointer runs the current state's handler (`Handle`) |
| ControlUnit.Control.StateInitial | processor/components/control/control.cpp:136-139 | reads the instruction memory, increments the counter, goes to INST_READY |
| ControlUnit.Control.StateInstReady | processor/components/control/control.cpp:141-144 | latches the instruction register, goes to IR_HAS_INST |
| ControlUnit.Control.StateIrHasInst | processor/components/control/control.cpp:146-154 | with a flush pending: clears the flag, goes to INITIAL, writes no port; otherwise commits to the pipeline register, goes to RPL_READY |
| ControlUnit.Control.StateRplReady | processor/components/control/control.cpp:156-160 | closes the pipeline register, fetches the next instruction, goes to READY_TO_EXECUTE |
| ControlUnit.Control.StateReadyToExecute | processor/components/control/control.cpp:172-175 | loads the instruction register, then dispatches |
| ControlUnit.Control.HandleOpcode | processor/components/control/control.cpp:177-216 | the if-chain over opcodes does exactly what `Dispatch` does to the snapshot |
| ControlUnit.Control.StateReadyToCompute | processor/components/control/control.cpp:218-222 | writes the register file, holds the instruction register, goes to RESULT_READY |
| ControlUnit.Control.StateReadyToStore | processor/components/control/control.cpp:224-228 | writes the data memory, holds the instruction register, goes to RESULT_READY |
| ControlUnit.Control.StateReadyToJump | processor/components/control/control.cpp:230-233 | drops the load strobe, goes to IR_HAS_INST |
| ControlUnit.Control.StateResultReady | processor/components/control/control.cpp:235-240 | closes register file and data memory, holds the instruction register, goes to IR_HAS_INST |
| ControlUnit.Control.StateReadyToLoad | processor/components/control/control.cpp:242-245 | writes the register file, goes to RESULT_READY |
| ControlUnit.Control.PrepareReadRB | processor/components/control/control.cpp:247-250 | enables the register file for reading; no other field changes |
| ControlUnit.Control.PrepareWriteRB | processor/components/control/control.cpp:252-255 | enables the register file for writing; no other field changes |
| ControlUnit.Control.PrepareReadDM | processor/components/control/control.cpp:257-260 | enables the data memory for reading; no other field changes |
| ControlUnit.Control.PrepareWriteDM | processor/components/control/control.cpp:262-265 | enables the data memory for writing; no other field changes |
| ControlUnit.Control.PrepareReadInstFromIM | processor/components/control/control.cpp:267-271 | reads the instruction memory and increments the counter; no other field changes |
| ControlUnit.Control.PrepareLoadRI | processor/components/control/control.cpp:273-278 | closes the instruction memory, latches the instruction register, stops incrementing |
| ControlUnit.Control.PrepareLoadRPL | processor/components/control/control.cpp:280-284 | commits to the pipeline register and releases the instruction register |
| ControlUnit.Control.StallPipe | processor/components/control/control.cpp:286-288 | releases the instruction register only |
| ControlUnit.Control.PrepareJump | processor/components/control/control.cpp:290-295 | drives the jump ports with the target and sets the flush flag; state, counter and the other ports unchanged |
| ControlUnit.Control.PrepareConditionalJump | processor/components/control/control.cpp:297-300 | a jump that also raises the ALU flag reset |
| ControlProperties.HandleFrame | processor/components/control/control.cpp:136-245 | no handler touches the cycle counter or resetCP/resetRPL; the run stops exactly when READY_TO_EXECUTE sees HALT, and the state is then left at READY_TO_EXECUTE |
| ControlProperties.HandleKeepsInvariant | processor/components/control/control.cpp:136-300 | every handler keeps the invariant |
| ControlProperties.NextCycleCount | processor/components/control/control.cpp:131-134 | each call of state_machine adds exactly one to the cycle count; it stops the run iff it dispatches HALT; resetCP/resetRPL unchanged |
| ControlProperties.NextKeepsInvariant | processor/components/control/control.cpp:131-134 | each call of state_machine keeps the invariant |
| ControlProperties.RunAppend | processor/components/control/control.cpp:131-134 | running two input sequences one after the other is running their concatenation, and the visited states concatenate |
| ControlProperties.RunCycleCount | processor/components/control/control.cpp:131-134 | after a run the counter has grown by the number of calls of state_machine that happened: all of them unless HALT stopped the run, and one per visited state |
| ControlProperties.ResetCycleCount | processor/components/control/control.cpp:69-75 | from reset, `getCycleCount()` equals the number of calls of state_machine that happened |
| ControlProperties.RunKeepsInvariant | processor/components/control/control.cpp:131-134 | a run keeps the invariant |
| ControlProperties.Reachable | processor/components/control/control.cpp:290-295 | every configuration reachable from reset satisfies the invariant; the counter is never asked to load and increment in the same call; no flush is pending while a fetch is under way |
| ControlProperties.NextKeepsRaisedLines | processor/components/control/control.cpp:280-300 | no call of state_machine lowers resetZN or writeRPL |
| ControlProperties.RunKeepsRaisedLines | processor/components/control/control.cpp:280-300 | once raised, resetZN and writeRPL stay raised for the rest of the run |
| ControlPaths.InitialStep | processor/components/control/control.cpp:136-139 | INITIAL: enableIM=1, writeIM=0, enableCP=1 and nothing else; next INST_READY |
| ControlPaths.InstReadyStep | processor/components/control/control.cpp:141-144 | INST_READY: enableIM=0, enableRI=1, writeRI=1, enableCP=0 and nothing else; next IR_HAS_INST |
| ControlPaths.IrHasInstStep | processor/components/control/control.cpp:146-154 | IR_HAS_INST with the flag set: flag cleared, next INITIAL, no port written; with it clear: enableRI=0, enableRPL=1, writeRPL=1, next RPL_READY |
| ControlPaths.RplReadyStep | processor/components/control/control.cpp:156-160 | RPL_READY: enableRPL=0 plus the fetch ports; next READY_TO_EXECUTE |
| ControlPaths.DispatchStep | processor/components/control/control.cpp:172-216 | dispatch is total: HALT stops and keeps the state, LRI→RESULT_READY, LD→READY_TO_LOAD, ST→READY_TO_STORE, J/JN/JZ→READY_TO_JUMP, every other code→READY_TO_COMPUTE with seletorMultiRBW=0, enableRB=1, writeRB=0 |
| ControlPaths.LoadImmediateDispatch | processor/components/control/control.cpp:179-184 | LRI forwards opd and of1 as immediateRegister and immediateValue, seletorMultiRBW=2, enableRB=writeRB=1 |
| ControlPaths.MemoryDispatch | processor/components/control/control.cpp:185-194 | LD: both selectors 1, enableDM=1, writeDM=0, register file written; ST: seletorMultiDM=0, enableRB=1, writeRB=0 |
| ControlPaths.JumpDispatch | processor/components/control/control.cpp:195-197 | J: jumpValueCP=opd, loadCP=1, enableCP=0, flush scheduled |
| ControlPaths.ConditionalJumpDispatch | processor/components/control/control.cpp:198-207 | JN/JZ with the flag set: the jump ports, resetZN=1 and the flush; with it clear: loadCP, jumpValueCP, resetZN and the flush flag unchanged; READY_TO_JUMP either way |
| ControlPaths.ComputeStep | processor/components/control/control.cpp:218-222 | READY_TO_COMPUTE: enableRB=writeRB=1, enableRI=0; next RESULT_READY |
| ControlPaths.StoreStep | processor/components/control/control.cpp:224-228 | READY_TO_STORE: enableDM=writeDM=1, enableRI=0; next RESULT_READY |
| ControlPaths.JumpStep | processor/components/control/control.cpp:230-233 | READY_TO_JUMP: loadCP=0; next IR_HAS_INST |
| ControlPaths.ResultStep | processor/components/control/control.cpp:235-240 | RESULT_READY: enableRB=enableDM=enableRI=0; next IR_HAS_INST |
| ControlPaths.LoadStep | processor/components/control/control.cpp:242-245 | READY_TO_LOAD: enableRB=writeRB=1; next RESULT_READY |
| ControlPaths.FetchPath | processor/components/control/control.cpp:136-160 | without a flush, INITIAL→INST_READY→IR_HAS_INST→RPL_READY→READY_TO_EXECUTE in four calls |
| ControlPaths.CommitPath | processor/components/control/control.cpp:146-160 | IR_HAS_INST without a flush reaches the next dispatch in two calls |
| ControlPaths.ResultPath | processor/components/control/control.cpp:235-240 | RESULT_READY reaches the next dispatch in three calls |
| ControlPaths.JumpPath | processor/components/control/control.cpp:230-233 | READY_TO_JUMP reaches the next dispatch in six calls through INITIAL when a flush is pending, in three otherwise |
| ControlPaths.HaltStopsRun | processor/components/control/control.cpp:208-209 | HALT stops the run in its dispatch call: no later call happens |
| ControlPaths.DataInstructionPath | processor/components/control/control.cpp:179-245 | LRI, LD, ST and ALU codes follow their state path back to the next dispatch |
| ControlPaths.JumpInstructionPath | processor/components/control/control.cpp:195-233 | J, JN, JZ follow their state path back to the next dispatch, refetching exactly when taken |
| ControlPaths.InstructionPath | processor/components/control/control.cpp:172-245 | every instruction visits exactly the states of its path, reaches the next dispatch with no flush pending unless it is HALT, and costs one cycle per call |
| ControlPaths.TakenJumpFlushes | processor/components/control/control.cpp:146-154 | a taken jump goes READY_TO_JUMP→IR_HAS_INST→INITIAL: the counter is loaded with opd for one call, the run never passes through RPL_READY, so the instruction fetched behind the jump is never committed to the pipeline register, and enableRPL is left as it was |
| ControlPaths.ExampleProgram | processor/processor_run.cpp:18 | the program LRI; LRI; ALU; HALT, given those opcodes at its dispatch calls, stops with a count of 18 calls of state_machine |

## Left out

- processor/processor_run.cpp: program loading, `sc_start`, and printing the cycle count, registers and memory are host I/O. Only the count of calls of `state_machine` for its example program is modelled (`ExampleProgram`).
- SystemC kernel semantics are not modelled: delta-cycle visibility of `sc_out` writes, `SC_METHOD` sensitivity and the exact timing of `sc_stop()`. One call is one atomic step in which the last write to a port wins.
- The call SystemC makes while initialising (the `SC_METHOD` at control.cpp:64-67 has no `dont_initialize()`) is not told apart from the edge calls. The model counts calls, so the count is one more than the number of clock edges.
- The datapath components (program counter, memories, instruction and pipeline registers, register file, ALU, multiplexers) are not part of this model. Only the lines the controller drives to them are modelled, so the example's final register value (r0 = 8) is not stated.
- `of2` is an input the controller never reads, so it is not an input of `Step`.
- `resetCP`, `resetRPL` and `writeIM` are never driven except `writeIM` to 0. The model only proves that the first two never change.
- ControlUnit.Control: the twenty `sc_out` members are held as one record-valued field `out`, and each `.write` updates one port of it. A separate field per port made the verifier's frame reasoning too costly. No aliasing is involved either way.
- ControlUnit.Control.Step: `cycleCount` is an unbounded `nat`. The source's `unsigned` counter would wrap after 2^32 calls, which is not modelled.
