# ARM `switch_mm` and `check_context`, modelled in Dafny

This project models the address-space switch of the 32-bit ARM Linux kernel
as declared in `arch/arm/include/asm/mmu_context.h`:

- the ARMv6 context id (a generation in the high 24 bits, an 8-bit ASID in
  the low bits) and the ASID packing constants;
- `check_context` in both build variants: with ASIDs it asks for a new
  context when the mm's generation is stale against `cpu_last_asid`, and it
  resyncs the kernel mapping (`__check_kvm_seq`) when the mm's `kvm_seq` differs
  from `init_mm`'s; without ASIDs it only resyncs, and only with an MMU;
- `switch_mm`:
  - the instruction-cache flush when the incoming mm migrates to this CPU;
  - the fast path when the CPU was already in next's mask and the mm does
    not change;
  - the per-CPU `current_mm` store;
  - `check_context` and `cpu_switch_mm`;
  - the optional TIMA debug pass, which checks that the four first-level
    table pages and every second-level table the entry filter selects are
    read-only, and counts protected tables in `tima_debug_infra_cnt`;
  - the VIVT-cache clearing of the CPU from prev's mask;
- `activate_mm`, which is `switch_mm` with no task.

The files:

- `context_id.dfy` (module `ContextId`): the 32-bit context id, its
  generation and ASID, and the staleness test of `check_context`.
- `mmu_types.dfy` (module `MmuTypes`): the entities. These are mm
  identities, CPU numbers, the per-mm context record and the build
  configuration. There is also the record of external actions (`Event`)
  with its source order.
- `tima_debug.dfy` (module `TimaDebug`): the TIMA debug pass as functions of
  what it reads. It gives the reports raised and the count of protected
  second-level tables, with lemmas about the entry filter and the reports.
- `switch_spec.dfy` (module `SwitchSpec`): `check_context` and `switch_mm`
  as functions of the state they read, with lemmas stating what they decide:
  - which actions fire, and in which order;
  - how CPU masks and `current_mm` slots change;
  - which invariants a switch preserves.
- `mmu_state.dfy` (module `MmuState`): a `Machine` class that holds the
  state `switch_mm` updates in place. That state is the mask of each mm,
  the `current_mm` slots, and `tima_debug_infra_cnt`, which wraps at 2^32
  like an `unsigned long`. The class also keeps a ghost trace of the
  external actions. Its methods perform the operations step by step,
  including both TIMA scan loops. Each method is proved to produce exactly
  the state and the trace that `SwitchSpec` and `TimaDebug` define.

The build configuration is a `Config` value: CONFIG_MMU, CONFIG_SMP,
CONFIG_CPU_HAS_ASID, `cache_is_vivt()`, and the two TIMA table options
(each taken together with CONFIG_TIMA_RKP_DEBUG). `smp_processor_id()` is
the `cpu` parameter.

What the debug pass reads is a `DebugView` parameter:

- the pgd address;
- the words of the first-level table;
- `phys_to_virt`;
- the verdicts of `tima_debug_page_protection`.

The external calls `__flush_icache_all`, `__new_context`, `__check_kvm_seq`,
`cpu_switch_mm` and `tima_debug_signal_failure` are recorded as events.

The VIVT clear (lines 172-173) runs on every slow path. That includes
`prev == next` when the CPU was not yet in next's mask, so the CPU leaves
the switch outside the mask of the mm it now runs.
`SwitchSpec.SwitchMasksEffect` states this case and
`SwitchSpec.RepeatedSwitchIsNoOp` excludes it.

## Model

| member | source | states |
|---|---|---|
| ContextId.HeaderConstants | arch/arm/include/asm/mmu_context.h:41-43 | ASID_MASK is all ones shifted left by ASID_BITS (8) and ASID_FIRST_VERSION is 1 shifted left by 8 |
| ContextId.AsidBitsOfId | arch/arm/include/asm/mmu_context.h:28-42 | the ASID of a context id is its low 8 bits, at most 0xFF |
| ContextId.GenerationBits | arch/arm/include/asm/mmu_context.h:28-42 | the generation ("process ID") fits in 24 bits and is exactly the id's bits above the ASID |
| ContextId.Pack | arch/arm/include/asm/mmu_context.h:28-42 | any 24-bit generation and 8-bit ASID pack into an id whose generation and ASID are those two |
| ContextId.PackUnpack | arch/arm/include/asm/mmu_context.h:28-42 | every context id is the packing of its own generation and ASID, so the layout loses nothing |
| ContextId.XorShift | arch/arm/include/asm/mmu_context.h:67 | the xor-then-shift test is nonzero exactly when the two words differ above the low 8 bits |
| ContextId.NeedsNewContext | arch/arm/include/asm/mmu_context.h:67 | the staleness test of check_context holds exactly when the mm's generation differs from cpu_last_asid's |
| ContextId.AsidBitsAloneNeverStale | arch/arm/include/asm/mmu_context.h:67 | ids that agree on the ASID_MASK bits never trigger a new context, whatever their ASIDs |
| ContextId.InitialContextIsStale | arch/arm/include/asm/mmu_context.h:67-68 | a zero id is stale against any nonzero generation, so its first check allocates |
| ContextId.ConstantsAndExamples | arch/arm/include/asm/mmu_context.h:41-43 | ASID_FIRST_VERSION is generation 1 with ASID 0; worked stale and fresh comparisons |
| TimaDebug.L1PageOffsetIsProduct | arch/arm/include/asm/mmu_context.h:148 | the page offsets used by the L1 scan are i * 0x1000 in 32-bit arithmetic for i in 0..3 |
| TimaDebug.L1Events | arch/arm/include/asm/mmu_context.h:147-153 | checking n first-level pages raises at most one report per page |
| TimaDebug.L1EventsAreReports | arch/arm/include/asm/mmu_context.h:147-153 | the L1 scan raises only (0x3f80f221, 1) reports, and raises none exactly when every checked page is protected |
| TimaDebug.L1ReportCount | arch/arm/include/asm/mmu_context.h:147-153 | the L1 scan raises exactly one report per page the checker finds unprotected |
| TimaDebug.CheckedCount | arch/arm/include/asm/mmu_context.h:158-161 | at most every entry passes the type-bit and region filter |
| TimaDebug.L2Events | arch/arm/include/asm/mmu_context.h:156-169 | scanning the first-level entries raises at most one report per entry |
| TimaDebug.L2EventsAreReports | arch/arm/include/asm/mmu_context.h:156-169 | the L2 scan raises only (0x3f80f221, 101) reports, and raises none exactly when every filtered entry's table is protected |
| TimaDebug.L2Count | arch/arm/include/asm/mmu_context.h:166-167 | tima_debug_infra_cnt is bumped at most once per entry |
| TimaDebug.L2ReportCount | arch/arm/include/asm/mmu_context.h:156-169 | the L2 scan raises exactly one report per filtered entry whose table is unprotected, and bumps the counter exactly once per filtered entry whose table is protected |
| TimaDebug.L2OutcomesWithinChecked | arch/arm/include/asm/mmu_context.h:156-169 | each filtered entry yields a report, a count or neither, never both, and rejected entries yield nothing |
| TimaDebug.L2ConsultsOnlyChecked | arch/arm/include/asm/mmu_context.h:158-163 | the checker's answers for entries the filter rejects have no influence on the reports or the count |
| TimaDebug.L2FilterExamples | arch/arm/include/asm/mmu_context.h:158-162 | the skipped region is inclusive at both ends and compares the raw entry; only type bits 01 pass; the table address drops the low 10 bits |
| SwitchSpec.CheckContextDecides | arch/arm/include/asm/mmu_context.h:57-84 | check_context asks for a new context exactly when ASIDs are configured and the generation is stale, and resyncs exactly when kvm_seq differs from init_mm's (with ASIDs or with an MMU) |
| SwitchSpec.CheckContextShape | arch/arm/include/asm/mmu_context.h:57-84 | check_context does nothing but those two calls, the new context before the resync |
| SwitchSpec.CheckContextAtMostOnce | arch/arm/include/asm/mmu_context.h:57-84 | check_context makes each of its two calls at most once |
| SwitchSpec.SwitchMasksEffect | arch/arm/include/asm/mmu_context.h:124-174 | only this CPU's bit changes, and only in prev's and next's masks; the CPU ends in next's mask unless VIVT clearing with prev == next removed it; VIVT slow paths leave it out of prev's mask; without VIVT masks only grow; the fast path changes nothing |
| SwitchSpec.SwitchCurrentMmEffect | arch/arm/include/asm/mmu_context.h:132-136 | only this CPU's current_mm slot changes; on an SMP slow path it becomes next; otherwise nothing changes |
| SwitchSpec.DebugEventsAreReports | arch/arm/include/asm/mmu_context.h:146-170 | the TIMA debug pass raises nothing but failure reports |
| SwitchSpec.SlowPathHeadMembers | arch/arm/include/asm/mmu_context.h:132-138 | the slow path always loads next into the MMU, stores current_mm exactly on SMP, and calls __new_context and __check_kvm_seq exactly when check_context decides to |
| SwitchSpec.SlowPathHeadOnly | arch/arm/include/asm/mmu_context.h:133-138 | up to cpu_switch_mm the slow path does nothing but those four actions, all about next |
| SwitchSpec.SwitchEventsDecides | arch/arm/include/asm/mmu_context.h:123-132 | the icache is flushed exactly when next runs elsewhere but not on this CPU (SMP, MMU); the MMU is loaded exactly on the slow path; the fast path and a no-MMU build do nothing |
| SwitchSpec.SwitchChecksContext | arch/arm/include/asm/mmu_context.h:132-137 | a switch stores current_mm, allocates a context or resyncs kvm_seq exactly on the slow path and under check_context's conditions |
| SwitchSpec.SwitchEventsConcernNext | arch/arm/include/asm/mmu_context.h:123-174 | every action of a switch concerns next or this CPU, or is a debug report |
| SwitchSpec.SlowPathHeadInSourceOrder | arch/arm/include/asm/mmu_context.h:133-138 | current_mm store, then check_context, then cpu_switch_mm |
| SwitchSpec.SlowPathEventsInSourceOrder | arch/arm/include/asm/mmu_context.h:133-170 | the slow path acts in source order, the debug reports after the MMU load |
| SwitchSpec.SwitchEventsInSourceOrder | arch/arm/include/asm/mmu_context.h:127-173 | a switch acts in source order: migration flush, current_mm store, check_context, cpu_switch_mm, debug reports |
| SwitchSpec.NonVivtKeepsActiveResident | arch/arm/include/asm/mmu_context.h:132-173 | without VIVT, "every CPU is in the mask of its current mm" is preserved by switch_mm |
| SwitchSpec.VivtKeepsResidencyExclusive | arch/arm/include/asm/mmu_context.h:132-173 | with VIVT on SMP, "a CPU is only in the mask of its current mm" is preserved by switch_mm away from that mm |
| SwitchSpec.RepeatedSwitchIsNoOp | arch/arm/include/asm/mmu_context.h:132 | switching to the same mm again on the same CPU takes the fast path: no action, no state change |
| SwitchSpec.MigrationFlushesFirst | arch/arm/include/asm/mmu_context.h:127-132 | when next migrates to this CPU, the icache flush is the first action, the MMU is loaded, and the CPU joins next's mask |
| MmuState.AddULongSucc | arch/arm/include/asm/mmu_context.h:167 | incrementing the wrapping 32-bit counter once more adds one more modulo 2^32 |
| MmuState.Machine.TestAndSetCpu | arch/arm/include/asm/mmu_context.h:132 | sets this CPU's bit in the mask and reports whether it was already set; no other mask changes |
| MmuState.Machine.ClearCpu | arch/arm/include/asm/mmu_context.h:172-173 | removes this CPU's bit from one mask; no other mask changes |
| MmuState.Machine.CheckContext | arch/arm/include/asm/mmu_context.h:57-84 | performs exactly the actions CheckContextEvents decides, and changes no other state |
| MmuState.Machine.ScanL1Tables | arch/arm/include/asm/mmu_context.h:147-153 | the four-page loop raises exactly the L1 reports, in page order |
| MmuState.Machine.ScanL2Tables | arch/arm/include/asm/mmu_context.h:156-169 | the 0x1000-entry loop raises exactly the L2 reports in entry order and adds L2Count to the counter modulo 2^32 |
| MmuState.Machine.DebugPass | arch/arm/include/asm/mmu_context.h:139-171 | the configured scans run L1 then L2; the counter moves only with the L2 option |
| MmuState.Machine.SwitchSlowPath | arch/arm/include/asm/mmu_context.h:133-173 | the body of the if: current_mm store on SMP, check_context, MMU load, debug pass, VIVT clearing of prev's mask, with exactly the resulting state and actions |
| MmuState.Machine.SwitchMm | arch/arm/include/asm/mmu_context.h:112-176 | leaves exactly the masks, current_mm slots, counter and actions that SwitchSpec defines, whose properties the SwitchSpec lemmas state |
| MmuState.Machine.ActivateMm | arch/arm/include/asm/mmu_context.h:179 | activate_mm has exactly the effect of switch_mm |

## Left out

- `__new_context`, `__init_new_context` and `__check_kvm_seq` are only declared in this header. Their bodies, ASID allocation and generation rollover are not part of this model. Their calls are recorded as events, and `mm->context` is not updated by the model.
- `init_new_context` is not modelled. With ASIDs it only calls `__init_new_context`; without them it is the constant 0.
- `destroy_context`, `enter_lazy_tlb` and `deactivate_mm` are empty and are not modelled.
- Concurrency is not modelled. That covers the unlocked read of `cpu_last_asid` (which is why the code notes it relies on interrupts and IPIs) and the atomicity of the cpumask operations. Each call runs alone on one CPU.
- Hardware and foreign primitives are parameters or events:
  - `smp_processor_id()` is the `cpu` parameter;
  - `cache_is_vivt()` is a configuration flag;
  - `phys_to_virt` and `tima_debug_page_protection` are functions in the `DebugView`;
  - `__flush_icache_all`, `cpu_switch_mm` and `tima_debug_signal_failure` are events.
- The raw memory reads of the first-level table (`*(next->pgd + i*4)`) are the `l1Entries` sequence, not a read of memory at the pgd address.
- The `tsk` argument of `switch_mm` is unused by the code and is not modelled.
- MmuState.Machine.SwitchMm and SwitchSpec.SwitchMasksEffect: the recorded calls are assumed to change none of the masks, `current_mm` slots, contexts, `cpu_last_asid` or `init_mm.context.kvm_seq`. In the kernel `__new_context(next)` gives next a new context id and may change other state, such as next's mask, but its body is not part of this model. The frame these members state therefore describes only the writes `switch_mm` makes itself. A `Machine` models one call of `switch_mm`, not a sequence of calls across a context allocation.
- `Config` admits SMP builds without ASIDs. The header declares `current_mm` (lines 49-52) and `tima_debug_infra_cnt` (lines 45-47) only under CONFIG_CPU_HAS_ASID, so this header alone does not build such a configuration with those options. The model treats the combination as if the declarations were present.
- MmuState.Machine.SwitchMm: requires that prev and next have a mask and next has a context, because the model keeps these in maps. In the kernel every mm has both.
