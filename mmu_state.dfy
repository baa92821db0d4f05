/**
 The state `switch_mm` updates in place — each mm's CPU mask, each CPU's
 `current_mm` slot, the TIMA infrastructure counter — and the operations of
 the header as methods that change it one step at a time. Each method is
 proved to leave exactly the state that `SwitchSpec` describes.
 */
module MmuState {
  import opened ContextId
  import opened MmuTypes
  import opened TimaDebug
  import opened SwitchSpec

  /** `unsigned long` on 32-bit ARM wraps at 2^32. */
  const ULongModulus: nat := 0x1_0000_0000
  type ULong = x: nat | x < ULongModulus

  /** `a += n` on an `unsigned long`. */
  function AddULong(a: ULong, n: nat): ULong
  {
    (a + n) % ULongModulus
  }

  /** Adding one more after adding `n` is adding `n + 1`. */
  lemma AddULongSucc(a: ULong, n: nat)
    ensures AddULong(AddULong(a, n), 1) == AddULong(a, n + 1)
  {
  }

  /**
   One machine: the live mms with their masks and contexts, the per-CPU
   `current_mm` slots, and the globals `check_context` and the debug pass
   read or bump. The ghost `trace` records, in order, the external calls
   and the `current_mm` stores the operations make.
   */
  class Machine {
    const cfg: Config
    var masks: map<Mm, set<Cpu>>       // mm_cpumask(mm)
    const contexts: map<Mm, MmContext> // mm->context
    var currentMm: map<Cpu, Mm>        // per_cpu(current_mm, cpu)
    const lastAsid: Word               // cpu_last_asid
    const initKvmSeq: Word             // init_mm.context.kvm_seq
    var infraCnt: ULong                // tima_debug_infra_cnt
    ghost var trace: seq<Event>

    constructor (cfg: Config, masks: map<Mm, set<Cpu>>, contexts: map<Mm, MmContext>,
                 lastAsid: Word, initKvmSeq: Word)
      ensures this.cfg == cfg && this.masks == masks && this.contexts == contexts
      ensures this.lastAsid == lastAsid && this.initKvmSeq == initKvmSeq
      ensures currentMm == map[] && infraCnt == 0 && trace == []
    {
      this.cfg := cfg;
      this.masks := masks;
      this.contexts := contexts;
      this.lastAsid := lastAsid;
      this.initKvmSeq := initKvmSeq;
      currentMm := map[];
      infraCnt := 0;
      trace := [];
    }

    /** `cpumask_test_and_set_cpu(cpu, mm_cpumask(m))`: sets the bit, reports whether it was set. */
    method TestAndSetCpu(m: Mm, cpu: Cpu) returns (wasSet: bool)
      requires m in masks
      modifies this`masks
      ensures wasSet <==> cpu in old(masks[m])
      ensures masks == old(masks)[m := old(masks[m]) + {cpu}]
    {
      wasSet := cpu in masks[m];
      masks := masks[m := masks[m] + {cpu}];
    }

    /** `cpumask_clear_cpu(cpu, mm_cpumask(m))`. */
    method ClearCpu(m: Mm, cpu: Cpu)
      requires m in masks
      modifies this`masks
      ensures masks == old(masks)[m := old(masks[m]) - {cpu}]
    {
      masks := masks[m := masks[m] - {cpu}];
    }

    /** `check_context(m)`, in the variant the configuration selects. */
    method CheckContext(m: Mm)
      requires m in contexts
      modifies this`trace
      ensures trace == old(trace) + CheckContextEvents(cfg, m, contexts[m], lastAsid, initKvmSeq)
    {
      var ctx := contexts[m];
      var stale := NeedsNewContext(ctx.id, lastAsid);
      var lagging := ctx.kvmSeq != initKvmSeq;
      if cfg.hasAsid {
        if stale {
          trace := trace + [NewContext(m)];
        }
        if lagging {
          trace := trace + [CheckKvmSeq(m)];
        }
      } else if cfg.mmu {
        if lagging {
          trace := trace + [CheckKvmSeq(m)];
        }
      }
    }

    /** The TIMA check of the four pages of the incoming first-level table. */
    method ScanL1Tables(d: DebugView)
      modifies this`trace
      ensures trace == old(trace) + L1Events(d, L1Pages)
    {
      var i := 0;
      while i < L1Pages
        invariant 0 <= i <= L1Pages
        invariant trace == old(trace) + L1Events(d, i)
      {
        var ret := d.protection(L1PageAddr(d, i), L1SizeClass);
        var unprotected := ret == 0;
        L1Step(d, i);
        if unprotected {
          trace := trace + [DebugFailure(FailureCode, L1FailureDetail)];
        }
        i := i + 1;
      }
    }

    /**
     The TIMA check of every second-level table the incoming first-level
     table points to, skipping entries that are not page-table pointers and
     those in the section-to-page-table region.
     */
    method ScanL2Tables(d: DebugView)
      requires |d.l1Entries| == L1EntryCount
      modifies this`trace, this`infraCnt
      ensures trace == old(trace) + L2Events(d, d.l1Entries)
      ensures infraCnt == AddULong(old(infraCnt), L2Count(d, d.l1Entries))
    {
      for i := 0 to L1EntryCount
        invariant trace == old(trace) + L2Events(d, d.l1Entries[..i])
        invariant infraCnt == AddULong(old(infraCnt), L2Count(d, d.l1Entries[..i]))
      {
        var pmd := d.l1Entries[i];
        L2Step(d, d.l1Entries, i);
        if !IsPageTableEntry(pmd) {
          continue;
        }
        if InSectToPgtRegion(pmd) {
          continue;
        }
        var va := d.physToVirt(L2TableAddr(pmd));
        var ret := d.protection(va, L2SizeClass);
        if ret == 0 {
          trace := trace + [DebugFailure(FailureCode, L2FailureDetail)];
        } else if ret == 1 {
          AddULongSucc(old(infraCnt), L2Count(d, d.l1Entries[..i]));
          infraCnt := AddULong(infraCnt, 1);
        }
      }
      assert d.l1Entries[..L1EntryCount] == d.l1Entries;
    }

    /**
     The TIMA debug pass run after `cpu_switch_mm`: the first-level scan,
     then the second-level scan, each when configured.
     */
    method DebugPass(d: DebugView)
      requires cfg.timaL2 ==> |d.l1Entries| == L1EntryCount
      modifies this`trace, this`infraCnt
      ensures trace == old(trace) + DebugEvents(cfg, d)
      ensures infraCnt == if cfg.timaL2 then AddULong(old(infraCnt), L2Count(d, d.l1Entries))
                          else old(infraCnt)
    {
      if cfg.timaL1 {
        ScanL1Tables(d);
      }
      if cfg.timaL2 {
        ScanL2Tables(d);
      }
    }

    /**
     The body of the `if` in `switch_mm`: record next as this CPU's current
     mm, validate its context, load it into the MMU, run the debug pass, and
     on a VIVT cache drop this CPU from prev's mask.
     */
    method SwitchSlowPath(prev: Mm, next: Mm, cpu: Cpu, d: DebugView)
      requires prev in masks && next in contexts
      requires cfg.timaL2 ==> |d.l1Entries| == L1EntryCount
      modifies this`masks, this`currentMm, this`trace, this`infraCnt
      ensures masks == if cfg.vivt then old(masks)[prev := old(masks[prev]) - {cpu}] else old(masks)
      ensures currentMm == if cfg.smp then old(currentMm)[cpu := next] else old(currentMm)
      ensures trace == old(trace) + SlowPathEvents(cfg, contexts[next], lastAsid, initKvmSeq, next, cpu, d)
      ensures infraCnt == if cfg.timaL2 then AddULong(old(infraCnt), L2Count(d, d.l1Entries))
                          else old(infraCnt)
    {
      ghost var start := trace;
      ghost var ctx := contexts[next];
      ghost var store: seq<Event> := [];
      if cfg.smp {
        currentMm := currentMm[cpu := next];
        trace := trace + [SetCurrentMm(cpu, next)];
        store := [SetCurrentMm(cpu, next)];
      } else {
        AppendEmpty(start);
      }
      ghost var check := CheckContextEvents(cfg, next, ctx, lastAsid, initKvmSeq);
      CheckContext(next);
      AppendAssoc(start, store, check);
      trace := trace + [CpuSwitchMm(next)];
      AppendAssoc(start, store + check, [CpuSwitchMm(next)]);
      ghost var head := store + check + [CpuSwitchMm(next)];
      assert trace == start + head;
      DebugPass(d);
      AppendAssoc(start, head, DebugEvents(cfg, d));
      if cfg.vivt {
        ClearCpu(prev, cpu);
      }
    }

    /**
     `switch_mm(prev, next, tsk)` on `cpu` (`tsk` is unused): flush the
     instruction cache if next migrates here, and take the slow path unless
     this CPU already ran next and the mm does not change.
     */
    method SwitchMm(prev: Mm, next: Mm, cpu: Cpu, d: DebugView)
      requires prev in masks && next in masks && next in contexts
      requires cfg.timaL2 ==> |d.l1Entries| == L1EntryCount
      modifies this`masks, this`currentMm, this`trace, this`infraCnt
      ensures masks == SwitchMasks(cfg, old(masks), prev, next, cpu)
      ensures currentMm == SwitchCurrentMm(cfg, old(masks[next]), old(currentMm), prev, next, cpu)
      ensures trace == old(trace)
                       + SwitchEvents(cfg, old(masks[next]), contexts[next], lastAsid, initKvmSeq, prev, next, cpu, d)
      ensures infraCnt == if cfg.timaL2 && SlowPath(cfg, old(masks[next]), prev, next, cpu)
                          then AddULong(old(infraCnt), L2Count(d, d.l1Entries))
                          else old(infraCnt)
    {
      if !cfg.mmu {
        return;
      }
      ghost var start := trace;
      ghost var nextMask := masks[next];
      ghost var flush := MigrationFlush(cfg, nextMask, cpu);
      // check for possible thread migration
      if cfg.smp && masks[next] != {} && cpu !in masks[next] {
        trace := trace + [FlushIcacheAll];
      } else {
        AppendEmpty(start);
      }
      var wasSet := TestAndSetCpu(next, cpu);
      if !wasSet || prev != next {
        assert SlowPath(cfg, nextMask, prev, next, cpu);
        SwitchSlowPath(prev, next, cpu, d);
        AppendAssoc(start, flush, SlowPathEvents(cfg, contexts[next], lastAsid, initKvmSeq, next, cpu, d));
      } else {
        assert !SlowPath(cfg, nextMask, prev, next, cpu);
        AppendEmpty(flush);
        assert masks == old(masks) by {
          assert nextMask + {cpu} == nextMask;
        }
      }
    }

    /** `activate_mm(prev, next)`: `switch_mm(prev, next, NULL)`. */
    method ActivateMm(prev: Mm, next: Mm, cpu: Cpu, d: DebugView)
      requires prev in masks && next in masks && next in contexts
      requires cfg.timaL2 ==> |d.l1Entries| == L1EntryCount
      modifies this`masks, this`currentMm, this`trace, this`infraCnt
      ensures masks == SwitchMasks(cfg, old(masks), prev, next, cpu)
      ensures currentMm == SwitchCurrentMm(cfg, old(masks[next]), old(currentMm), prev, next, cpu)
      ensures trace == old(trace)
                       + SwitchEvents(cfg, old(masks[next]), contexts[next], lastAsid, initKvmSeq, prev, next, cpu, d)
      ensures infraCnt == if cfg.timaL2 && SlowPath(cfg, old(masks[next]), prev, next, cpu)
                          then AddULong(old(infraCnt), L2Count(d, d.l1Entries))
                          else old(infraCnt)
    {
      SwitchMm(prev, next, cpu, d);
    }
  }
}
