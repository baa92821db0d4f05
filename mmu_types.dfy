/**
 The entities `switch_mm` works on: mm identities, CPU numbers, the
 per-mm context record, the build configuration, and the record of the
 external actions a switch performs, in the order it performs them.
 */
module MmuTypes {
  import opened ContextId

  /** The identity (address) of an `mm_struct`; `prev == next` compares these. */
  type Mm = nat

  /** A CPU number, as returned by `smp_processor_id()`. */
  type Cpu = nat

  /** `mm->context`: the packed context id and the last `kvm_seq` it saw. */
  datatype MmContext = MmContext(id: Word, kvmSeq: Word)

  /**
   The build options and cache type the header branches on:
   CONFIG_MMU, CONFIG_SMP, CONFIG_CPU_HAS_ASID, `cache_is_vivt()`, and the
   TIMA debug options CONFIG_TIMA_RKP_L1_TABLES and CONFIG_TIMA_RKP_L2_TABLES
   (each taken together with CONFIG_TIMA_RKP_DEBUG).
   */
  datatype Config = Config(
    mmu: bool,
    smp: bool,
    hasAsid: bool,
    vivt: bool,
    timaL1: bool,
    timaL2: bool)

  /**
   What a switch does beyond its own bookkeeping: the external calls it
   makes, and its store to the per-CPU `current_mm` slot, which those calls
   can observe.
   */
  datatype Event =
    | FlushIcacheAll                        // __flush_icache_all()
    | SetCurrentMm(cpu: Cpu, mm: Mm)        // per_cpu(current_mm, cpu) = mm
    | NewContext(mm: Mm)                    // __new_context(mm)
    | CheckKvmSeq(mm: Mm)                   // __check_kvm_seq(mm)
    | CpuSwitchMm(mm: Mm)                   // cpu_switch_mm(mm->pgd, mm)
    | DebugFailure(code: Word, detail: Word) // tima_debug_signal_failure(code, detail)

  /** The position of each kind of action within one call of `switch_mm`. */
  function Rank(e: Event): nat
  {
    match e
    case FlushIcacheAll => 0
    case SetCurrentMm(_, _) => 1
    case NewContext(_) => 2
    case CheckKvmSeq(_) => 3
    case CpuSwitchMm(_) => 4
    case DebugFailure(_, _) => 5
  }

  /** Each action of `r` comes no earlier in `switch_mm` than the one before it. */
  predicate InSourceOrder(r: seq<Event>)
  {
    forall i :: 0 < i < |r| ==> Rank(r[i - 1]) <= Rank(r[i])
  }

  /** Appending is associative; stated once so that callers need not re-derive it element by element. */
  lemma AppendAssoc(a: seq<Event>, b: seq<Event>, c: seq<Event>)
    ensures (a + b) + c == a + (b + c)
  {
  }

  /** Appending nothing changes nothing. */
  lemma AppendEmpty(a: seq<Event>)
    ensures a + [] == a
  {
  }

  /** Two ordered runs, the first all at or below rank `k` and the second at or above, join in order. */
  lemma OrderedConcat(a: seq<Event>, b: seq<Event>, k: nat)
    requires InSourceOrder(a) && InSourceOrder(b)
    requires forall e :: e in a ==> Rank(e) <= k
    requires forall e :: e in b ==> k <= Rank(e)
    ensures InSourceOrder(a + b)
  {
    forall i | 0 < i < |a + b|
      ensures Rank((a + b)[i - 1]) <= Rank((a + b)[i])
    {
      if i == |a| {
        assert (a + b)[i - 1] == a[i - 1] && (a + b)[i] == b[0];
      } else if i > |a| {
        assert (a + b)[i - 1] == b[i - 1 - |a|];
      }
    }
  }
}
