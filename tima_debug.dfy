/**
 The optional TIMA debug pass that `switch_mm` runs after loading a new
 address space: it asks a foreign checker whether the four pages of the
 first-level table, and every second-level table that table points to, are
 mapped read-only, and reports each page found writable.

 What the pass reads from memory and what the foreign checker answers are
 inputs here (a `DebugView`); the model states which entries reach the
 checker, what is reported, and how the infrastructure counter moves.
 */
module TimaDebug {
  import opened ContextId
  import opened MmuTypes

  /**
   The inputs of the debug pass for the incoming mm:
   `pgd` is `next->pgd`; `l1Entries` the words stored in its first-level
   table; `physToVirt` is `phys_to_virt`; `protection(addr, sizeClass)` is
   the answer of `tima_debug_page_protection(addr, sizeClass, 1)`
   (0: not protected, 1: protected, anything else: no verdict).
   */
  datatype DebugView = DebugView(
    pgd: Word,
    l1Entries: seq<Word>,
    physToVirt: Word -> Word,
    protection: (Word, Word) -> int)

  /** The code every TIMA report carries. */
  const FailureCode: Word := 0x3f80_f221
  /** Detail of a report about a first-level table page. */
  const L1FailureDetail: Word := 1
  /** Detail of a report about a second-level table (decimal 101). */
  const L2FailureDetail: Word := 101
  /** Size classes passed to the checker. */
  const L1SizeClass: Word := 1
  const L2SizeClass: Word := 0x101
  /** The first-level table spans four 4 KB pages of 0x1000 word entries. */
  const L1Pages: nat := 4
  const L1PageSize: Word := 0x1000
  const L1EntryCount: nat := 0x1000
  /** Bounds of the section-to-page-table region the L2 scan skips. */
  const SectToPgtLow: Word := 0x07e0_0000
  const SectToPgtHigh: Word := 0x07f0_0000

  /** `i * 0x1000` for the page indices 0 to 3, written out as 32-bit words. */
  function L1PageOffset(i: nat): Word
    requires i < L1Pages
  {
    if i == 0 then 0 else if i == 1 then 0x1000 else if i == 2 then 0x2000 else 0x3000
  }

  /** The table above is the multiplication the scan performs. */
  lemma L1PageOffsetIsProduct(i: nat)
    requires i < L1Pages
    ensures L1PageOffset(i) == (i as Word) * L1PageSize
  {
  }

  /** Address of the `i`-th page of the first-level table. */
  function L1PageAddr(d: DebugView, i: nat): Word
    requires i < L1Pages
  {
    d.pgd + L1PageOffset(i)
  }

  /** The checker's verdict on page `i` of the first-level table. */
  function L1Verdict(d: DebugView, i: nat): int
    requires i < L1Pages
  {
    d.protection(L1PageAddr(d, i), L1SizeClass)
  }

  /** The reports raised by the first `n` first-level page checks. */
  function L1Events(d: DebugView, n: nat): (r: seq<Event>)
    requires n <= L1Pages
    ensures |r| <= n
  {
    if n == 0 then []
    else L1Events(d, n - 1)
         + (if L1Verdict(d, n - 1) == 0 then [DebugFailure(FailureCode, L1FailureDetail)] else [])
  }

  /** Checking one more page appends that page's report, if any. */
  lemma L1Step(d: DebugView, i: nat)
    requires i < L1Pages
    ensures L1Events(d, i + 1) == L1Events(d, i)
      + (if d.protection(L1PageAddr(d, i), L1SizeClass) == 0 then [DebugFailure(FailureCode, L1FailureDetail)] else [])
  {
  }

  /**
   The first-level check raises only its own report, and raises one
   exactly when some page is found unprotected.
   */
  lemma {:induction false} L1EventsAreReports(d: DebugView, n: nat)
    requires n <= L1Pages
    ensures forall e :: e in L1Events(d, n) ==> e == DebugFailure(FailureCode, L1FailureDetail)
    ensures L1Events(d, n) == [] <==> forall i :: 0 <= i < n ==> L1Verdict(d, i) != 0
  {
    if n > 0 {
      L1EventsAreReports(d, n - 1);
      var last := if L1Verdict(d, n - 1) == 0 then [DebugFailure(FailureCode, L1FailureDetail)] else [];
      assert L1Events(d, n) == L1Events(d, n - 1) + last;
      assert L1Events(d, n) == [] <==> L1Events(d, n - 1) == [] && L1Verdict(d, n - 1) != 0;
    }
  }

  /** The first-level pages, among the first `n`, that the checker finds unprotected. */
  function L1Unprotected(d: DebugView, n: nat): set<nat>
    requires n <= L1Pages
  {
    set i: nat | i < n && L1Verdict(d, i) == 0
  }

  /** Checking page `n` adds one to both counts if that page is unprotected, and nothing otherwise. */
  lemma L1UnprotectedStep(d: DebugView, n: nat)
    requires n < L1Pages
    ensures |L1Unprotected(d, n + 1)| == |L1Unprotected(d, n)| + (if L1Verdict(d, n) == 0 then 1 else 0)
    ensures |L1Events(d, n + 1)| == |L1Events(d, n)| + (if L1Verdict(d, n) == 0 then 1 else 0)
  {
    if L1Verdict(d, n) == 0 {
      assert L1Unprotected(d, n + 1) == L1Unprotected(d, n) + {n};
    } else {
      assert L1Unprotected(d, n + 1) == L1Unprotected(d, n);
    }
  }

  /** The first-level check raises exactly one report per unprotected page. */
  lemma {:induction false} L1ReportCount(d: DebugView, n: nat)
    requires n <= L1Pages
    ensures |L1Events(d, n)| == |L1Unprotected(d, n)|
  {
    if n > 0 {
      L1ReportCount(d, n - 1);
      L1UnprotectedStep(d, n - 1);
    }
  }

  /** A first-level entry whose two type bits say "coarse page table". */
  predicate IsPageTableEntry(pmd: Word)
  {
    pmd & 3 == 1
  }

  /** The inclusive range of raw entries the scan skips. */
  predicate InSectToPgtRegion(pmd: Word)
  {
    SectToPgtLow <= pmd <= SectToPgtHigh
  }

  /** The entries whose second-level table is handed to the checker. */
  predicate L2Checked(pmd: Word)
  {
    IsPageTableEntry(pmd) && !InSectToPgtRegion(pmd)
  }

  /** `pmd & ~0x3ff`: the physical address of the second-level table. */
  function L2TableAddr(pmd: Word): Word
  {
    pmd & !0x3ff
  }

  /** The checker's verdict on the second-level table an entry points to. */
  function L2Verdict(d: DebugView, pmd: Word): int
  {
    d.protection(d.physToVirt(L2TableAddr(pmd)), L2SizeClass)
  }

  /** Number of entries of `s` that pass the filter. */
  function CheckedCount(s: seq<Word>): (n: nat)
    ensures n <= |s|
  {
    if s == [] then 0
    else CheckedCount(s[..|s| - 1]) + (if L2Checked(s[|s| - 1]) then 1 else 0)
  }

  /** The reports raised while scanning the entries `s`, in scan order. */
  function L2Events(d: DebugView, s: seq<Word>): (r: seq<Event>)
    ensures |r| <= |s|
  {
    if s == [] then []
    else
      var pmd := s[|s| - 1];
      L2Events(d, s[..|s| - 1])
      + (if L2Checked(pmd) && L2Verdict(d, pmd) == 0
         then [DebugFailure(FailureCode, L2FailureDetail)] else [])
  }

  /**
   The second-level scan raises only its own report, and raises one exactly
   when some entry that passes the filter points to an unprotected table.
   */
  lemma {:induction false} L2EventsAreReports(d: DebugView, s: seq<Word>)
    ensures forall e :: e in L2Events(d, s) ==> e == DebugFailure(FailureCode, L2FailureDetail)
    ensures L2Events(d, s) == [] <==> forall k :: 0 <= k < |s| && L2Checked(s[k]) ==> L2Verdict(d, s[k]) != 0
  {
    if s != [] {
      var t := s[..|s| - 1];
      var pmd := s[|s| - 1];
      L2EventsAreReports(d, t);
      var last := if L2Checked(pmd) && L2Verdict(d, pmd) == 0 then [DebugFailure(FailureCode, L2FailureDetail)] else [];
      assert L2Events(d, s) == L2Events(d, t) + last;
      assert forall k :: 0 <= k < |t| ==> t[k] == s[k];
      assert L2Events(d, s) == [] <==> L2Events(d, t) == [] && last == [];
    }
  }

  /** How many times the scan of `s` adds one to `tima_debug_infra_cnt`. */
  function L2Count(d: DebugView, s: seq<Word>): (n: nat)
    ensures n <= |s|
  {
    if s == [] then 0
    else
      var pmd := s[|s| - 1];
      L2Count(d, s[..|s| - 1]) + (if L2Checked(pmd) && L2Verdict(d, pmd) == 1 then 1 else 0)
  }

  /** The positions in `s` of filtered entries on whose table the checker answers `v`. */
  function L2Answered(d: DebugView, s: seq<Word>, v: int): set<nat>
  {
    set k: nat | k < |s| && L2Checked(s[k]) && L2Verdict(d, s[k]) == v
  }

  /** Dropping the last entry drops at most its own position from `L2Answered`. */
  lemma L2AnsweredPrefix(d: DebugView, s: seq<Word>, v: int)
    requires s != []
    ensures var t := s[..|s| - 1];
            var pmd := s[|s| - 1];
            L2Answered(d, s, v) == L2Answered(d, t, v)
              + (if L2Checked(pmd) && L2Verdict(d, pmd) == v then {|s| - 1} else {})
            && |s| - 1 !in L2Answered(d, t, v)
  {
    var t := s[..|s| - 1];
    assert forall k :: 0 <= k < |t| ==> t[k] == s[k];
  }

  /**
   The second-level scan raises exactly one report per filtered entry whose
   table is unprotected, and counts exactly the filtered entries whose table
   is protected.
   */
  lemma {:induction false} L2ReportCount(d: DebugView, s: seq<Word>)
    ensures |L2Events(d, s)| == |L2Answered(d, s, 0)|
    ensures L2Count(d, s) == |L2Answered(d, s, 1)|
  {
    if s != [] {
      L2ReportCount(d, s[..|s| - 1]);
      L2AnsweredPrefix(d, s, 0);
      L2AnsweredPrefix(d, s, 1);
    }
  }

  /** Scanning one more entry appends that entry's outcome to the scan so far. */
  lemma L2Step(d: DebugView, s: seq<Word>, i: nat)
    requires i < |s|
    ensures L2Events(d, s[..i + 1]) == L2Events(d, s[..i])
      + (if L2Checked(s[i]) && L2Verdict(d, s[i]) == 0 then [DebugFailure(FailureCode, L2FailureDetail)] else [])
    ensures L2Count(d, s[..i + 1]) == L2Count(d, s[..i]) + (if L2Checked(s[i]) && L2Verdict(d, s[i]) == 1 then 1 else 0)
  {
    assert s[..i + 1][..i] == s[..i];
  }

  /**
   Every filtered entry yields at most one outcome: a report or a count,
   never both, and entries the filter rejects yield neither.
   */
  lemma {:induction false} L2OutcomesWithinChecked(d: DebugView, s: seq<Word>)
    ensures L2Count(d, s) + |L2Events(d, s)| <= CheckedCount(s)
  {
    if s != [] {
      L2OutcomesWithinChecked(d, s[..|s| - 1]);
    }
  }

  /**
   The checker is consulted only for entries that pass the filter: two
   checkers that agree on those entries give the same reports and count.
   */
  lemma {:induction false} L2ConsultsOnlyChecked(d: DebugView, d': DebugView, s: seq<Word>)
    requires forall k :: 0 <= k < |s| && L2Checked(s[k]) ==> L2Verdict(d, s[k]) == L2Verdict(d', s[k])
    ensures L2Events(d, s) == L2Events(d', s)
    ensures L2Count(d, s) == L2Count(d', s)
  {
    if s != [] {
      var t := s[..|s| - 1];
      assert forall k :: 0 <= k < |t| ==> t[k] == s[k];
      L2ConsultsOnlyChecked(d, d', t);
    }
  }

  /** Filter edge cases: the region is inclusive, compares the raw entry, and needs type bits 01. */
  lemma L2FilterExamples()
    ensures !L2Checked(0x07e0_0001) && !L2Checked(0x07ef_fc01)
    ensures L2Checked(0x07f0_0001) && L2Checked(0x07df_fc01)
    ensures !L2Checked(0x1000_0002) && !L2Checked(0x1000_0003) && L2Checked(0x1000_0001)
    ensures L2TableAddr(0x1234_57f1) == 0x1234_5400
  {
  }
}
