/** The assembly text each emitter of the generator writes, one string per
    output line, as functions of the emitter's inputs; and what that text
    promises: section order, labels, register order, stack alignment and
    the shape of the synthesised entry point. */
module Listing {
  import opened AsmText
  import opened Symbols

  // ---------------------------------------------------------------------
  // Read-only data: the string table (generate_stringtable)
  // ---------------------------------------------------------------------

  /** The message the entry point prints when the argument count is wrong. */
  const ERROR_MESSAGE: string := "Wrong number of arguments"

  /** The section header and the three runtime strings, in emission order. */
  const RODATA_HEADER: seq<string> := [
    ".section .rodata",
    ".intout:", "\t.asciz \"%ld \"",
    ".strout:", "\t.asciz \"%s \"",
    ".errout:", "\t.asciz \"" + ERROR_MESSAGE + "\""
  ]

  /** The label of the string-table slot `i`. */
  function StrLabel(i: nat): string {
    "STR" + Decimal(i) + ":"
  }

  /** Two slots never share a label. */
  lemma StrLabelInjective(i: nat, j: nat)
    requires StrLabel(i) == StrLabel(j)
    ensures i == j
  {
    var li, lj := StrLabel(i), StrLabel(j);
    assert Decimal(i) == li[3..|li| - 1];
    assert Decimal(j) == lj[3..|lj| - 1];
    DecimalInjective(i, j);
  }

  /** The two lines written for slot `i` holding the literal `lit`. */
  function StringEntry(i: nat, lit: string): seq<string> {
    [StrLabel(i), "\t.asciz " + lit]
  }

  /** The entries of all slots, as the emitter's loop writes them. */
  function StringEntries(lits: seq<string>): seq<string>
    decreases |lits|
  {
    if lits == [] then []
    else StringEntries(lits[..|lits| - 1]) + StringEntry(|lits| - 1, lits[|lits| - 1])
  }

  /** The whole read-only data section. */
  function StringTableLines(lits: seq<string>): seq<string> {
    RODATA_HEADER + StringEntries(lits)
  }

  /** Slot `i` occupies lines 2i and 2i+1 of the entries, labelled STR<i>
      and carrying the i-th literal, and nothing else is written. */
  lemma {:induction false} StringEntriesLayout(lits: seq<string>)
    ensures |StringEntries(lits)| == 2 * |lits|
    ensures forall i :: 0 <= i < |lits| ==>
              StringEntries(lits)[2 * i] == StrLabel(i) &&
              StringEntries(lits)[2 * i + 1] == "\t.asciz " + lits[i]
    decreases |lits|
  {
    if lits != [] {
      var init := lits[..|lits| - 1];
      StringEntriesLayout(init);
      assert forall i :: 0 <= i < |init| ==> init[i] == lits[i];
    }
  }

  /** The read-only section starts with its header and the three runtime
      strings (the error message last), then has exactly one entry per
      slot, in slot order. */
  lemma StringTableLayout(lits: seq<string>)
    ensures var out := StringTableLines(lits);
      && |out| == 7 + 2 * |lits|
      && out[..7] == RODATA_HEADER
      && (forall i :: 0 <= i < |lits| ==>
            out[7 + 2 * i] == StrLabel(i) && out[8 + 2 * i] == "\t.asciz " + lits[i])
  {
    StringEntriesLayout(lits);
    var out, entries := StringTableLines(lits), StringEntries(lits);
    assert out[7..] == entries;
  }

  /** Literals are never merged: every slot has its own label, even when
      two slots hold the same literal. */
  lemma StringLabelsDistinct(lits: seq<string>, i: nat, j: nat)
    requires i < j < |lits|
    ensures |StringTableLines(lits)| == 7 + 2 * |lits|
    ensures StringTableLines(lits)[7 + 2 * i] != StringTableLines(lits)[7 + 2 * j]
  {
    StringTableLayout(lits);
    if StrLabel(i) == StrLabel(j) {
      StrLabelInjective(i, j);
    }
  }

  // ---------------------------------------------------------------------
  // Function prologue (generate_function)
  // ---------------------------------------------------------------------

  /** The stack padding word that keeps rsp 16-byte aligned. */
  const PADDING: string := "\tsubq $8, %rsp"

  /** Lines `prefix + record[k]` for k = 0 .. m-1, in that order. */
  function RegisterLines(prefix: string, m: nat): seq<string>
    requires m <= 6
  {
    seq(m, k requires 0 <= k < m => prefix + RECORD[k])
  }

  /** One more register line, as the emitters' loops write them. */
  lemma RegisterLinesStep(prefix: string, k: nat)
    requires k < 6
    ensures RegisterLines(prefix, k + 1) == RegisterLines(prefix, k) + [prefix + RECORD[k]]
  {
  }

  /** Number of parameters a function captures from registers. */
  function CapturedParams(nparms: SizeT): (m: nat)
    ensures m <= 6 && m <= nparms
    ensures m == 6 || m == nparms
  {
    Min(6, nparms)
  }

  /** Frame setup, register capture and padding, for `nparms` parameters. */
  function FrameLines(nparms: SizeT): seq<string> {
    var m := CapturedParams(nparms);
    ["\tpushq %rbp", "\tmovq %rsp, %rbp"]
      + RegisterLines("\tpushq ", m)
      + (if m % 2 != 0 then [PADDING] else [])
  }

  /** Everything generate_function writes: the exported label, the label,
      the frame. The body generator writes nothing. */
  function FunctionLines(f: Symbol): seq<string> {
    [".globl " + f.name, f.name + ":"] + FrameLines(f.nparms)
  }

  /** FunctionLines as the four fixed lines, the pushes and the padding. */
  lemma FunctionLinesParts(f: Symbol)
    ensures var m := Min(6, f.nparms);
      FunctionLines(f) == [".globl " + f.name, f.name + ":", "\tpushq %rbp", "\tmovq %rsp, %rbp"]
        + RegisterLines("\tpushq ", m) + (if m % 2 != 0 then [PADDING] else [])
  {
  }

  /** The prologue's layout: export, label, frame setup, then the first
      min(6, nparms) parameter registers pushed in psABI order. */
  lemma FunctionPrologue(f: Symbol)
    ensures var out, m := FunctionLines(f), Min(6, f.nparms);
      && |out| == 4 + m + m % 2
      && out[0] == ".globl " + f.name
      && out[1] == f.name + ":"
      && out[2] == "\tpushq %rbp"
      && out[3] == "\tmovq %rsp, %rbp"
      && (forall k :: 0 <= k < m ==> out[4 + k] == "\tpushq " + RECORD[k])
  {
  }

  /** The padding line appears in the frame iff an odd number of
      parameter registers was pushed. */
  lemma PaddingIffOdd(nparms: SizeT)
    ensures PADDING in FrameLines(nparms) <==> Min(6, nparms) % 2 == 1
  {
    var m := Min(6, nparms);
    var pushes := RegisterLines("\tpushq ", m);
    forall k | 0 <= k < m
      ensures pushes[k] != PADDING
    {
      assert pushes[k][1] == 'p' && PADDING[1] == 's';
    }
    assert "\tpushq %rbp"[1] != PADDING[1];
    assert "\tmovq %rsp, %rbp"[1] != PADDING[1];
  }

  /** Does this line move rsp down by one 8-byte word? */
  predicate IsStackWord(line: string) {
    (|line| >= 7 && line[..7] == "\tpushq ") || line == PADDING
  }

  /** The 8-byte words a straight-line sequence of lines pushes. */
  function StackWords(lines: seq<string>): nat
    decreases |lines|
  {
    if lines == [] then 0
    else (if IsStackWord(lines[0]) then 1 else 0) + StackWords(lines[1..])
  }

  lemma {:induction false} StackWordsAppend(a: seq<string>, b: seq<string>)
    ensures StackWords(a + b) == StackWords(a) + StackWords(b)
    decreases |a|
  {
    if a == [] {
      assert a + b == b;
    } else {
      assert (a + b)[1..] == a[1..] + b;
      StackWordsAppend(a[1..], b);
    }
  }

  lemma {:induction false} StackWordsOfPushes(m: nat)
    requires m <= 6
    ensures StackWords(RegisterLines("\tpushq ", m)) == m
  {
    if m > 0 {
      StackWordsOfPushes(m - 1);
      RegisterLinesStep("\tpushq ", m - 1);
      var line := "\tpushq " + RECORD[m - 1];
      assert line[..7] == "\tpushq ";
      StackWordsAppend(RegisterLines("\tpushq ", m - 1), [line]);
    }
  }

  /** Section 3.2.2 of the System V AMD64 psABI: on function entry rsp is
      8 modulo 16 (the return address was just pushed). The frame the
      prologue builds (saved rbp, captured parameters, padding) brings it
      back to a multiple of 16, whatever the parameter count. */
  lemma FrameKeepsAlignment(nparms: SizeT, rspAtEntry: int)
    requires rspAtEntry % 16 == 8
    ensures StackWords(FrameLines(nparms)) == 1 + Min(6, nparms) + Min(6, nparms) % 2
    ensures (rspAtEntry - 8 * StackWords(FrameLines(nparms))) % 16 == 0
  {
    var m := Min(6, nparms);
    var setup := ["\tpushq %rbp", "\tmovq %rsp, %rbp"];
    var pad: seq<string> := if m % 2 != 0 then [PADDING] else [];
    assert FrameLines(nparms) == setup + RegisterLines("\tpushq ", m) + pad;
    StackWordsAppend(setup + RegisterLines("\tpushq ", m), pad);
    StackWordsAppend(setup, RegisterLines("\tpushq ", m));
    StackWordsOfPushes(m);
    assert "\tpushq %rbp"[..7] == "\tpushq ";
    assert "\tmovq %rsp, %rbp"[..7][1] != "\tpushq "[1];
    assert |"\tmovq %rsp, %rbp"| != |PADDING|;
    assert setup[1..][1..] == [];
    assert StackWords(setup) == 1;
    assert StackWords(pad) == m % 2;
    var w := 1 + m + m % 2;
    assert (m + m % 2) % 2 == 0;
    assert rspAtEntry - 8 * w == (rspAtEntry - 8) - 16 * ((m + m % 2) / 2);
  }

  // ---------------------------------------------------------------------
  // Globals and code section (generate_global_variables)
  // ---------------------------------------------------------------------

  /** The label reserved for a global variable. */
  function GlobalLabel(s: Symbol): string {
    "." + s.name + ":"
  }

  /** What the first pass over the symbols writes: one label per global. */
  function GlobalLabels(syms: seq<Symbol>): seq<string>
    decreases |syms|
  {
    if syms == [] then []
    else
      var last := syms[|syms| - 1];
      GlobalLabels(syms[..|syms| - 1]) + (if last.kind == GlobalVar then [GlobalLabel(last)] else [])
  }

  /** What the second pass writes: one function listing per function. */
  function FunctionSections(syms: seq<Symbol>): seq<string>
    decreases |syms|
  {
    if syms == [] then []
    else
      var last := syms[|syms| - 1];
      FunctionSections(syms[..|syms| - 1]) + (if last.kind == Function then FunctionLines(last) else [])
  }

  /** One more symbol visited by either pass of the global emitter. */
  lemma PassStep(syms: seq<Symbol>, i: nat)
    requires i < |syms|
    ensures GlobalLabels(syms[..i + 1]) == GlobalLabels(syms[..i])
      + (if syms[i].kind == GlobalVar then [GlobalLabel(syms[i])] else [])
    ensures FunctionSections(syms[..i + 1]) == FunctionSections(syms[..i])
      + (if syms[i].kind == Function then FunctionLines(syms[i]) else [])
  {
    assert syms[..i + 1][..i] == syms[..i];
  }

  /** Everything generate_global_variables writes. */
  function GlobalLines(syms: seq<Symbol>): seq<string> {
    [".section .bss", ".align 8"] + GlobalLabels(syms) + [".section .text"] + FunctionSections(syms)
  }

  /** The labels are exactly those of the global variables, one each, in
      symbol-list order; no other kind of symbol gets one. */
  lemma {:induction false} GlobalLabelsExact(syms: seq<Symbol>)
    ensures var idx := KindIndices(syms, GlobalVar);
      && |GlobalLabels(syms)| == |idx|
      && forall j :: 0 <= j < |idx| ==> GlobalLabels(syms)[j] == GlobalLabel(syms[idx[j]])
    decreases |syms|
  {
    if syms != [] {
      var init := syms[..|syms| - 1];
      GlobalLabelsExact(init);
      var idx := KindIndices(init, GlobalVar);
      assert forall j :: 0 <= j < |idx| ==> syms[idx[j]] == init[idx[j]];
    }
  }

  /** Concatenation of a sequence of listings. */
  function Flatten(chunks: seq<seq<string>>): seq<string>
    decreases |chunks|
  {
    if chunks == [] then [] else Flatten(chunks[..|chunks| - 1]) + chunks[|chunks| - 1]
  }

  /** The listings of the symbols at the given positions. */
  function ListingsAt(syms: seq<Symbol>, idx: seq<nat>): (r: seq<seq<string>>)
    requires forall j :: 0 <= j < |idx| ==> idx[j] < |syms|
    ensures |r| == |idx|
  {
    seq(|idx|, j requires 0 <= j < |idx| => FunctionLines(syms[idx[j]]))
  }

  /** The code section holds the listing of every function symbol exactly
      once, in symbol-list order, and nothing generated from any other
      kind of symbol. */
  lemma {:induction false} FunctionSectionsExact(syms: seq<Symbol>)
    ensures FunctionSections(syms) == Flatten(ListingsAt(syms, KindIndices(syms, Function)))
    decreases |syms|
  {
    if syms != [] {
      var init := syms[..|syms| - 1];
      var last := syms[|syms| - 1];
      FunctionSectionsExact(init);
      var pre := ListingsAt(init, KindIndices(init, Function));
      var all := ListingsAt(syms, KindIndices(syms, Function));
      if last.kind == Function {
        assert all[..|all| - 1] == pre;
        assert all[|all| - 1] == FunctionLines(last);
      } else {
        assert all == pre;
      }
    }
  }

  // ---------------------------------------------------------------------
  // The whole program (generate_program)
  // ---------------------------------------------------------------------

  /** The read-only section comes first and in full, then the bss section
      with its labels, then the code section. */
  lemma SectionOrder(lits: seq<string>, syms: seq<Symbol>)
    ensures var out, g := StringTableLines(lits) + GlobalLines(syms), |KindIndices(syms, GlobalVar)|;
      && |out| >= 10 + 2 * |lits| + g
      && out[0] == ".section .rodata"
      && out[7 + 2 * |lits|] == ".section .bss"
      && out[8 + 2 * |lits|] == ".align 8"
      && out[9 + 2 * |lits| + g] == ".section .text"
  {
    StringTableLayout(lits);
    GlobalLabelsExact(syms);
  }

  // ---------------------------------------------------------------------
  // Entry point (generate_main)
  // ---------------------------------------------------------------------

  const STRTOL_CALL: string := "\tcall\tstrtol"

  /** The body of the parse loop, from the PARSE_ARGV label to the `loop`
      instruction. */
  const PARSE_LOOP: seq<string> := [
    "PARSE_ARGV:",
    "\tpushq %rcx", "\tpushq %rsi",
    "\tmovq\t(%rsi),%rdi", "\tmovq\t$0,%rsi", "\tmovq\t$10,%rdx",
    STRTOL_CALL,
    "\tpopq %rsi", "\tpopq %rcx",
    "\tpushq %rax",
    "\tsubq $8, %rsi",
    "\tloop PARSE_ARGV" ]

  /** Lines 0..4: the entry point's own label and frame. */
  const MAIN_PROLOGUE: seq<string> := [
    ".globl main", ".section .text", "main:",
    "\tpushq   %rbp", "\tmovq    %rsp, %rbp" ]

  /** Lines 5..9: the argument-count check. */
  function ArgCheckLines(nparms: SizeT): seq<string> {
    [ "\tsubq\t$1,%rdi",
      "\tcmpq\t$" + Decimal(nparms) + ",%rdi",
      "\tjne\tABORT",
      "\tcmpq\t$0,%rdi",
      "\tjz\tSKIP_ARGS" ]
  }

  /** Lines 10..23: the countdown over argv and the parse loop. */
  function ArgvLoopLines(nparms: SizeT): seq<string> {
    [ "\tmovq\t%rdi,%rcx",
      "\taddq $" + Decimal((8 * nparms) % SIZE_MODULUS) + ", %rsi" ]
    + PARSE_LOOP
  }

  /** Lines 0..23. */
  function MainHead(nparms: SizeT): seq<string> {
    MAIN_PROLOGUE + ArgCheckLines(nparms) + ArgvLoopLines(nparms)
  }

  /** Lines after the register pops: dispatch, abort path and exit. */
  function MainTail(name: string): seq<string> {
    [ "SKIP_ARGS:",
      "\tcall\t_" + name,
      "\tjmp\tEND",
      "ABORT:",
      "\tmovq\t$.errout, %rdi",
      "\tcall puts",
      "END:",
      "\tmovq    %rax, %rdi",
      "\tcall    exit" ]
  }

  /** Everything generate_main writes for the entry function `first`. */
  function MainLines(first: Symbol): seq<string> {
    MainHead(first.nparms) + RegisterLines("\tpopq\t", Min(6, first.nparms)) + MainTail(first.name)
  }

  /** The argument check: argc - 1 is compared with the entry function's
      parameter count, a mismatch branches to ABORT and a zero count skips
      the parse loop. */
  lemma MainArgCheckLayout(first: Symbol)
    ensures var out := MainLines(first);
      && |out| == 33 + Min(6, first.nparms)
      && out[5] == "\tsubq\t$1,%rdi"
      && out[6] == "\tcmpq\t$" + Decimal(first.nparms) + ",%rdi"
      && out[7] == "\tjne\tABORT"
      && out[8] == "\tcmpq\t$0,%rdi"
      && out[9] == "\tjz\tSKIP_ARGS"
  {
    MainSplit(first);
  }

  /** The parse loop: argv + 8 * nparms is loaded first, and each pass
      saves rcx and rsi around a base-10 strtol call on (%rsi), pushes the
      result, steps rsi down by 8 and counts rcx down with `loop`. */
  lemma MainParseLoopLayout(first: Symbol)
    ensures var out := MainLines(first);
      && |out| == 33 + Min(6, first.nparms)
      && out[10] == "\tmovq\t%rdi,%rcx"
      && out[11] == "\taddq $" + Decimal((8 * first.nparms) % SIZE_MODULUS) + ", %rsi"
      && out[12..24] == PARSE_LOOP
  {
    MainSplit(first);
  }

  /** After the loop the parsed values are popped into the parameter
      registers in psABI order; then the underscore-prefixed name is
      called, and the abort path prints .errout with puts; both paths end
      by exiting with whatever rax holds. */
  lemma MainDispatchLayout(first: Symbol)
    ensures var out, m := MainLines(first), Min(6, first.nparms);
      && |out| == 33 + m
      && (forall k :: 0 <= k < m ==> out[24 + k] == "\tpopq\t" + RECORD[k])
      && out[24 + m] == "SKIP_ARGS:"
      && out[25 + m] == "\tcall\t_" + first.name
      && out[26 + m] == "\tjmp\tEND"
      && out[27 + m] == "ABORT:"
      && out[28 + m] == "\tmovq\t$.errout, %rdi"
      && out[29 + m] == "\tcall puts"
      && out[30 + m] == "END:"
      && out[31 + m] == "\tmovq    %rax, %rdi"
      && out[32 + m] == "\tcall    exit"
  {
    MainSplit(first);
  }

  /** The three parts of the entry point's listing. */
  lemma MainSplit(first: Symbol)
    ensures var out, m := MainLines(first), Min(6, first.nparms);
      && |RegisterLines("\tpopq\t", m)| == m
      && |out| == 33 + m
      && out[..24] == MainHead(first.nparms)
      && out[24..24 + m] == RegisterLines("\tpopq\t", m)
      && out[24 + m..] == MainTail(first.name)
  {
  }

  /** The parse loop calls strtol on exactly one line, right after loading
      a null end pointer into rsi and base 10 into rdx. */
  lemma ParseLoopCallsStrtolOnce()
    ensures forall i :: 0 <= i < |PARSE_LOOP| ==> (PARSE_LOOP[i] == STRTOL_CALL <==> i == 6)
  {
    forall i | 0 <= i < |PARSE_LOOP| && i != 6
      ensures PARSE_LOOP[i] != STRTOL_CALL
    {
      assert PARSE_LOOP[i][2] != STRTOL_CALL[2];
    }
  }

  /** The call site names `_<name>`, and nothing generate_function writes
      for the same function defines that label: the call target differs
      from the label `<name>:`. */
  lemma CallSiteDiffersFromLabel(first: Symbol)
    ensures var call := MainLines(first)[25 + Min(6, first.nparms)];
      && call == "\tcall\t_" + first.name
      && "_" + first.name + ":" !in FunctionLines(first)
  {
    MainDispatchLayout(first);
    FunctionLinesParts(first);
    var target := "_" + first.name + ":";
    var m := Min(6, first.nparms);
    var lines := FunctionLines(first);
    forall i | 0 <= i < |lines|
      ensures lines[i] != target
    {
      if i == 0 {
        assert |lines[i]| != |target|;
      } else if i == 1 {
        assert |lines[i]| != |target|;
      } else {
        assert lines[i][0] == '\t';
      }
    }
  }
}
