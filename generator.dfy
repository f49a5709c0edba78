/** The emitters themselves: each appends its lines to the output stream,
    in the order and with the loops of the C functions, and is proved to
    write exactly the listing that Listing describes. */
module Generator {
  import opened AsmText
  import opened Symbols
  import opened Listing

  /** The standard output stream, seen as the lines written so far. Each
      puts or printf call appends its text, split at its newlines. */
  class Emitter {
    var out: seq<string>

    constructor ()
      ensures out == []
    {
      out := [];
    }

    /** generate_program: the string table, then the globals and the code
        section. It does not emit the entry point. */
    method GenerateProgram(stringList: seq<string>, symbols: seq<Symbol>)
      modifies this
      ensures out == old(out) + StringTableLines(stringList) + GlobalLines(symbols)
    {
      GenerateStringtable(stringList);
      GenerateGlobalVariables(symbols);
    }

    /** generate_stringtable: header, the three runtime strings, then one
        entry per string-table slot in index order. */
    method GenerateStringtable(stringList: seq<string>)
      modifies this
      ensures out == old(out) + StringTableLines(stringList)
    {
      out := out + [".section .rodata"];
      out := out + [".intout:", "\t.asciz \"%ld \""];
      out := out + [".strout:", "\t.asciz \"%s \""];
      out := out + [".errout:", "\t.asciz \"" + ERROR_MESSAGE + "\""];
      for i := 0 to |stringList|
        invariant out == old(out) + RODATA_HEADER + StringEntries(stringList[..i])
      {
        out := out + ["STR" + Decimal(i) + ":", "\t.asciz " + stringList[i]];
        assert stringList[..i + 1][..i] == stringList[..i];
      }
      assert stringList[..|stringList|] == stringList;
    }

    /** generate_global_variables: the bss section with one label per
        global variable, then the text section with the code of every
        function, each pass in symbol-list order. */
    method GenerateGlobalVariables(symbols: seq<Symbol>)
      modifies this
      ensures out == old(out) + GlobalLines(symbols)
    {
      out := out + [".section .bss"];
      out := out + [".align 8"];
      GenerateGlobalLabels(symbols);
      out := out + [".section .text"];
      GenerateFunctions(symbols);
    }

    /** The first pass: a label for each global variable, every other
        kind of symbol skipped. */
    method GenerateGlobalLabels(symbols: seq<Symbol>)
      modifies this
      ensures out == old(out) + GlobalLabels(symbols)
    {
      for i := 0 to |symbols|
        invariant out == old(out) + GlobalLabels(symbols[..i])
      {
        var node := symbols[i];
        PassStep(symbols, i);
        if node.kind != GlobalVar {
          continue;
        }
        out := out + ["." + node.name + ":"];
      }
      assert symbols[..|symbols|] == symbols;
    }

    /** The second pass: generate_function for each function symbol,
        every other kind of symbol skipped. */
    method GenerateFunctions(symbols: seq<Symbol>)
      modifies this
      ensures out == old(out) + FunctionSections(symbols)
    {
      for i := 0 to |symbols|
        invariant out == old(out) + FunctionSections(symbols[..i])
      {
        var node := symbols[i];
        ghost var done := FunctionSections(symbols[..i]);
        PassStep(symbols, i);
        if node.kind != Function {
          assert done + [] == done;
          continue;
        }
        GenerateFunction(node);
        assert out == old(out) + (done + FunctionLines(node));
      }
      assert symbols[..|symbols|] == symbols;
    }

    /** generate_function: export and label, frame setup, the first
        min(6, nparms) parameter registers pushed in order, and a padding
        word when that count is odd. The body generator (generate_node)
        writes nothing. */
    method GenerateFunction(f: Symbol)
      modifies this
      ensures out == old(out) + FunctionLines(f)
    {
      out := out + [".globl " + f.name];
      out := out + [f.name + ":"];
      out := out + ["\tpushq %rbp"];
      out := out + ["\tmovq %rsp, %rbp"];

      ghost var setup := out;
      assert setup == old(out) + [".globl " + f.name, f.name + ":", "\tpushq %rbp", "\tmovq %rsp, %rbp"];

      var paramc := Min(6, f.nparms);
      for param := 0 to paramc
        invariant out == setup + RegisterLines("\tpushq ", param)
      {
        out := out + ["\tpushq " + RECORD[param]];
        RegisterLinesStep("\tpushq ", param);
      }

      ghost var pushed := out;
      if paramc % 2 != 0 {
        out := out + [PADDING];
      }
      assert out == pushed + (if paramc % 2 != 0 then [PADDING] else []);
      FunctionLinesParts(f);
    }

    /** generate_main: the process entry point for the function `first`. */
    method GenerateMain(first: Symbol)
      modifies this
      ensures out == old(out) + MainLines(first)
    {
      ghost var start := out;
      GenerateMainPrologue();
      GenerateArgCheck(first.nparms);
      GenerateArgvLoop(first.nparms);
      ghost var head := out;
      assert head == start + MainHead(first.nparms);

      for arg := 0 to Min(6, first.nparms)
        invariant out == head + RegisterLines("\tpopq\t", arg)
      {
        out := out + ["\tpopq\t" + RECORD[arg]];
        RegisterLinesStep("\tpopq\t", arg);
      }

      GenerateDispatch(first.name);
    }

    /** The export, label and frame setup of generate_main. */
    method GenerateMainPrologue()
      modifies this
      ensures out == old(out) + MAIN_PROLOGUE
    {
      out := out + [".globl main"];
      out := out + [".section .text"];
      out := out + ["main:"];
      out := out + ["\tpushq   %rbp"];
      out := out + ["\tmovq    %rsp, %rbp"];
    }

    /** The argument-count check of generate_main. */
    method GenerateArgCheck(nparms: SizeT)
      modifies this
      ensures out == old(out) + ArgCheckLines(nparms)
    {
      out := out + ["\tsubq\t$1,%rdi"];
      out := out + ["\tcmpq\t$" + Decimal(nparms) + ",%rdi"];
      out := out + ["\tjne\tABORT"];
      out := out + ["\tcmpq\t$0,%rdi"];
      out := out + ["\tjz\tSKIP_ARGS"];
    }

    /** The argv countdown setup and parse loop of generate_main. */
    method GenerateArgvLoop(nparms: SizeT)
      modifies this
      ensures out == old(out) + ArgvLoopLines(nparms)
    {
      out := out + ["\tmovq\t%rdi,%rcx"];
      out := out + ["\taddq $" + Decimal((8 * nparms) % SIZE_MODULUS) + ", %rsi"];
      GenerateParseLoop();
    }

    /** The body of the argv countdown: save rcx and rsi, parse the current
        argument with strtol, restore them, push the value and step back. */
    method GenerateParseLoop()
      modifies this
      ensures out == old(out) + PARSE_LOOP
    {
      out := out + ["PARSE_ARGV:"];
      out := out + ["\tpushq %rcx"];
      out := out + ["\tpushq %rsi"];
      out := out + ["\tmovq\t(%rsi),%rdi"];
      out := out + ["\tmovq\t$0,%rsi"];
      out := out + ["\tmovq\t$10,%rdx"];
      out := out + [STRTOL_CALL];
      out := out + ["\tpopq %rsi"];
      out := out + ["\tpopq %rcx"];
      out := out + ["\tpushq %rax"];
      out := out + ["\tsubq $8, %rsi"];
      out := out + ["\tloop PARSE_ARGV"];
    }

    /** The call, abort path and exit of generate_main. */
    method GenerateDispatch(name: string)
      modifies this
      ensures out == old(out) + MainTail(name)
    {
      out := out + ["SKIP_ARGS:"];
      out := out + ["\tcall\t_" + name];
      out := out + ["\tjmp\tEND"];
      out := out + ["ABORT:"];
      out := out + ["\tmovq\t$.errout, %rdi"];
      out := out + ["\tcall puts"];
      out := out + ["END:"];
      out := out + ["\tmovq    %rax, %rdi"];
      out := out + ["\tcall    exit"];
    }
  }
}
