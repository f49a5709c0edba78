# VSL code generator: emitted assembly, modelled in Dafny

This project models the assembly emitter of a compiler for VSL, a small
teaching language (`src/generator.c`). The emitter writes x86-64 GNU
assembler text to standard output. First it writes a read-only data section:
the three runtime strings and one `STR<i>` entry per string literal. Next
come a `.bss` section with one label per global variable and a `.text`
section with the prologue of every function. `generate_main` writes a
separate routine: the `main` entry point. It checks `argc`, parses every
command-line argument with `strtol`, pops the parsed values into the
System V AMD64 parameter registers and calls the entry function.

The model has five modules:

- `AsmText` holds the `MIN` macro, the `record` register table, the width of
  `size_t` and decimal rendering (`%d` / `%zu`).
- `Symbols` holds symbol-table entries and the positions of each kind in the
  symbol list.
- `Listing` holds one specification function per emitter. Each returns the
  exact lines that emitter writes. The lemmas in this module state the
  properties of those listings.
- `Generator` holds the class `Emitter`. Its field `out: seq<string>` is the
  output stream. Each emitter is a method that appends lines with the same
  calls and loops as the C function, and each is proved to append exactly
  its `Listing` function.
- `EntryShim` runs the routine that `generate_main` emits. Registers are
  integers, the stack is a sequence, and `strtol` and `puts` are parameters.
  It proves that after the countdown and the pops, `record[k]` holds the
  parse of `argv[k+1]`.

Each `puts` or `printf` call appends its text to `out`, split at its
newlines. `%%` is written as `%`, and a number is written by `Decimal`.
`size_t` is the subtype `SizeT` (below 2^64), so `8 * nparms` is reduced
modulo 2^64 the way the C multiplication wraps.

The model keeps these behaviours of the code as written:

- `generate_program` writes the string table and the globals/functions, but
  it never calls `generate_main`.
- A function body writes nothing, and no epilogue is written.
- The entry routine calls `_<name>` while the function's label is `<name>`.
- The abort path exits with whatever `puts` returned in `%rax`.
- Arguments beyond the sixth are pushed by the parse loop but never popped.

The TODO list in `generate_program` (src/generator.c:31-37) says it should
also generate code for all functions and generate `main`. The code as
written does neither, and the model follows the code.

## Model

| member | source | states |
|---|---|---|
| AsmText.Min | src/generator.c:17 | the result is at most both arguments and equals one of them |
| AsmText.RecordDistinct | src/generator.c:19-20 | the six parameter registers of the `record` table are pairwise different names |
| AsmText.Decimal | src/generator.c:50 | the rendering is a non-empty string of decimal digits whose value (`DigitsValue`, most significant first) is exactly n, with no leading zero, and it has two or more digits iff n ≥ 10 |
| AsmText.DecimalInjective | src/generator.c:50 | different numbers render to different digit strings |
| Symbols.KindIndices | src/generator.c:63-67 | every listed position is in range and holds a symbol of the filtered kind |
| Symbols.KindIndicesCharacterised | src/generator.c:63-67 | every position holding a symbol of the kind is listed, and the positions increase strictly, so the filter keeps exactly those symbols in list order |
| Listing.StrLabelInjective | src/generator.c:50 | two string slots never get the same `STR<i>:` label |
| Listing.StringEntriesLayout | src/generator.c:49-51 | the loop writes exactly two lines per slot: line 2i is `STR<i>:` and line 2i+1 is `.asciz` with the i-th literal |
| Listing.StringTableLayout | src/generator.c:44-51 | the section is `.section .rodata`, then `.intout`, `.strout` and `.errout` with "Wrong number of arguments", then exactly `stringc` entries in slot order, and nothing else |
| Listing.StringLabelsDistinct | src/generator.c:49-51 | equal literals in different slots still get different labels, so nothing is deduplicated |
| Listing.CapturedParams | src/generator.c:89 | the captured-parameter count is at most 6 and at most `nparms`, and equals one of them |
| Listing.FunctionPrologue | src/generator.c:84-92 | the prologue is `.globl name`, `name:`, `pushq %rbp`, `movq %rsp, %rbp`, then exactly min(6, nparms) pushes with the k-th pushing `record[k]`; its length is 4 + m + m mod 2 |
| Listing.PaddingIffOdd | src/generator.c:94-96 | the `subq $8, %rsp` padding line is present iff min(6, nparms) is odd |
| Listing.StackWordsAppend | src/generator.c:86-96 | the stack words pushed by two consecutive line sequences add up |
| Listing.StackWordsOfPushes | src/generator.c:90-92 | the register-push loop adds exactly m stack words |
| Listing.FrameKeepsAlignment | src/generator.c:86-96 | the frame takes 1 + m + (m mod 2) words; with the usual rsp ≡ 8 (mod 16) at entry, rsp is 16-byte aligned after the prologue (section 3.2.2 of the System V AMD64 psABI) |
| Listing.GlobalLabelsExact | src/generator.c:63-70 | the `.bss` pass writes exactly one `.<name>:` label per global-variable symbol, in symbol-list order |
| Listing.ListingsAt | src/generator.c:73-80 | one function listing per selected position |
| Listing.FunctionSectionsExact | src/generator.c:72-80 | the `.text` pass writes the prologues of exactly the function symbols, one after another in symbol-list order |
| Listing.SectionOrder | src/generator.c:29-30 | the program starts with `.section .rodata`; after the string table come `.section .bss` and `.align 8`, then the global labels, then `.section .text` |
| Listing.MainArgCheckLayout | src/generator.c:115-119 | the entry routine subtracts 1 from `%rdi`, compares it with `nparms`, jumps to `ABORT` on mismatch and to `SKIP_ARGS` on zero; its length is 33 + min(6, nparms) |
| Listing.MainParseLoopLayout | src/generator.c:121-138 | `%rcx` gets the count and `%rsi` advances by 8·nparms (mod 2^64), followed by the 12-line `PARSE_ARGV` loop |
| Listing.MainDispatchLayout | src/generator.c:141-153 | the k-th pop after the loop pops `record[k]`, followed by the call, the `ABORT` block (`.errout`, `puts`) and the `END` block (`exit`) |
| Listing.ParseLoopCallsStrtolOnce | src/generator.c:127-130 | exactly one line of the 12-line loop body is `call strtol`, its seventh |
| Listing.CallSiteDiffersFromLabel | src/generator.c:145 | the routine calls `_<name>`, and no line generate_function writes for that function defines the label `_<name>:` |
| Generator.Emitter.GenerateProgram | src/generator.c:22-38 | the string table followed by the globals and functions is appended, and nothing else |
| Generator.Emitter.GenerateStringtable | src/generator.c:40-52 | appends exactly the string-table listing |
| Generator.Emitter.GenerateGlobalVariables | src/generator.c:54-81 | appends `.section .bss`, `.align 8`, the global labels, `.section .text` and the function listings |
| Generator.Emitter.GenerateGlobalLabels | src/generator.c:62-70 | appends the labels of the global variables, in list order |
| Generator.Emitter.GenerateFunctions | src/generator.c:72-80 | appends the prologue of every function symbol, in list order |
| Generator.Emitter.GenerateFunction | src/generator.c:83-99 | appends exactly the prologue listing of the function |
| Generator.Emitter.GenerateMain | src/generator.c:108-154 | appends exactly the entry-routine listing for `first` |
| Generator.Emitter.GenerateMainPrologue | src/generator.c:109-113 | appends `.globl main`, `.section .text`, `main:` and the frame setup |
| Generator.Emitter.GenerateArgCheck | src/generator.c:115-119 | appends the argument-count check |
| Generator.Emitter.GenerateArgvLoop | src/generator.c:121-138 | appends the countdown setup and the parse loop |
| Generator.Emitter.GenerateParseLoop | src/generator.c:123-138 | appends the 12 lines of the `PARSE_ARGV` loop |
| Generator.Emitter.GenerateDispatch | src/generator.c:144-153 | appends the call, the abort block and the exit block |
| EntryShim.Pushed | src/generator.c:121-138 | the first c parsed values, bottom to top, from argv[n] down |
| EntryShim.RunParseLoop | src/generator.c:121-138 | with rcx = n > 0 and rsi at argv[n], the loop runs n times, survives the caller-saved registers that strtol clobbers, and leaves the base-10 parses of argv[n], …, argv[1] on the stack, argv[1]'s on top |
| EntryShim.PopParameters | src/generator.c:140-142 | after the pops, `record[k]` holds the parse of argv[k+1] for every k < min(6, n), only those registers are written, and the values for argv[n] … argv[7] stay on the stack |
| EntryShim.RunEntryPoint | src/generator.c:115-153 | the routine aborts iff argc − 1 ≠ nparms, and then with the "Wrong number of arguments" message and exit status equal to `puts`' result; otherwise it calls `_<name>` with `record[k]` = parse of argv[k+1] for k < min(6, nparms), the arguments beyond the sixth left pushed, and exits with the entry function's return value |

## Left out

- `generate_node` (src/generator.c:101-103) is an empty stub. A function's listing therefore ends with its prologue.
- `tlhash_size`, `tlhash_values` and `malloc` are foreign calls, and the hash table's iteration order is not visible. The symbol list is an input sequence in whatever order they produce it, and allocation failure is not modelled.
- `puts` and `printf` are modelled only as appending lines. Their return values and I/O errors are not modelled. The `%d` conversion applied to a `size_t` in the string-table loop is rendered as the index's decimal value.
- The run-time behaviour of `strtol`, `puts`, `exit` and the entry function is not modelled. `strtol` is an arbitrary function of the argument string and the base. The value `puts` returns is a parameter. The entry function is an arbitrary function of the registers and stack it is called with. The simulation does not track memory, other registers or `%rsp` as an address. Register values are unbounded integers.
- EntryShim.RunParseLoop: the simulation models the loop's semantics on its own. It is not derived from the emitted text line by line, and the correspondence is by construction, one statement per emitted instruction.
- Stack alignment is not modelled at the `call strtol` inside the parse loop, nor at `call _<name>`. At the latter rsp is 8 mod 16 whenever nparms − min(6, nparms) is odd, for example nparms = 7.
- The entry routine's own `.section .text` and its frame are not part of `generate_program`'s output, because `generate_program` never calls `generate_main`.
- The choice of the entry function (the one named `main`, else the first) is made by the caller of `generate_main`, outside this file. `first` is an input.
- `generate_main` is written as phase methods (prologue, argument check, countdown setup and loop body, pops, dispatch), and the two passes of `generate_global_variables` are separate methods. Each phase's lines are appended in the source's order.
