/** What the entry point that generate_main emits does when it runs: the
    argument-count check, the countdown over argv that pushes each parsed
    argument, and the pops that move the parsed values into the parameter
    registers. Registers are integers, the stack is a sequence whose last
    element is its top, rsi is kept as a byte offset from argv, and strtol
    and puts are parameters. */
module EntryShim {
  import opened AsmText
  import opened Symbols
  import opened Listing

  /** How a run of the entry point ends, always in exit(status): on the
      abort path after puts printed the message; otherwise after calling the
      entry function with the parameter registers the pops wrote and the
      stack left below the call, its return value being the status. */
  datatype Outcome =
    | Aborted(message: string, status: int)
    | Dispatched(target: string, regs: map<string, int>, stack: seq<int>, status: int)

  /** The names of the first `m` parameter registers. */
  function ParamRegisters(m: nat): set<string>
    requires m <= 6
  {
    set k | 0 <= k < m :: RECORD[k]
  }

  /** The first `c` values the parse loop pushes, bottom to top: argv[n],
      argv[n-1], ..., each parsed in base 10. */
  function Pushed(argv: seq<string>, strtol: (string, int) -> int, n: nat, c: nat): (r: seq<int>)
    requires |argv| == n + 1 && c <= n
    ensures |r| == c
  {
    seq(c, i requires 0 <= i < c => strtol(argv[n - i], 10))
  }

  lemma PushedStep(argv: seq<string>, strtol: (string, int) -> int, n: nat, c: nat)
    requires |argv| == n + 1 && c < n
    ensures Pushed(argv, strtol, n, c + 1) == Pushed(argv, strtol, n, c) + [strtol(argv[n - c], 10)]
  {
  }

  /** The PARSE_ARGV countdown, entered with rcx = n > 0 and rsi pointing
      at argv[n]: it parses argv[n], argv[n-1], ..., argv[1] and leaves the
      values on the stack in that order, argv[1]'s on top. */
  method RunParseLoop(argv: seq<string>, strtol: (string, int) -> int, n: nat, stack0: seq<int>)
    returns (stack: seq<int>)
    requires |argv| == n + 1 && n > 0
    ensures stack == stack0 + Pushed(argv, strtol, n, n)
  {
    stack := stack0;
    var rcx: int := n;                           // movq %rdi,%rcx
    var rsi: int := 8 * n;                       // addq $8n,%rsi  (offset from argv)
    // `loop` decrements rcx and repeats while it is non-zero; rcx starts
    // positive, so a test at the top is the same
    while rcx != 0
      invariant 0 <= rcx <= n
      invariant rsi == 8 * rcx
      invariant stack == stack0 + Pushed(argv, strtol, n, n - rcx)
      decreases rcx
    {
      stack := stack + [rcx];                    // pushq %rcx
      stack := stack + [rsi];                    // pushq %rsi
      var arg := argv[rsi / 8];                  // movq (%rsi),%rdi
      rsi := 0;                                  // movq $0,%rsi
      var rdx := 10;                             // movq $10,%rdx
      var rax := strtol(arg, rdx);               // call strtol
      rcx, rsi := *, *;                          // caller-saved: the call may change them
      rsi := stack[|stack| - 1];                 // popq %rsi
      stack := stack[..|stack| - 1];
      rcx := stack[|stack| - 1];                 // popq %rcx
      stack := stack[..|stack| - 1];
      PushedStep(argv, strtol, n, n - rcx);
      stack := stack + [rax];                    // pushq %rax
      rsi := rsi - 8;                            // subq $8,%rsi
      rcx := rcx - 1;                            // loop PARSE_ARGV
    }
  }

  /** The pops after the countdown: record[k] receives the k-th value from
      the top, which is argv[k+1]'s; values beyond the sixth stay put. */
  method PopParameters(argv: seq<string>, strtol: (string, int) -> int, n: nat,
                       stack0: seq<int>, parsed: seq<int>)
    returns (regs: map<string, int>, stack: seq<int>)
    requires |argv| == n + 1 && parsed == stack0 + Pushed(argv, strtol, n, n)
    ensures regs.Keys == ParamRegisters(Min(6, n))
    ensures forall k :: 0 <= k < Min(6, n) ==> regs[RECORD[k]] == strtol(argv[k + 1], 10)
    ensures stack == stack0 + Pushed(argv, strtol, n, n - Min(6, n))
  {
    regs, stack := map[], parsed;
    for k := 0 to Min(6, n)                      // popq record[k]
      invariant stack == stack0 + Pushed(argv, strtol, n, n - k)
      invariant regs.Keys == ParamRegisters(k)
      invariant forall j :: 0 <= j < k ==> regs[RECORD[j]] == strtol(argv[j + 1], 10)
    {
      PushedStep(argv, strtol, n, n - k - 1);
      forall j | 0 <= j < k
        ensures RECORD[j] != RECORD[k]
      {
        RecordDistinct(j, k);
      }
      regs := regs[RECORD[k] := stack[|stack| - 1]];
      stack := stack[..|stack| - 1];
    }
  }

  /** One run of the emitted entry point with argument vector `argv`
      (argc == |argv|). A count mismatch takes the abort path, which exits
      with whatever puts returned. Otherwise every argument is parsed, from
      the last to the first, and the pops leave argv[k+1] in record[k];
      arguments beyond the sixth stay on the stack. The entry function is
      `callee`, seeing the registers and the stack; what it returns in rax
      is the exit status. */
  method RunEntryPoint(first: Symbol, argv: seq<string>, strtol: (string, int) -> int,
                       putsResult: int, callee: (map<string, int>, seq<int>) -> int,
                       stack0: seq<int>)
    returns (o: Outcome)
    ensures o.Aborted? <==> |argv| - 1 != first.nparms
    ensures o.Aborted? ==> o.message == ERROR_MESSAGE && o.status == putsResult
    ensures o.Dispatched? ==>
      var n, m := first.nparms, Min(6, first.nparms);
      && |argv| == n + 1
      && o.target == "_" + first.name
      && o.regs.Keys == ParamRegisters(m)
      && (forall k :: 0 <= k < m ==> o.regs[RECORD[k]] == strtol(argv[k + 1], 10))
      && o.stack == stack0 + Pushed(argv, strtol, n, n - m)
      && o.status == callee(o.regs, o.stack)
  {
    var n := first.nparms;
    var rdi: int := |argv| - 1;                  // subq $1,%rdi   (rdi held argc)
    if rdi != n {                                // cmpq $n,%rdi; jne ABORT
      // ABORT: movq $.errout,%rdi; call puts; END: movq %rax,%rdi; call exit
      var rax := putsResult;
      return Aborted(ERROR_MESSAGE, rax);
    }
    var regs: map<string, int> := map[];
    var stack := stack0;
    if rdi != 0 {                                // cmpq $0,%rdi; jz SKIP_ARGS
      var parsed := RunParseLoop(argv, strtol, n, stack0);
      regs, stack := PopParameters(argv, strtol, n, stack0, parsed);
    }
    // SKIP_ARGS: call _name; jmp END
    var rax := callee(regs, stack);
    // END: movq %rax,%rdi; call exit
    o := Dispatched("_" + first.name, regs, stack, rax);
  }
}
