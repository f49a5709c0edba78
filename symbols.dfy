/** The symbol-table entries the generator reads. The table itself is a
    hash table whose iteration order is not visible here; the generator
    receives its values as one ordered list. */
module Symbols {
  import opened AsmText

  /** The kinds of symbol-table entries (SYM_GLOBAL_VAR, SYM_FUNCTION,
      SYM_PARAMETER, SYM_LOCAL_VAR). */
  datatype SymbolKind = GlobalVar | Function | Parameter | LocalVar

  /** A symbol: its name, its kind and, for a function, its declared
      parameter count (a size_t). */
  datatype Symbol = Symbol(name: string, kind: SymbolKind, nparms: SizeT)

  /** Positions, in list order, of the symbols of kind `k`: what a loop
      over the list that skips every other kind visits. */
  function KindIndices(syms: seq<Symbol>, k: SymbolKind): (r: seq<nat>)
    ensures forall j :: 0 <= j < |r| ==> r[j] < |syms| && syms[r[j]].kind == k
    decreases |syms|
  {
    if syms == [] then []
    else
      var init := syms[..|syms| - 1];
      KindIndices(init, k) + (if syms[|syms| - 1].kind == k then [|syms| - 1] else [])
  }

  /** KindIndices lists every position holding a symbol of kind `k` (and,
      by its own contract, no other position), each once, in increasing
      order. */
  lemma {:induction false} KindIndicesCharacterised(syms: seq<Symbol>, k: SymbolKind)
    ensures forall i :: 0 <= i < |syms| && syms[i].kind == k ==> i in KindIndices(syms, k)
    ensures forall a, b :: 0 <= a < b < |KindIndices(syms, k)| ==>
              KindIndices(syms, k)[a] < KindIndices(syms, k)[b]
    decreases |syms|
  {
    if syms != [] {
      var init := syms[..|syms| - 1];
      var last := |syms| - 1;
      KindIndicesCharacterised(init, k);
      var pre := KindIndices(init, k);
      var r := KindIndices(syms, k);
      assert r == pre + (if syms[last].kind == k then [last] else []);
      assert forall j :: 0 <= j < |pre| ==> pre[j] < last;
      forall i | 0 <= i < |syms| && syms[i].kind == k
        ensures i in r
      {
        if i < last {
          assert init[i] == syms[i];
          assert i in pre;
        } else {
          assert r[|r| - 1] == i;
        }
      }
    }
  }
}
