/**
 * The `extend(preserve, first, rest...)` helper: the first truthy argument
 * receives the own properties of every later argument, left to right. With
 * `preserve` a property the result already has is never overwritten.
 */
module Extend {
  import opened JsValues

  /** The effect of copying one argument's properties into the result. */
  function Merge(preserve: bool, acc: Props, obj: Option<Props>): Props {
    match obj
    case None => acc
    case Some(m) => if preserve then m + acc else acc + m
  }

  /**
   * What `extend` returns for the arguments after the flag: falsy leading
   * arguments are skipped, the first object becomes the result, and each
   * later argument is merged into it.
   */
  function Fold(preserve: bool, args: seq<Option<Props>>): Option<Props>
    decreases |args|
  {
    if args == [] then None
    else
      var last := args[|args| - 1];
      match Fold(preserve, args[..|args| - 1])
      case None => last
      case Some(r) => Some(Merge(preserve, r, last))
  }

  /** Reference definition: every key some argument owns. */
  function KeysOf(args: seq<Option<Props>>): set<string>
    decreases |args|
  {
    if args == [] then {}
    else
      KeysOf(args[..|args| - 1]) +
      (match args[|args| - 1] case None => {} case Some(m) => m.Keys)
  }

  /** Reference definition: the value of `k` in the right-most argument that owns `k`. */
  function LastValue(args: seq<Option<Props>>, k: string): Value
    requires k in KeysOf(args)
    decreases |args|
  {
    var last := args[|args| - 1];
    if last.Some? && k in last.value then last.value[k]
    else LastValue(args[..|args| - 1], k)
  }

  /** Reference definition: the value of `k` in the left-most argument that owns `k`. */
  function FirstValue(args: seq<Option<Props>>, k: string): Value
    requires k in KeysOf(args)
    decreases |args|
  {
    var init := args[..|args| - 1];
    if k in KeysOf(init) then FirstValue(init, k)
    else args[|args| - 1].value[k]
  }

  /** `extend`, with the two nested loops of the source. */
  method Extend(preserve: bool, args: seq<Option<Props>>) returns (result: Option<Props>)
    ensures result == Fold(preserve, args)
  {
    result := None;
    var i := 0;
    while i < |args|
      invariant 0 <= i <= |args|
      invariant result == Fold(preserve, args[..i])
    {
      var obj := args[i];
      assert args[..i + 1][..i] == args[..i];
      if result.None? {
        // the first truthy argument becomes the result
        result := obj;
      } else if obj.Some? {
        var acc := result.value;
        var m := obj.value;
        var r := acc;
        var todo := m.Keys;
        while todo != {}
          invariant todo <= m.Keys
          invariant r.Keys == acc.Keys + (m.Keys - todo)
          invariant forall k :: k in r ==>
            r[k] == (if k in m && k !in todo && !(preserve && k in acc) then m[k] else acc[k])
          decreases todo
        {
          var k :| k in todo;
          if !(preserve && k in r) {
            r := r[k := m[k]];
          }
          todo := todo - {k};
        }
        assert r == Merge(preserve, acc, obj);
        result := Some(r);
      }
      i := i + 1;
    }
    assert args[..|args|] == args;
  }

  /** `extend` returns an object exactly when some argument is one, and its keys are all the arguments' keys. */
  lemma {:induction false} FoldKeys(preserve: bool, args: seq<Option<Props>>)
    ensures Fold(preserve, args).None? <==> forall i :: 0 <= i < |args| ==> args[i].None?
    ensures Fold(preserve, args).None? ==> KeysOf(args) == {}
    ensures Fold(preserve, args).Some? ==> Fold(preserve, args).value.Keys == KeysOf(args)
  {
    if args != [] {
      var init := args[..|args| - 1];
      FoldKeys(preserve, init);
      forall i | 0 <= i < |init| ensures init[i] == args[i] { }
    }
  }

  /** Without `preserve`, the right-most argument owning a key supplies its value. */
  lemma {:induction false} FoldRightmostWins(args: seq<Option<Props>>, k: string)
    requires k in KeysOf(args)
    ensures Fold(false, args).Some?
    ensures k in Fold(false, args).value && Fold(false, args).value[k] == LastValue(args, k)
  {
    var init := args[..|args| - 1];
    var last := args[|args| - 1];
    FoldKeys(false, init);
    if !(last.Some? && k in last.value) {
      FoldRightmostWins(init, k);
    }
  }

  /** With `preserve`, the left-most argument owning a key supplies its value. */
  lemma {:induction false} FoldFirstWins(args: seq<Option<Props>>, k: string)
    requires k in KeysOf(args)
    ensures Fold(true, args).Some?
    ensures k in Fold(true, args).value && Fold(true, args).value[k] == FirstValue(args, k)
  {
    var init := args[..|args| - 1];
    FoldKeys(true, init);
    if k in KeysOf(init) {
      FoldFirstWins(init, k);
    }
  }

  /** With `preserve`, nothing the first object owns is overwritten. */
  lemma {:induction false} PreserveKeepsFirst(first: Props, rest: seq<Option<Props>>, k: string)
    requires k in first
    ensures Fold(true, [Some(first)] + rest).Some?
    ensures k in Fold(true, [Some(first)] + rest).value
    ensures Fold(true, [Some(first)] + rest).value[k] == first[k]
  {
    var args := [Some(first)] + rest;
    if rest == [] {
      assert args[..0] == [];
    } else {
      var rest' := rest[..|rest| - 1];
      assert args[..|args| - 1] == [Some(first)] + rest';
      PreserveKeepsFirst(first, rest', k);
    }
  }

  /** Without `preserve`, every key of the first object stays in the result. */
  lemma {:induction false} OverrideKeepsFirstKeys(first: Props, rest: seq<Option<Props>>)
    ensures Fold(false, [Some(first)] + rest).Some?
    ensures first.Keys <= Fold(false, [Some(first)] + rest).value.Keys
  {
    var args := [Some(first)] + rest;
    if rest == [] {
      assert args[..0] == [];
    } else {
      var rest' := rest[..|rest| - 1];
      assert args[..|args| - 1] == [Some(first)] + rest';
      OverrideKeepsFirstKeys(first, rest');
    }
  }

  /** `extend(false, {}, m)` is a copy of `m`, the idiom the stream uses to clone its options. */
  lemma CopyIntoEmpty(m: Props)
    ensures Fold(false, [Some(map[]), Some(m)]) == Some(m)
  {
    var args := [Some(map[]), Some(m)];
    assert args[..1][..0] == [];
    assert Fold(false, args[..1]) == Some(map[]);
    assert map[] + m == m;
  }
}
