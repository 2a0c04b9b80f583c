/** The interpreter's environment (lang/src/env.rs): a stack of scopes mapping
    names to values, and the runtime capability every command goes to.

    The runtime is a trait in the source; here it is the log of the calls the
    interpreter has made on it, one `RtCmd` per trait method
    (lang/src/lib.rs). The file system `do_file` reads from is a fixed map
    from path to the tokenized file. `Env::do_file` itself parses the file
    with the statement parser and therefore lives with it, in `ParseFsm`. */
module Environment {
  import opened Base
  import opened Lex
  import opened SeqTypes

  /** One call on the `Runtime` trait, with its arguments. */
  datatype RtCmd =
    | AssignSlot(snum: nat, len: nat, evs: Events)
    | SetBpm(bpm: nat)
    | SetDiv(slot: nat, div: nat)
    | SetSync(slot: nat, sync: nat)
    | SetOutput(slot: nat, out: nat)
    | PlaySlot(slot: nat)
    | StopSlot(slot: nat)
    | ListOuts
    | ListLps
    | OpenOut(out: nat, channel: u8)
    | OpenLp(lp: nat)

  type Scope = map<string, Val>

  /** The scopes, innermost last. The interpreter starts with one scope and
      never pops (`step_out` has no caller), so there is always one. */
  type Stack = s: seq<Scope> | |s| > 0 witness [map[]]

  /** The binding of `nm` in the innermost scope that has one. */
  function Resolve(stack: seq<Scope>, nm: string): Option<Val>
  {
    if |stack| == 0 then None
    else if nm in stack[|stack| - 1] then Some(stack[|stack| - 1][nm])
    else Resolve(stack[..|stack| - 1], nm)
  }

  /** A lookup fails exactly when no scope binds the name, and otherwise
      finds the binding of some scope. */
  lemma {:induction false} ResolveFinds(stack: seq<Scope>, nm: string)
    ensures Resolve(stack, nm).None? <==> forall i :: 0 <= i < |stack| ==> nm !in stack[i]
    ensures Resolve(stack, nm).Some? ==>
              exists i :: 0 <= i < |stack| && nm in stack[i] && Resolve(stack, nm).value == stack[i][nm]
  {
    if |stack| > 0 && nm !in stack[|stack| - 1] {
      var pre := stack[..|stack| - 1];
      ResolveFinds(pre, nm);
      assert forall i :: 0 <= i < |pre| ==> pre[i] == stack[i];
    }
  }

  /** A name bound in the innermost scope shadows every outer binding. */
  lemma InnermostWins(stack: seq<Scope>, nm: string, i: nat)
    requires i < |stack| && nm in stack[i]
    requires forall j :: i < j < |stack| ==> nm !in stack[j]
    ensures Resolve(stack, nm) == Some(stack[i][nm])
  {
    if i < |stack| - 1 {
      InnermostWins(stack[..|stack| - 1], nm, i);
    }
  }

  /** What `set` does to the stack: the top scope gains or overwrites the
      binding, every other scope is untouched. */
  function WithBinding(stack: Stack, nm: string, v: Val): (r: Stack)
    ensures |r| == |stack| && r[..|r| - 1] == stack[..|stack| - 1]
    ensures r[|r| - 1] == stack[|stack| - 1][nm := v]
  {
    stack[..|stack| - 1] + [stack[|stack| - 1][nm := v]]
  }

  /** After `set(nm, v)` the name resolves to `v`, and every other name
      resolves as before. */
  lemma {:induction false} SetThenLookup(stack: Stack, nm: string, v: Val, other: string)
    ensures Resolve(WithBinding(stack, nm, v), nm) == Some(v)
    ensures other != nm ==> Resolve(WithBinding(stack, nm, v), other) == Resolve(stack, other)
  {
    var r := WithBinding(stack, nm, v);
    if other != nm && other !in stack[|stack| - 1] {
      assert r[..|r| - 1] == stack[..|stack| - 1];
    }
  }

  /** Bindings made in an inner scope disappear once it is popped: a name
      bound after `step_in` is visible until `step_out`, and afterwards
      every name resolves as it did before `step_in`. */
  lemma ScopedBindingIsForgotten(stack: seq<Scope>, nm: string, v: Val, other: string)
    ensures var inner := WithBinding(stack + [map[]], nm, v);
            && Resolve(inner, nm) == Some(v)
            && Resolve(inner[..|inner| - 1], other) == Resolve(stack, other)
  {
    var inner := WithBinding(stack + [map[]], nm, v);
    assert inner[..|inner| - 1] == stack;
  }

  /** Every value bound in any scope is well formed: a bar among them is a
      compiled one. The interpreter starts with one empty scope, which has
      this property, and binds only what it parsed. */
  ghost predicate ScopesOk(stack: seq<Scope>)
  {
    forall i, nm :: 0 <= i < |stack| && nm in stack[i] ==> ValOk(stack[i][nm])
  }

  /** Looking a name up in well-formed scopes finds a well-formed value. */
  lemma ResolveOk(stack: seq<Scope>, nm: string)
    requires ScopesOk(stack)
    ensures Resolve(stack, nm).Some? ==> ValOk(Resolve(stack, nm).value)
  {
    ResolveFinds(stack, nm);
  }

  /** Binding a well-formed value, or pushing an empty scope, keeps the
      scopes well formed. */
  lemma BindingOk(stack: Stack, nm: string, v: Val)
    requires ScopesOk(stack) && ValOk(v)
    ensures ScopesOk(WithBinding(stack, nm, v))
    ensures ScopesOk(stack + [map[]])
  {
    var r := WithBinding(stack, nm, v);
    forall i, n | 0 <= i < |r| && n in r[i]
      ensures ValOk(r[i][n])
    {
      if i < |r| - 1 {
        assert r[i] == r[..|r| - 1][i];
      }
    }
  }

  class Env {
    var stack: Stack
    ghost var calls: seq<RtCmd>
    /** The files `do_file` can open, already tokenized. */
    const files: map<string, Tokenized>

    /** `Env::new`: one empty scope, no runtime call yet. */
    constructor (fs: map<string, Tokenized>)
      ensures stack == [map[]] && calls == [] && files == fs
    {
      stack := [map[]];
      calls := [];
      files := fs;
    }

    /** Searches the scopes from the innermost outwards. */
    method Lookup(nm: string) returns (r: Option<Val>)
      ensures r == Resolve(stack, nm)
    {
      var i := |stack|;
      assert stack[..i] == stack;
      while i > 0
        invariant 0 <= i <= |stack|
        invariant Resolve(stack, nm) == Resolve(stack[..i], nm)
      {
        if nm in stack[i - 1] {
          return Some(stack[i - 1][nm]);
        }
        assert stack[..i][..i - 1] == stack[..i - 1];
        i := i - 1;
      }
      return None;
    }

    method StepIn()
      modifies this
      ensures stack == old(stack) + [map[]] && calls == old(calls)
    {
      stack := stack + [map[]];
    }

    /** Pops the innermost scope. */
    method StepOut()
      requires |stack| > 1
      modifies this
      ensures stack == old(stack)[..|old(stack)| - 1]
      ensures calls == old(calls)
    {
      stack := stack[..|stack| - 1];
    }

    /** Binds in the innermost scope. */
    method Set(nm: string, v: Val)
      modifies this
      ensures stack == WithBinding(old(stack), nm, v) && calls == old(calls)
    {
      stack := stack[..|stack| - 1] + [stack[|stack| - 1][nm := v]];
    }

    /** Each of the runtime forwarders (`assign_slot`, `set_bpm`, ...): the
        command reaches the runtime with its arguments unchanged, and the
        scopes are not touched. */
    method Forward(cmd: RtCmd)
      modifies this
      ensures calls == old(calls) + [cmd] && stack == old(stack)
    {
      calls := calls + [cmd];
    }
  }

  /** Stepping in then out restores the stack. */
  lemma StepInOut(stack: seq<Scope>)
    ensures var pushed := stack + [map[]]; pushed[..|pushed| - 1] == stack
  {
  }
}
