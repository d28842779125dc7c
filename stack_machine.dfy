/** A small reading of the emitted instructions as AVM2 runs them: an operand stack of
    integers, `label` markers that do nothing, and the jumps and conditional branches to
    them. It gives a meaning to the shapes that `visitSelect`, `visitIf` and `visitLoop`
    (index.js:186-298, index.js:969-978) emit; it is not a model of the AVM2 runtime. */
module StackMachine {
  import opened Bytes
  import opened WasmIr
  import opened Assembler
  import opened Labels
  import opened CodeGen
  import opened CodeGenFacts

  /** How a run ends: it falls off the end of the code with a stack, meets an instruction
      this reading does not cover, or runs out of steps. */
  datatype Run = Halted(stack: seq<int>) | Stuck | OutOfFuel

  /** The position of the first `label` instruction for l, which branches to l go to. */
  function PlaceOf(code: seq<Instr>, l: Label): (r: Option<nat>)
    ensures r.Some? ==> r.value < |code| && code[r.value] == Place(l)
  {
    if code == [] then None
    else if code[0] == Place(l) then Some(0)
    else
      var r := PlaceOf(code[1..], l);
      if r.None? then None else Some(r.value + 1)
  }

  /** Runs code from position pc for at most fuel steps. A nonzero value is true. */
  function Exec(code: seq<Instr>, pc: nat, stack: seq<int>, fuel: nat): Run
    decreases fuel
  {
    if pc >= |code| then Halted(stack)
    else if fuel == 0 then OutOfFuel
    else
      var i := code[pc];
      if i.Place? || i == Op(FixedOp.Nop) then Exec(code, pc + 1, stack, fuel - 1)
      else if i.PushByte? then Exec(code, pc + 1, stack + [i.value % 256], fuel - 1)
      else if i == Op(Pop) then
        if |stack| < 1 then Stuck else Exec(code, pc + 1, stack[..|stack| - 1], fuel - 1)
      else if i == Op(Swap) then
        if |stack| < 2 then Stuck
        else
          var n := |stack|;
          Exec(code, pc + 1, stack[..n - 2] + [stack[n - 1], stack[n - 2]], fuel - 1)
      else if i.Branch? && (i.bop.Jump? || i.bop.IfTrue? || i.bop.IfFalse?) then
        var target := PlaceOf(code, i.target);
        if target.None? then Stuck
        else if i.bop.Jump? then Exec(code, target.value, stack, fuel - 1)
        else if |stack| < 1 then Stuck
        else
          var c := stack[|stack| - 1];
          var taken := if i.bop.IfTrue? then c != 0 else c == 0;
          Exec(code, if taken then target.value else pc + 1, stack[..|stack| - 1], fuel - 1)
      else Stuck
  }

  // ---------------------------------------------------------------- select

  /** The tail of `visitSelect` leaves ifTrue when the condition is true and ifFalse
      otherwise, with the rest of the stack untouched. */
  lemma SelectChooses(rest: seq<int>, a: int, b: int, c: int, l: Label)
    ensures Exec(SelectTail(l), 0, rest + [a, b, c], 4) == Halted(rest + [if c != 0 then a else b])
  {
    var code := SelectTail(l);
    assert code == code[..2] + [Place(l)] + [Op(Pop)];
    PlaceOfFirst(code[..2], l, [Op(Pop)]);
    var s0 := rest + [a, b, c];
    assert s0[..|s0| - 1] == rest + [a, b];
    var s1 := rest + [a, b];
    assert s1[..|s1| - 2] + [s1[|s1| - 1], s1[|s1| - 2]] == rest + [b, a];
    assert (rest + [b, a])[..|rest| + 1] == rest + [b];
    assert (rest + [a, b])[..|rest| + 1] == rest + [a];
  }

  // ---------------------------------------------------------------- if with an else arm

  /** `if (c) { push x } else { push y }` in the order `visitIf` emits it: the end label
      of the then-arm comes before the jump over the else arm. */
  function IfElseAsWritten(c: int, x: int, y: int, ifEnd: Label, elseEnd: Label): seq<Instr>
  {
    [PushByte(c), Branch(IfFalse, ifEnd), PushByte(x), Place(ifEnd), Branch(Jump, elseEnd),
     PushByte(y), Place(elseEnd)]
  }

  /** The order the construct calls for: the jump over the else arm, then the label the
      false branch goes to. */
  function IfElseIntended(c: int, x: int, y: int, ifEnd: Label, elseEnd: Label): seq<Instr>
  {
    [PushByte(c), Branch(IfFalse, ifEnd), PushByte(x), Branch(Jump, elseEnd), Place(ifEnd),
     PushByte(y), Place(elseEnd)]
  }

  /** A branch goes to the first `label` for its target. */
  lemma {:induction false} PlaceOfFirst(pre: seq<Instr>, l: Label, post: seq<Instr>)
    requires Place(l) !in pre
    ensures PlaceOf(pre + [Place(l)] + post, l) == Some(|pre|)
  {
    var code := pre + [Place(l)] + post;
    if pre != [] {
      assert code[1..] == pre[1..] + [Place(l)] + post;
      PlaceOfFirst(pre[1..], l, post);
    }
  }

  lemma PlacesAsWritten(c: int, x: int, y: int, ifEnd: Label, elseEnd: Label)
    requires ifEnd != elseEnd
    ensures PlaceOf(IfElseAsWritten(c, x, y, ifEnd, elseEnd), ifEnd) == Some(3)
    ensures PlaceOf(IfElseAsWritten(c, x, y, ifEnd, elseEnd), elseEnd) == Some(6)
  {
    var code := IfElseAsWritten(c, x, y, ifEnd, elseEnd);
    assert code == code[..3] + [Place(ifEnd)] + code[4..];
    PlaceOfFirst(code[..3], ifEnd, code[4..]);
    assert code == code[..6] + [Place(elseEnd)] + [];
    PlaceOfFirst(code[..6], elseEnd, []);
  }

  lemma PlacesIntended(c: int, x: int, y: int, ifEnd: Label, elseEnd: Label)
    requires ifEnd != elseEnd
    ensures PlaceOf(IfElseIntended(c, x, y, ifEnd, elseEnd), ifEnd) == Some(4)
    ensures PlaceOf(IfElseIntended(c, x, y, ifEnd, elseEnd), elseEnd) == Some(6)
  {
    var code := IfElseIntended(c, x, y, ifEnd, elseEnd);
    assert code == code[..4] + [Place(ifEnd)] + code[5..];
    PlaceOfFirst(code[..4], ifEnd, code[5..]);
    assert code == code[..6] + [Place(elseEnd)] + [];
    PlaceOfFirst(code[..6], elseEnd, []);
  }

  /** Pushing v onto a stack and popping it gives the stack back. */
  lemma PushPop(stack: seq<int>, v: int)
    ensures (stack + [v])[..|stack + [v]| - 1] == stack
    ensures (stack + [v])[|stack + [v]| - 1] == v
  {
  }

  /** As written, a false condition skips BOTH arms, so the else arm never runs, and a
      true one runs the then-arm; the rest of the stack is untouched either way. */
  lemma IfElseSkipsElse(c: int, x: int, y: int, ifEnd: Label, elseEnd: Label, rest: seq<int>)
    requires ifEnd != elseEnd
    ensures Exec(IfElseAsWritten(c, x, y, ifEnd, elseEnd), 0, rest, 10)
      == if c % 256 == 0 then Halted(rest) else Halted(rest + [x % 256])
  {
    if c % 256 == 0 {
      AsWrittenFalse(c, x, y, ifEnd, elseEnd, rest);
    } else {
      AsWrittenTrue(c, x, y, ifEnd, elseEnd, rest);
    }
  }

  lemma AsWrittenFalse(c: int, x: int, y: int, ifEnd: Label, elseEnd: Label, rest: seq<int>)
    requires ifEnd != elseEnd && c % 256 == 0
    ensures Exec(IfElseAsWritten(c, x, y, ifEnd, elseEnd), 0, rest, 10) == Halted(rest)
  {
    var code := IfElseAsWritten(c, x, y, ifEnd, elseEnd);
    PlacesAsWritten(c, x, y, ifEnd, elseEnd);
    PushPop(rest, c % 256);
    calc {
      Exec(code, 0, rest, 10);
      Exec(code, 1, rest + [c % 256], 9);
      Exec(code, 3, rest, 8);
      Exec(code, 4, rest, 7);
      Exec(code, 6, rest, 6);
      Exec(code, 7, rest, 5);
    }
  }

  lemma AsWrittenTrue(c: int, x: int, y: int, ifEnd: Label, elseEnd: Label, rest: seq<int>)
    requires ifEnd != elseEnd && c % 256 != 0
    ensures Exec(IfElseAsWritten(c, x, y, ifEnd, elseEnd), 0, rest, 10) == Halted(rest + [x % 256])
  {
    var code := IfElseAsWritten(c, x, y, ifEnd, elseEnd);
    var done := rest + [x % 256];
    PlacesAsWritten(c, x, y, ifEnd, elseEnd);
    PushPop(rest, c % 256);
    calc {
      Exec(code, 0, rest, 10);
      Exec(code, 1, rest + [c % 256], 9);
      Exec(code, 2, rest, 8);
      Exec(code, 3, done, 7);
      Exec(code, 4, done, 6);
      Exec(code, 6, done, 5);
      Exec(code, 7, done, 4);
    }
  }

  /** In the intended order each condition runs exactly one arm: the then-arm when the
      condition is nonzero, the else arm otherwise. */
  lemma IfElseIntendedChooses(c: int, x: int, y: int, ifEnd: Label, elseEnd: Label, rest: seq<int>)
    requires ifEnd != elseEnd
    ensures Exec(IfElseIntended(c, x, y, ifEnd, elseEnd), 0, rest, 10)
      == Halted(rest + [if c % 256 != 0 then x % 256 else y % 256])
  {
    if c % 256 == 0 {
      IntendedFalse(c, x, y, ifEnd, elseEnd, rest);
    } else {
      IntendedTrue(c, x, y, ifEnd, elseEnd, rest);
    }
  }

  lemma IntendedFalse(c: int, x: int, y: int, ifEnd: Label, elseEnd: Label, rest: seq<int>)
    requires ifEnd != elseEnd && c % 256 == 0
    ensures Exec(IfElseIntended(c, x, y, ifEnd, elseEnd), 0, rest, 10) == Halted(rest + [y % 256])
  {
    var code := IfElseIntended(c, x, y, ifEnd, elseEnd);
    var done := rest + [y % 256];
    PlacesIntended(c, x, y, ifEnd, elseEnd);
    PushPop(rest, c % 256);
    calc {
      Exec(code, 0, rest, 10);
      Exec(code, 1, rest + [c % 256], 9);
      Exec(code, 4, rest, 8);
      Exec(code, 5, rest, 7);
      Exec(code, 6, done, 6);
      Exec(code, 7, done, 5);
    }
  }

  lemma IntendedTrue(c: int, x: int, y: int, ifEnd: Label, elseEnd: Label, rest: seq<int>)
    requires ifEnd != elseEnd && c % 256 != 0
    ensures Exec(IfElseIntended(c, x, y, ifEnd, elseEnd), 0, rest, 10) == Halted(rest + [x % 256])
  {
    var code := IfElseIntended(c, x, y, ifEnd, elseEnd);
    var done := rest + [x % 256];
    PlacesIntended(c, x, y, ifEnd, elseEnd);
    PushPop(rest, c % 256);
    calc {
      Exec(code, 0, rest, 10);
      Exec(code, 1, rest + [c % 256], 9);
      Exec(code, 2, rest, 8);
      Exec(code, 3, done, 7);
      Exec(code, 6, done, 6);
      Exec(code, 7, done, 5);
    }
  }

  // ---------------------------------------------------------------- loops

  lemma AppendThree<T>(xs: seq<T>, a: T, b: T, c: T)
    ensures xs + [a] + [b] + [c] == xs + [a, b, c]
  {
  }

  /** `(loop $l (nop))`, which WebAssembly runs once, compiles to the label, the `nop`
      and the unconditional jump back that `visitLoop` appends. */
  lemma NopLoopCode(s: St, name: string)
    ensures var (start, _) := NewLabel(s.counters, Some(name));
      var t := GenLoop(s, Loop(name, Expr.Nop));
      t.r.Pass? && t.st.code == s.code + NopLoopAsWritten(start, 1)
  {
    var (start, c) := NewLabel(s.counters, Some(name));
    var s1 := Emit(s.(counters := c, stack := s.stack + [start]), [Place(start)]);
    NopEmits(s1);
    LoopShape(s, name, Expr.Nop);
    AppendThree(s.code, Place(start), Op(FixedOp.Nop), Branch(Jump, start));
    NopLoopOne(start);
  }

  /** k `nop` instructions, the body of a loop that does not branch. */
  function NopRun(k: nat): (r: seq<Instr>)
    ensures |r| == k && forall i :: 0 <= i < k ==> r[i] == Op(FixedOp.Nop)
  {
    seq(k, _ => Op(FixedOp.Nop))
  }

  /** A loop over k `nop`s as `visitLoop` emits it: the label, the body, the jump back. */
  function NopLoopAsWritten(l: Label, k: nat): seq<Instr>
  {
    [Place(l)] + NopRun(k) + [Branch(Jump, l)]
  }

  /** The same loop as WebAssembly means it: the label and the body, falling through. */
  function NopLoopIntended(l: Label, k: nat): seq<Instr>
  {
    [Place(l)] + NopRun(k)
  }

  /** The single-`nop` loop that `NopLoopCode` compiles is the k = 1 case. */
  lemma NopLoopOne(l: Label)
    ensures NopLoopAsWritten(l, 1) == [Place(l), Op(FixedOp.Nop), Branch(Jump, l)]
    ensures NopLoopIntended(l, 1) == [Place(l), Op(FixedOp.Nop)]
  {
    assert NopRun(1) == [Op(FixedOp.Nop)];
  }

  /** As written, a loop whose body does not branch never leaves the loop, from any
      position in it and whatever the number of steps. */
  lemma {:induction false} NopLoopNeverExits(l: Label, k: nat, pc: nat, stack: seq<int>, fuel: nat)
    requires pc < k + 2
    ensures Exec(NopLoopAsWritten(l, k), pc, stack, fuel) == OutOfFuel
    decreases fuel
  {
    var code := NopLoopAsWritten(l, k);
    if fuel > 0 {
      if pc == k + 1 {
        assert code[pc] == Branch(Jump, l);
        PlaceOfFirst([], l, code[1..]);
        assert code == [] + [Place(l)] + code[1..];
        NopLoopNeverExits(l, k, 0, stack, fuel - 1);
      } else {
        assert code[pc] == if pc == 0 then Place(l) else Op(FixedOp.Nop);
        NopLoopNeverExits(l, k, pc + 1, stack, fuel - 1);
      }
    }
  }

  /** Without the appended jump, the body runs once and the code falls through with the
      stack it started with, given one step per instruction left. */
  lemma {:induction false} NopLoopIntendedExits(l: Label, k: nat, pc: nat, stack: seq<int>, fuel: nat)
    requires pc <= k + 1 && fuel >= k + 1 - pc
    ensures Exec(NopLoopIntended(l, k), pc, stack, fuel) == Halted(stack)
    decreases k + 1 - pc
  {
    var code := NopLoopIntended(l, k);
    if pc < k + 1 {
      assert code[pc] == if pc == 0 then Place(l) else Op(FixedOp.Nop);
      NopLoopIntendedExits(l, k, pc + 1, stack, fuel - 1);
    }
  }
}
