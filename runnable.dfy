/** The driver loop of ttl::Runnable::cycle. Runnable objects are abstract
    ids and what each call of `run()` does is read from a script, one
    outcome per call, so that the loop has a measure. */
module Runnable {

  /** The largest value of the source's `std::size_t` cycle counter. */
  const SizeMax: nat := 0xFFFF_FFFF_FFFF_FFFF

  /** The owning pointer to the current object: null, or an object id. */
  datatype Ptr = Null | Obj(id: nat)

  /** What one call of `run()` on the current object does. */
  datatype Outcome =
    | Returns(holder: Ptr)        // returns a pointer (itself, another object, or null)
    | ThrowsRunnable(thrown: Ptr) // throws a `Runnable*`
    | ThrowsStdException          // throws a `std::exception`
    | ThrowsUnknown               // throws anything else

  /** One call of `run()`: the object it was called on and the value of the
      per-pass counter at that call. */
  datatype Call = Call(obj: nat, count: nat)

  /** The calls made, in order, and the pointer held when the cycle stopped:
      `Null` when it ended, an object when the script ran out first. */
  datatype Result = Result(calls: seq<Call>, final: Ptr)

  /** The counter step before each call: reset to 0 on reaching the maximum,
      then incremented. */
  function Bump(count: nat): (c: nat)
    requires count <= SizeMax
    ensures 1 <= c <= SizeMax
    ensures count < SizeMax ==> c == count + 1
    ensures count == SizeMax ==> c == 1
  {
    (if count == SizeMax then 0 else count) + 1
  }

  /** The pointer that is current after a call with outcome `o`. */
  function Next(current: Ptr, o: Outcome): Ptr
  {
    match o
    case Returns(holder) => holder  // itself (kept, not replaced), another object or null
    case ThrowsRunnable(thrown) => thrown
    case ThrowsStdException => Null
    case ThrowsUnknown => Null
  }

  /** The cycle, as a specification: `current` is the current pointer,
      `count` the per-pass counter and `script` the outcomes still to come. */
  function Trace(current: Ptr, count: nat, script: seq<Outcome>): Result
    requires count <= SizeMax
    decreases |script|
  {
    if current == Null || script == [] then Result([], current)
    else
      var c := Bump(count);
      var o := script[0];
      var rest := Trace(Next(current, o), if o.Returns? then c else 0, script[1..]);
      Result([Call(current.id, c)] + rest.calls, rest.final)
  }

  /** What `cycle` does with the pointer it is given. */
  function Cycle(start: Ptr, script: seq<Outcome>): Result
  {
    Trace(start, 0, script)
  }

  /** Runs `Trace` from `current` and puts `done` in front of its calls. */
  function After(done: seq<Call>, current: Ptr, count: nat, script: seq<Outcome>): Result
    requires count <= SizeMax
  {
    var t := Trace(current, count, script);
    Result(done + t.calls, t.final)
  }

  /** One call of `run()` moves a call from the trace still to come to the
      calls made. */
  lemma AfterStep(done: seq<Call>, current: Ptr, count: nat, script: seq<Outcome>)
    requires count <= SizeMax && current != Null && script != []
    ensures var c := Bump(count);
      After(done, current, count, script)
        == After(done + [Call(current.id, c)], Next(current, script[0]),
                 if script[0].Returns? then c else 0, script[1..])
  {
  }

  /** The nested do/while loops of the source. The inner loop calls `run()`
      on the current object until it is null or an exception escapes; the
      outer loop catches the exception, installs the new pointer and starts a
      new pass with a fresh counter, until the pointer is null. */
  method RunCycle(start: Ptr, script: seq<Outcome>) returns (calls: seq<Call>, final: Ptr)
    ensures Result(calls, final) == Cycle(start, script)
  {
    var runnable := start;
    var next := 0;
    calls := [];
    var firstPass := true;
    while firstPass || runnable != Null
      invariant 0 <= next <= |script|
      invariant After(calls, runnable, 0, script[next..]) == Cycle(start, script)
      invariant !firstPass ==> next > 0 || runnable == Null
      decreases |script| - next, if firstPass then 1 else 0
    {
      ghost var passStart := next;
      firstPass := false;
      var raised: Outcome := Returns(Null);
      var escaped := false;
      if runnable != Null {
        var cycleCount := 0;
        while runnable != Null
          invariant passStart <= next <= |script|
          invariant cycleCount <= SizeMax
          invariant After(calls, runnable, cycleCount, script[next..]) == Cycle(start, script)
          invariant next == passStart ==> runnable != Null
          decreases |script| - next
        {
          if next == |script| {
            // the script has no outcome for this call: stop here
            final := runnable;
            return;
          }
          if cycleCount == SizeMax {
            cycleCount := 0;
          }
          cycleCount := cycleCount + 1;
          var o := script[next];
          AfterStep(calls, runnable, cycleCount - 1, script[next..]);
          assert script[next..][1..] == script[next + 1..];
          calls := calls + [Call(runnable.id, cycleCount)];
          next := next + 1;
          if !o.Returns? {
            raised, escaped := o, true;
            break;
          }
          var holder := o.holder;
          if holder == runnable {
            continue;
          }
          runnable := holder;
        }
      }
      if escaped {
        match raised
        case ThrowsRunnable(r) => runnable := r;
        case ThrowsStdException => runnable := Null;
        case ThrowsUnknown => runnable := Null;
      }
    }
    final := runnable;
  }

  /** The pointer that is current right after call `i` of `t`: the object
      of the next call, or the pointer the cycle stopped with. */
  function CurrentAfter(t: Result, i: nat): Ptr
    requires i < |t.calls|
  {
    if i + 1 < |t.calls| then Obj(t.calls[i + 1].obj) else t.final
  }

  /** The shape of every trace: calls are consumed one outcome each; the
      first call is on the starting object; after each call the current
      pointer is the one the outcome installs; the counter counts up within a
      pass (wrapping at SizeMax) and restarts after a caught `Runnable*`;
      the pointer is null at the end unless the script ran out first. */
  lemma {:induction false} TraceShape(current: Ptr, count: nat, script: seq<Outcome>)
    requires count <= SizeMax
    ensures var t := Trace(current, count, script); var n := |t.calls|;
      && n <= |script|
      && (forall i :: 0 <= i < n ==> 1 <= t.calls[i].count <= SizeMax)
      && (current == Null ==> n == 0 && t.final == Null)
      && (current != Null && script != [] ==> n > 0 && t.calls[0] == Call(current.id, Bump(count)))
      && (n == 0 ==> t.final == current)
      && (forall i :: 0 <= i < n ==> CurrentAfter(t, i) == Next(Obj(t.calls[i].obj), script[i]))
      && (forall i :: 0 <= i < n - 1 ==>
            t.calls[i + 1].count == if script[i].Returns? then Bump(t.calls[i].count) else 1)
      && (t.final != Null ==> n == |script|)
    decreases |script|
  {
    if current != Null && script != [] {
      var o := script[0];
      var c := Bump(count);
      var rest := script[1..];
      var next := Next(current, o);
      var nextCount := if o.Returns? then c else 0;
      TraceShape(next, nextCount, rest);
      var t := Trace(current, count, script);
      var r := Trace(next, nextCount, rest);
      assert t.calls == [Call(current.id, c)] + r.calls;
      forall i | 0 <= i < |t.calls|
        ensures CurrentAfter(t, i) == Next(Obj(t.calls[i].obj), script[i])
      {
        if i > 0 {
          assert CurrentAfter(t, i) == CurrentAfter(r, i - 1);
        }
      }
    }
  }

  /** When `run()` returns the object it was called on, the next call is on
      that same object and the counter keeps counting. */
  lemma SelfReturnRunsAgain(start: Ptr, script: seq<Outcome>, i: nat)
    requires var t := Cycle(start, script); i + 1 < |t.calls| && i < |script|
    requires script[i] == Returns(Obj(Cycle(start, script).calls[i].obj))
    ensures var t := Cycle(start, script);
      && t.calls[i + 1].obj == t.calls[i].obj
      && (t.calls[i + 1].count == t.calls[i].count + 1 || (t.calls[i].count == SizeMax && t.calls[i + 1].count == 1))
  {
    TraceShape(start, 0, script);
  }

  /** When `run()` returns another pointer, that pointer becomes current: the
      next call is on it, or the cycle stops with it. */
  lemma OtherReturnReplaces(start: Ptr, script: seq<Outcome>, i: nat, holder: Ptr)
    requires var t := Cycle(start, script); i < |t.calls| && i < |script| && script[i] == Returns(holder)
    requires holder != Obj(Cycle(start, script).calls[i].obj)
    ensures CurrentAfter(Cycle(start, script), i) == holder
  {
    TraceShape(start, 0, script);
  }

  /** A thrown `Runnable*` becomes current and, when cycling goes on, the
      counter restarts with a new pass. */
  lemma ThrownRunnableResumes(start: Ptr, script: seq<Outcome>, i: nat, thrown: Ptr)
    requires var t := Cycle(start, script); i < |t.calls| && i < |script| && script[i] == ThrowsRunnable(thrown)
    ensures var t := Cycle(start, script);
      && CurrentAfter(t, i) == thrown
      && (i + 1 < |t.calls| ==> t.calls[i + 1] == Call(thrown.id, 1))
  {
    TraceShape(start, 0, script);
  }

  /** Any other exception ends the cycle: no call follows and the pointer is
      null. */
  lemma ExceptionEndsCycle(start: Ptr, script: seq<Outcome>, i: nat)
    requires var t := Cycle(start, script); i < |t.calls| && i < |script|
    requires script[i] == ThrowsStdException || script[i] == ThrowsUnknown
    ensures var t := Cycle(start, script); i == |t.calls| - 1 && t.final == Null
  {
    TraceShape(start, 0, script);
  }

  /** The loops stop exactly when the current pointer becomes null: no call
      follows a null pointer, and a non-null pointer at the end means the
      script ran out. A null start makes no call at all. */
  lemma StopsExactlyOnNull(start: Ptr, script: seq<Outcome>)
    ensures var t := Cycle(start, script);
      && (forall i :: 0 <= i < |t.calls| && CurrentAfter(t, i) == Null ==> i == |t.calls| - 1)
      && (t.final != Null ==> |t.calls| == |script|)
      && (start == Null ==> t == Result([], Null))
  {
    TraceShape(start, 0, script);
  }
}
