/** ttl::Benchmark: a named benchmark that calls a callable a set number of
    times and keeps a running average time in microseconds. Clock reads are
    parameters: `run` is given the elapsed time of its loop. */
module Benchmark {

  /** Values of the source's `std::size_t`. */
  newtype SizeT = n: int | 0 <= n < 0x1_0000_0000_0000_0000

  /** The title the constructors without one use, and that a moved-from
      benchmark gets. */
  const UnnamedTitle: string := "Unnamed Benchmark"

  /** The default title of the title-taking constructor; note the lower-case
      'b', unlike `UnnamedTitle`. */
  const DefaultTitle: string := "Unnamed benchmark"

  /** The callable applied `n` times to the state it acts on. */
  function Repeat<S>(f: S -> S, s: S, n: nat): S
  {
    if n == 0 then s else Repeat(f, f(s), n - 1)
  }

  class Benchmark {
    var iterations: SizeT
    var average: real
    var name: string

    /** The constructors taking a title (as a C string or a `std::string`):
        the given title and iteration count, and a zero average. */
    constructor (title: string := DefaultTitle, count: SizeT := 1)
      ensures iterations == count && average == 0.0 && name == title
    {
      iterations, average, name := count, 0.0, title;
    }

    /** The constructor taking only an iteration count. */
    constructor FromIterations(count: SizeT := 1)
      ensures iterations == count && average == 0.0 && name == UnnamedTitle
    {
      iterations, average, name := count, 0.0, UnnamedTitle;
    }

    /** Copy construction: all three fields equal the source's, which is left
        as it was. */
    constructor Copy(other: Benchmark)
      ensures iterations == other.iterations && average == other.average && name == other.name
      ensures unchanged(other)
    {
      iterations, average, name := other.iterations, other.average, other.name;
    }

    /** Move construction: the new benchmark takes the source's fields and the
        source is reset to one iteration, a zero average and the unnamed title. */
    constructor Move(other: Benchmark)
      modifies other
      ensures iterations == old(other.iterations) && average == old(other.average) && name == old(other.name)
      ensures other.iterations == 1 && other.average == 0.0 && other.name == UnnamedTitle
    {
      iterations, average, name := other.iterations, other.average, other.name;
      new;
      other.iterations := 1;
      other.average := 0.0;
      other.name := UnnamedTitle;
    }

    /** Copy assignment: this benchmark takes the source's fields; the source
        keeps its own. */
    method CopyAssign(other: Benchmark) returns (self: Benchmark)
      modifies this
      ensures iterations == old(other.iterations) && average == old(other.average) && name == old(other.name)
      ensures other.iterations == old(other.iterations) && other.average == old(other.average)
      ensures other.name == old(other.name)
      ensures self == this
    {
      iterations := other.iterations;
      average := other.average;
      name := other.name;
      self := this;
    }

    /** Move assignment: this benchmark takes the source's fields, then the
        source is reset. Moving a benchmark into itself therefore leaves it
        reset, as the source's code does. */
    method MoveAssign(other: Benchmark) returns (self: Benchmark)
      modifies this, other
      ensures other != this ==>
        iterations == old(other.iterations) && average == old(other.average) && name == old(other.name)
      ensures other.iterations == 1 && other.average == 0.0 && other.name == UnnamedTitle
      ensures self == this
    {
      iterations := other.iterations;
      average := other.average;
      name := other.name;
      other.iterations := 1;
      other.average := 0.0;
      other.name := UnnamedTitle;
      self := this;
    }

    /** Resets the average to zero; nothing else changes. */
    method ResetAverageRunTime()
      modifies this`average
      ensures average == 0.0
    {
      average := 0.0;
    }

    /** Sets the iteration count; nothing else changes. */
    method SetIterations(amount: SizeT)
      modifies this`iterations
      ensures iterations == amount
    {
      iterations := amount;
    }

    /** The average running time, in microseconds, read without change. */
    method AverageRunTime() returns (r: real)
      ensures r == average
    {
      r := average;
    }

    /** Calls `f` exactly `iterations` times on `s` and then folds the
        elapsed microseconds of the loop into the average:
        (old average + elapsed) / iterations. Only the average changes. */
    method Run<S>(f: S -> S, s: S, elapsed: int) returns (s': S)
      requires iterations > 0
      modifies this`average
      ensures s' == Repeat(f, s, iterations as nat)
      ensures average == (old(average) + elapsed as real) / iterations as real
    {
      s' := s;
      var i: SizeT := 0;
      while i < iterations
        invariant 0 <= i <= iterations
        invariant Repeat(f, s, iterations as nat) == Repeat(f, s', (iterations - i) as nat)
      {
        s' := f(s');
        i := i + 1;
      }
      average := (average + elapsed as real) / iterations as real;
    }
  }

  /** A callable that counts its own calls records exactly `n` calls after
      being repeated `n` times. */
  lemma {:induction false} RepeatCountsCalls(start: int, n: nat)
    ensures Repeat((calls: int) => calls + 1, start, n) == start + n
    decreases n
  {
    if n > 0 {
      RepeatCountsCalls(start + 1, n - 1);
    }
  }

  /** Repeating `m` times and then `n` times is repeating `m + n` times, so
      two runs call the callable as often as one run with the summed count. */
  lemma {:induction false} RepeatAdds<S>(f: S -> S, s: S, m: nat, n: nat)
    ensures Repeat(f, Repeat(f, s, m), n) == Repeat(f, s, m + n)
  {
    if m > 0 {
      RepeatAdds(f, f(s), m - 1, n);
    }
  }

  /** The units in which the average is displayed. */
  datatype TimeUnit = Micros | Millis | Seconds | Minutes | Hours

  /** Microseconds per unit. */
  function MicrosPer(u: TimeUnit): real
  {
    match u
    case Micros => 1.0
    case Millis => 1000.0
    case Seconds => 1000000.0
    case Minutes => 60000000.0
    case Hours => 3600000000.0
  }

  /** The order of the units, from smallest to largest. */
  function Rank(u: TimeUnit): nat
  {
    match u
    case Micros => 0
    case Millis => 1
    case Seconds => 2
    case Minutes => 3
    case Hours => 4
  }

  /** The unit the stream output picks: the largest unit whose length in
      microseconds the average strictly exceeds, microseconds otherwise. */
  function DisplayUnit(average: real): (u: TimeUnit)
    ensures u != Micros ==> MicrosPer(u) < average
    ensures forall v: TimeUnit :: Rank(v) > Rank(u) ==> average <= MicrosPer(v)
  {
    if average > 3600000000.0 then Hours
    else if average > 60000000.0 then Minutes
    else if average > 1000000.0 then Seconds
    else if average > 1000.0 then Millis
    else Micros
  }

  /** The suffix printed after the number. */
  function Suffix(u: TimeUnit): string
  {
    match u
    case Micros => "µs"
    case Millis => "ms"
    case Seconds => "s"
    case Minutes => "min"
    case Hours => "h"
  }

  /** The printed suffix names the unit: different units print different
      suffixes, so the text shown identifies the unit the ladder chose. */
  lemma SuffixIdentifiesUnit(u: TimeUnit, v: TimeUnit)
    requires Suffix(u) == Suffix(v)
    ensures u == v
  {
  }

  /** The suffix printed for an average follows the strict thresholds of
      the ladder. */
  lemma PrintedSuffix(average: real)
    ensures Suffix(DisplayUnit(average)) == "h" <==> average > 3600000000.0
    ensures Suffix(DisplayUnit(average)) == "min" <==> 60000000.0 < average <= 3600000000.0
    ensures Suffix(DisplayUnit(average)) == "s" <==> 1000000.0 < average <= 60000000.0
    ensures Suffix(DisplayUnit(average)) == "ms" <==> 1000.0 < average <= 1000000.0
    ensures Suffix(DisplayUnit(average)) == "µs" <==> average <= 1000.0
  {
  }

  /** The number printed: the average expressed in the chosen unit. */
  function DisplayedValue(average: real): real
  {
    average / MicrosPer(DisplayUnit(average))
  }

  /** The unit choice is monotone: a larger average never gets a smaller
      unit. */
  lemma DisplayUnitMonotone(a: real, b: real)
    requires a <= b
    ensures Rank(DisplayUnit(a)) <= Rank(DisplayUnit(b))
  {
  }

  /** The unit is determined by its threshold property: any unit `u` that the
      average exceeds (or `Micros`) and whose larger units it does not exceed
      is the one chosen. */
  lemma DisplayUnitUnique(average: real, u: TimeUnit)
    requires u != Micros ==> MicrosPer(u) < average
    requires forall v: TimeUnit :: Rank(v) > Rank(u) ==> average <= MicrosPer(v)
    ensures DisplayUnit(average) == u
  {
  }

  /** Every unit but microseconds shows a number above 1, and every unit but
      hours a number no larger than one of the next unit. */
  lemma DisplayedValueInRange(average: real)
    ensures var u := DisplayUnit(average);
      && (u != Micros ==> DisplayedValue(average) > 1.0)
      && (u == Millis ==> DisplayedValue(average) <= 1000.0)
      && (u == Seconds ==> DisplayedValue(average) <= 60.0)
      && (u == Minutes ==> DisplayedValue(average) <= 60.0)
  {
  }
}
