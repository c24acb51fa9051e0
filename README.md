# TTL (Tea Tank Library) core, modelled in Dafny

This project models four small stateful components of TTL:

- **`ttl::Valman`** (`valman.dfy`, module `Valman`): a registry that maps names to
  floating-point values. It covers insert-or-overwrite, erase, clear and indexed access.
  Indexed access reads a name and creates it with value 0 when it is absent, or writes
  through the returned slot. The module also holds the two-character name/value marker
  `"||"`, the three character classifiers (left uninterpreted), and the editor's
  "last touched" cursor.
- **`ttl::Bool`** (`bool.dfy`, module `Bool`): a one-bit flag. Each fetch operation
  returns the old bit and then installs a new one.
- **`ttl::Runnable::cycle`** (`runnable.dfy`, module `Runnable`): the driver loop.
  It calls `run()` on the current object. When `run()` returns that same object, the
  object runs again. Any other returned pointer replaces the current one. A thrown
  `Runnable*` becomes the current object and starts a new pass with a fresh counter. Any
  other exception ends the cycle. Objects are abstract ids. The outcome of each `run()`
  call is taken from a script. The nested do/while loops are the method `RunCycle`,
  proved equal to the trace function `Cycle`. The lemmas about `Cycle` state the
  source's rules.
- **`ttl::Benchmark`** (`benchmark.dfy`, module `Benchmark`): a named benchmark. It has
  an iteration count, an average time in microseconds and a title. The model covers its
  constructors, copy and move construction and assignment, and `run`. The callable is a
  function `f` on an abstract state, and `run` applies it `iterations` times. The elapsed
  time of the loop is a parameter. The module also holds the unit ladder the stream
  output uses.

Where a member's body lives in a `.cpp` file this model does not cover (Valman's and
Bool's), the model follows the declaration. For Bool it also follows the doc comments.
Valman's header has no doc comments. The three classifiers are declared without bodies,
so the model keeps them as uninterpreted functions of one character.

The registry operations go beyond the header in two places, each the model's own choice:

- `Valman.Add` overwrites the value of a name already present. Inserting with
  `unordered_map::insert` would keep the old value.
- `Valman.Read` treats `operator()` like `operator[]`: an absent name is created with
  the value 0, and the call never throws.

The editor's cursor goes beyond the header in four places, each the model's own choice:

- `Editor.constructor` starts the cursor at "no entry".
- `Editor.Point` stands for the unseen editor code that sets `m_last` from a lookup.
- `Editor.EraseEntry` clears the cursor when it referred to the erased entry.
- `Editor.Clear` clears the cursor along with the registry.

Together they keep the cursor from ever referring to a missing entry. Each is listed
under "Left out".

Differences between the code and its documentation, where the model follows the code:

- `Benchmark::run`'s doc comment says the new time is added to the old one and halved.
  The code divides by the iteration count instead: (old average + elapsed) / iterations.
- The title-taking constructor's default title is `"Unnamed benchmark"`. The count-only
  constructor and a moved-from benchmark use `"Unnamed Benchmark"`, with a capital B.
- Both `Benchmark(const char* = …, size_t = 1)` and `Benchmark(size_t = 1)` can be
  called with no argument, so a C++ call `Benchmark()` is ambiguous. The model has one
  constructor of each kind, each with its own defaults.
- Move assignment copies the source's fields and then resets the source. Moving a
  benchmark into itself therefore leaves it reset. `MoveAssign` states exactly that.
- The doc comment of `Bool::operator=` says it returns the bool from before the set.
  The code stores the value and returns the object itself, and `Bool.Assign` does the
  same.

## Model

| member | source | states |
|---|---|---|
| `Valman.ShortcutIsTwoBars` | include/Valman/Valman.hpp:116 | the marker is exactly two characters, both vertical bars |
| `Valman.Valman.constructor` | include/Valman/Valman.hpp:47 | a new registry is empty |
| `Valman.Valman.Add` | include/Valman/Valman.hpp:58 | afterwards the name maps to the pair's value; the key set gains only that name; every other name keeps its value |
| `Valman.Valman.Erase` | include/Valman/Valman.hpp:60 | afterwards the name is absent; the key set loses only that name; every other name keeps its value |
| `Valman.Valman.Clear` | include/Valman/Valman.hpp:56 | afterwards the registry is empty |
| `Valman.Valman.Read` | include/Valman/Valman.hpp:52-53 | returns the stored value, or 0 for an absent name; the name is then present with that value and nothing else changes |
| `Valman.Valman.Write` | include/Valman/Valman.hpp:52-53 | writing through the slot leaves the name holding the written value and nothing else changed |
| `Valman.Editor.constructor` | include/Valman/Valman.hpp:75 | the editor refers to the given registry; the cursor is at the end and valid |
| `Valman.Editor.Point` | include/Valman/Valman.hpp:105 | the cursor refers to the named entry if present, else to the end; it never dangles |
| `Valman.Editor.Clear` | include/Valman/Valman.hpp:81 | the registry becomes empty and the cursor is cleared, so it does not dangle |
| `Valman.Editor.EraseEntry` | include/Valman/Valman.hpp:86 | the entry is erased and every other entry is kept; a cursor at that entry is cleared, any other cursor is kept; the cursor still never dangles |
| `Valman.AddThenRead` | include/Valman/Valman.hpp:52-58 | on any registry, after `add(name, v)` a read of `name` returns `v` |
| `Valman.WriteThenRead` | include/Valman/Valman.hpp:52-53 | on any registry, a value written through a name's slot is what a later read returns; another name reads as before (0 if absent) |
| `Valman.EraseThenRead` | include/Valman/Valman.hpp:60 | on any registry, after `erase(name)` a read of `name` gets the fresh 0 |
| `Valman.ClearThenRead` | include/Valman/Valman.hpp:56 | on any registry, after `clear` every name reads as the fresh 0 |
| `Bool.Bool.FromValue` | include/Bool/Bool.hpp:28-34 | the bit is initialised to the argument |
| `Bool.Bool.Reset` | include/Bool/Bool.hpp:36-42 | the bit becomes `state`, which defaults to true |
| `Bool.Bool.FetchAndEnable` | include/Bool/Bool.hpp:44-50 | returns the prior bit and leaves it true |
| `Bool.Bool.FetchAndDisable` | include/Bool/Bool.hpp:52-58 | returns the prior bit and leaves it false |
| `Bool.Bool.FetchAndFlip` | include/Bool/Bool.hpp:60-66 | returns the prior bit and leaves its negation |
| `Bool.Bool.FetchAndSet` | include/Bool/Bool.hpp:68-75 | returns the prior bit and leaves `state` |
| `Bool.Bool.Value` | include/Bool/Bool.hpp:77-83 | returns the stored bit and changes nothing |
| `Bool.Bool.Assign` | include/Bool/Bool.hpp:92-97 | stores the assigned value and returns the same object |
| `Bool.FlipTwice` | include/Bool/Bool.hpp:60-66 | two flips return the bit and then its negation, and restore the original bit |
| `Bool.EnableTwice` | include/Bool/Bool.hpp:44-50 | enable is idempotent: the second call reports true |
| `Bool.SetAgreesWithEnableDisable` | include/Bool/Bool.hpp:44-75 | `fetch_and_set(s)` returns and leaves the same as `fetch_and_enable` (s true) or `fetch_and_disable` (s false) |
| `Runnable.Bump` | include/Runnable/Runnable.hpp:53-58 | the counter wraps to 0 at `size_t` max before the increment, so it stays within 1 .. max and never overflows |
| `Runnable.RunCycle` | include/Runnable/Runnable.hpp:41-93 | the nested loops, with repeat-or-replace, exception catching and the per-pass counter, produce exactly the calls and final pointer of `Cycle` |
| `Runnable.TraceShape` | include/Runnable/Runnable.hpp:45-93 | each call uses one outcome; the first call is on the start object; after each call the current pointer is the one the outcome installs; the counter counts up in a pass and restarts at 1 after a thrown `Runnable*`; the pointer is null at the end unless the script ran out |
| `Runnable.SelfReturnRunsAgain` | include/Runnable/Runnable.hpp:62-66 | when `run()` returns the current object, the next call is on the same object and the counter goes on (or wraps) |
| `Runnable.OtherReturnReplaces` | include/Runnable/Runnable.hpp:67 | a different returned pointer becomes the current one |
| `Runnable.ThrownRunnableResumes` | include/Runnable/Runnable.hpp:78-82 | a thrown `Runnable*` becomes the current object; a following call starts a new pass with counter 1 |
| `Runnable.ExceptionEndsCycle` | include/Runnable/Runnable.hpp:83-92 | a `std::exception` or any other thrown value makes that call the last one and leaves the pointer null |
| `Runnable.StopsExactlyOnNull` | include/Runnable/Runnable.hpp:45-93 | a null start makes no `run()` call; no call follows a null current pointer; the cycle stops with a live pointer only when the script ran out |
| `Benchmark.Benchmark.constructor` | src/Benchmark/Benchmark.cpp:51-62 | title and count as given, average 0; the defaults are `"Unnamed benchmark"` and 1 |
| `Benchmark.Benchmark.FromIterations` | src/Benchmark/Benchmark.cpp:65-69 | count as given (default 1), average 0, title `"Unnamed Benchmark"` |
| `Benchmark.Benchmark.Copy` | src/Benchmark/Benchmark.cpp:72-76 | all three fields equal the source's; the source is unchanged |
| `Benchmark.Benchmark.Move` | src/Benchmark/Benchmark.cpp:79-88 | the new object takes the source's old fields; the source is reset to 1, 0, `"Unnamed Benchmark"` |
| `Benchmark.Benchmark.CopyAssign` | src/Benchmark/Benchmark.cpp:91-98 | all three fields equal the source's old ones; the source keeps its fields; returns the same object |
| `Benchmark.Benchmark.MoveAssign` | src/Benchmark/Benchmark.cpp:101-112 | a distinct source's old fields are taken; the source is reset to 1, 0, `"Unnamed Benchmark"`; returns the same object |
| `Benchmark.Benchmark.ResetAverageRunTime` | src/Benchmark/Benchmark.cpp:118-121 | the average becomes 0; the count and title are untouched |
| `Benchmark.Benchmark.SetIterations` | src/Benchmark/Benchmark.cpp:124-127 | the count becomes the argument; the average and title are untouched |
| `Benchmark.Benchmark.Run` | include/Benchmark/Benchmark.hpp:142-153 | the callable is applied exactly `iterations` times; the average becomes (old average + elapsed) / iterations; the count and title are untouched |
| `Benchmark.RepeatCountsCalls` | include/Benchmark/Benchmark.hpp:148-150 | a callable that counts its calls has counted exactly n after n repetitions |
| `Benchmark.RepeatAdds` | include/Benchmark/Benchmark.hpp:148-150 | m repetitions followed by n are m + n repetitions |
| `Benchmark.DisplayUnit` | src/Benchmark/Benchmark.cpp:148-157 | the unit chosen is the largest whose length in µs the average strictly exceeds (1 h = 3 600 000 000 µs, 1 min = 60 000 000, 1 s = 1 000 000, 1 ms = 1 000), else µs |
| `Benchmark.DisplayUnitMonotone` | src/Benchmark/Benchmark.cpp:148-157 | a larger average never gets a smaller unit |
| `Benchmark.DisplayUnitUnique` | src/Benchmark/Benchmark.cpp:148-157 | exactly one unit meets the threshold property, and it is the one chosen |
| `Benchmark.Benchmark.AverageRunTime` | src/Benchmark/Benchmark.cpp:130-133 | returns the average and changes nothing |
| `Benchmark.SuffixIdentifiesUnit` | src/Benchmark/Benchmark.cpp:148-157 | the five suffixes (h, min, s, ms, µs) are pairwise distinct |
| `Benchmark.PrintedSuffix` | src/Benchmark/Benchmark.cpp:148-157 | the suffix printed is "h" exactly above 3 600 000 000 µs, "min" above 60 000 000 up to that, "s" above 1 000 000 up to 60 000 000, "ms" above 1 000 up to 1 000 000, and "µs" at 1 000 or below |
| `Benchmark.DisplayedValueInRange` | src/Benchmark/Benchmark.cpp:148-157 | the printed number is above 1 for every unit but µs, and at most 1000 ms, 60 s or 60 min |

`Runnable.Cycle` is the trace function that the lemmas above describe.

## Left out

- Bool.Bool.constructor: promises nothing about the bit, because the source's default constructor leaves it uninitialised.
- Valman parsing, autocompletion, `find`, `add(string)`, the interactive editor (`edit`, `prompt`, `event`, `change`, `sqrt`, `pow`, help and listing), `load`/`store` and `extractFirstNumber`/`eraseLastAssigns`: their bodies are not part of this model. Modelling them would invent behaviour, and most of them are stream or file I/O.
- Valman.Valman.Add: the header does not say what happens when the name is already present. Overwriting its value is the model's choice; `unordered_map::insert` would keep the old value.
- Valman.Valman.Read: `operator()` has no `unordered_map` counterpart. The model takes it to act like `operator[]`: it creates a 0 entry for an absent name and never throws.
- Valman.IsNumeric, Valman.IsAssignment, Valman.IsOperator: their bodies are not part of this model. They are uninterpreted constants of type `char -> bool`, so the model promises only that each depends on the character alone.
- Valman.Editor.constructor: the header shows no initialiser for `m_last`. A default-constructed `unordered_map` iterator is singular, not `end()`. The model's choice is to start the cursor at `End` (no entry). The command starts empty, as a default `std::string` does.
- Valman.Editor.Point: the header declares no such operation. It stands for the unseen editor code that sets `m_last` from a lookup of a name.
- Valman.Editor.EraseEntry: `interfaceErase`'s body is not part of this model. Clearing the cursor when its entry is erased is the model's own choice.
- Valman.Editor.Clear: `Editor::clear`'s body is not part of this model. The model's own choice is that it empties the registry and clears the cursor.
- Valman.Editor: `interfaceAdd`, `interfaceLoad` and `interfaceStore` are not modelled, because their bodies are not part of this model.
- Valman.Editor: the cursor is modelled as a name, so it survives any insertion. In the source `m_last` is an iterator. An insertion that rehashes the map (`add`, or indexed access creating an entry) invalidates it, and `end()` too. The model does not capture that invalidation.
- Stored values and the benchmark average are `float` in the source and `real` here. Rounding is not modelled.
- Runnable.RunCycle: a cycle whose objects never return null runs forever in the source. The model stops when the script of outcomes runs out, and then reports the live pointer as `final`.
- Runnable.RunCycle: the `system_log` writes and the outer catches for a logger that fails to initialise are not modelled. Nor is the deletion of the old object by `unique_ptr::reset`; only the change of the current pointer is. A thrown `Runnable*` equal to the current object would be deleted by `reset`; the model only records the pointer.
- Benchmark.Benchmark.Run: the clock reads become the `elapsed` parameter, and `std::bind` forwarding becomes the function `f`. A count of 0 would divide by zero in the source, so the model requires a positive count.
- Benchmark.Benchmark.Run: `f` is total, so the model cannot throw. In the source, a callable that throws on call k leaves `run` after k calls, and the average is never updated.
- The text `operator<<` writes (title, tab, number formatting) is not modelled. Only the unit choice and the scaled number are.
- `Ips`, `Flare`, `JoinThread`, `Logger` and `File2Str` are not part of this model. They are timing, threading and file I/O wrappers.
