/** ttl::Valman: a registry of named floating-point values, and the state
    its editor keeps (the last entry touched). Stored values are reals. */
module Valman {

  /** The two-character literal that separates a name from its value. */
  const Shortcut: string := "||"

  /** The per-character classifiers. Only their declarations are part of this
      model, so they are left uninterpreted: each is a fixed function of the
      character alone, and reads no registry or editor state. */
  const IsNumeric: char -> bool
  const IsAssignment: char -> bool
  const IsOperator: char -> bool

  /** The marker is the two-character literal of two vertical bars. */
  lemma ShortcutIsTwoBars()
    ensures |Shortcut| == 2 && Shortcut[0] == '|' && Shortcut[1] == '|'
  {
  }

  class Valman {
    /** The registry: each name maps to exactly one value. */
    var registry: map<string, real>

    /** An empty registry. */
    constructor ()
      ensures registry == map[]
    {
      registry := map[];
    }

    /** Inserts the pair, overwriting the value of a name already present;
        every other name keeps its value. */
    method Add(entry: (string, real))
      modifies this
      ensures registry.Keys == old(registry).Keys + {entry.0}
      ensures registry[entry.0] == entry.1
      ensures forall k :: k in old(registry) && k != entry.0 ==> registry[k] == old(registry)[k]
    {
      registry := registry[entry.0 := entry.1];
    }

    /** Removes the name when present; every other name keeps its value. */
    method Erase(entry: string)
      modifies this
      ensures registry.Keys == old(registry).Keys - {entry}
      ensures forall k :: k in registry ==> registry[k] == old(registry)[k]
    {
      registry := registry - {entry};
    }

    /** Empties the registry. */
    method Clear()
      modifies this
      ensures registry == map[]
    {
      registry := map[];
    }

    /** Reading through `operator[]` / `operator()`: the value stored under
        the name; an absent name is first inserted with the value 0. */
    method Read(entry: string) returns (v: real)
      modifies this
      ensures v == (if entry in old(registry) then old(registry)[entry] else 0.0)
      ensures registry == old(registry)[entry := v]
    {
      if entry !in registry {
        registry := registry[entry := 0.0];
      }
      v := registry[entry];
    }

    /** Writing through the slot `operator[]` / `operator()` yields: the name
        (created if absent) now holds `v`; every other name keeps its value. */
    method Write(entry: string, v: real)
      modifies this
      ensures registry == old(registry)[entry := v]
    {
      registry := registry[entry := v];
    }
  }

  /** What `m_last` refers to: the end of the registry, or an entry. */
  datatype Cursor = End | At(name: string)

  /** The editor of one registry: the command being handled and the last
      entry touched. */
  class Editor {
    var valman: Valman
    var command: string
    var last: Cursor

    /** The cursor never refers to an entry that is not in the registry. */
    ghost predicate Valid()
      reads this, valman
    {
      last.At? ==> last.name in valman.registry
    }

    constructor (ptr: Valman)
      ensures valman == ptr && command == [] && last == End
      ensures Valid()
    {
      valman, command, last := ptr, [], End;
    }

    /** Moves the cursor to the entry of that name, or to the end when there
        is none (a lookup in the registry). */
    method Point(name: string)
      modifies this`last
      ensures last == (if name in valman.registry then At(name) else End)
      ensures Valid()
    {
      last := if name in valman.registry then At(name) else End;
    }

    /** Empties the registry through the editor; the cursor no longer has an
        entry to refer to and is cleared. */
    method Clear()
      modifies this`last, valman
      ensures valman.registry == map[]
      ensures last == End
      ensures Valid()
    {
      valman.Clear();
      last := End;
    }

    /** Erases an entry through the editor: the cursor is cleared when it
        referred to that entry, so it never dangles. */
    method EraseEntry(name: string)
      requires Valid()
      modifies this`last, valman
      ensures valman.registry.Keys == old(valman.registry).Keys - {name}
      ensures forall k :: k in valman.registry ==> valman.registry[k] == old(valman.registry)[k]
      ensures last == (if old(last) == At(name) then End else old(last))
      ensures Valid()
    {
      valman.Erase(name);
      if last == At(name) {
        last := End;
      }
    }
  }

  /** A value added under a name is what a later read of that name
      returns, whatever the registry held before. */
  method AddThenRead(vm: Valman, name: string, v: real) returns (r: real)
    modifies vm
    ensures r == v
  {
    vm.Add((name, v));
    r := vm.Read(name);
  }

  /** A value written through the slot of a name is what a later read of
      that name returns, while another name reads as it did before. */
  method WriteThenRead(vm: Valman, name: string, other: string, v: real) returns (r: real, s: real)
    requires name != other
    modifies vm
    ensures r == v
    ensures s == if other in old(vm.registry) then old(vm.registry)[other] else 0.0
  {
    vm.Write(name, v);
    r := vm.Read(name);
    s := vm.Read(other);
  }

  /** Erasing a name removes it: a read afterwards finds no value and gets the
      fresh zero, whatever was stored before. */
  method EraseThenRead(vm: Valman, name: string) returns (r: real)
    modifies vm
    ensures r == 0.0
  {
    vm.Erase(name);
    r := vm.Read(name);
  }

  /** After a clear, every name reads as zero. */
  method ClearThenRead(vm: Valman, name: string) returns (r: real)
    modifies vm
    ensures r == 0.0
  {
    vm.Clear();
    r := vm.Read(name);
  }
}
