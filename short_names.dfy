/**
 * The module-level `map` object of index.js:17: short names to full addresses. It is written
 * on the shorten branch (index.js:40) and read on the serve branch (index.js:48), is shared by
 * every gateway in the process, and is never pruned.
 */
module ShortNames {
  import opened Wrappers
  import opened Routing

  /** The table after `map[ShortName(address)] = address`. */
  function Assign(table: map<string, string>, address: string): (t: map<string, string>)
    ensures ShortName(address) in t && t[ShortName(address)] == address
    ensures forall k :: k != ShortName(address) ==> (k in t <==> k in table)
    ensures forall k :: k in table && k != ShortName(address) ==> t[k] == table[k]
  {
    table[ShortName(address) := address]
  }

  /** `map[name]`, `undefined` when the name was never assigned. */
  function LookupIn(table: map<string, string>, name: string): (r: Option<string>)
    ensures r.Some? <==> name in table
    ensures r.Some? ==> r.value == table[name]
  {
    if name in table then Some(table[name]) else None
  }

  /** Looking up the short name of an address just assigned gives the address back. */
  lemma LookupAfterAssign(table: map<string, string>, address: string)
    ensures LookupIn(Assign(table, address), ShortName(address)) == Some(address)
  {
  }

  /** Assigning the same address twice is the same as assigning it once. */
  lemma AssignIdempotent(table: map<string, string>, address: string)
    ensures Assign(Assign(table, address), address) == Assign(table, address)
  {
  }

  /** A later address with the same short name silently replaces the earlier one. */
  lemma AssignOverwrites(table: map<string, string>, first: string, second: string)
    requires ShortName(first) == ShortName(second)
    ensures Assign(Assign(table, first), second) == Assign(table, second)
    ensures first != second ==> LookupIn(Assign(Assign(table, first), second), ShortName(first)) != Some(first)
  {
  }

  /** The process-wide table as an object; index.js creates it empty. */
  class NameTable {
    var entries: map<string, string>

    constructor ()
      ensures entries == map[]
    {
      entries := map[];
    }

    /** The shorten branch's write. */
    method Register(address: string)
      modifies this
      ensures entries == Assign(old(entries), address)
    {
      entries := entries[ShortName(address) := address];
    }

    /** The serve branch's read; it changes nothing. */
    method Lookup(name: string) returns (r: Option<string>)
      ensures r.Some? <==> name in entries
      ensures r.Some? ==> r.value == entries[name]
    {
      if name in entries {
        r := Some(entries[name]);
      } else {
        r := None;
      }
    }
  }
}
