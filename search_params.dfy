/** The browser's `URLSearchParams` object as the Programs page uses it:
    an ordered list of name/value pairs changed in place by `delete` and
    `set` (URL Standard, section 6.2 "Interface URLSearchParams"). */
module UrlParams {

  import opened Wrappers
  import Seqs

  datatype Param = Param(name: string, value: string)

  predicate NameIs(name: string, p: Param) { p.name == name }
  predicate NameIsNot(name: string, p: Param) { p.name != name }

  /** `get(name)`: the value of the first pair with that name. */
  function Lookup(entries: seq<Param>, name: string): (r: Option<string>)
  {
    match Seqs.Find(entries, (p: Param) => NameIs(name, p))
    case None => None
    case Some(p) => Some(p.value)
  }

  /** `delete(name)`: every pair with that name is removed. */
  function Deleted(entries: seq<Param>, name: string): (r: seq<Param>)
    ensures forall p :: p in r <==> p in entries && p.name != name
  {
    Seqs.Filter(entries, (p: Param) => NameIsNot(name, p))
  }

  /** `set(name, value)`: the first pair with that name takes the value and the
      later ones are removed; with no such pair, one is appended. */
  function WithValue(entries: seq<Param>, name: string, value: string): (r: seq<Param>)
    ensures Param(name, value) in r
    ensures forall p :: p in r && p.name != name <==> p in entries && p.name != name
  {
    if entries == [] then [Param(name, value)]
    else if entries[0].name == name then [Param(name, value)] + Deleted(entries[1..], name)
    else [entries[0]] + WithValue(entries[1..], name, value)
  }

  lemma {:induction false} LookupDeleted(entries: seq<Param>, name: string, other: string)
    ensures Lookup(Deleted(entries, name), name) == None
    ensures other != name ==> Lookup(Deleted(entries, name), other) == Lookup(entries, other)
  {
    if entries != [] {
      var e := entries[0];
      var head := if e.name != name then [e] else [];
      var rest := Deleted(entries[1..], name);
      assert Deleted(entries, name) == head + rest;
      LookupDeleted(entries[1..], name, other);
      Seqs.FindPrefix(head, rest, (p: Param) => NameIs(name, p));
      Seqs.FindPrefix(head, rest, (p: Param) => NameIs(other, p));
    }
  }

  lemma {:induction false} LookupWithValue(entries: seq<Param>, name: string, value: string, other: string)
    ensures Lookup(WithValue(entries, name, value), name) == Some(value)
    ensures other != name ==> Lookup(WithValue(entries, name, value), other) == Lookup(entries, other)
  {
    if entries != [] && entries[0].name != name {
      LookupWithValue(entries[1..], name, value, other);
    } else if entries != [] {
      LookupDeleted(entries[1..], name, other);
    }
  }

  class SearchParams {
    var entries: seq<Param>

    constructor (entries: seq<Param>)
      ensures this.entries == entries
    {
      this.entries := entries;
    }

    function Get(name: string): (r: Option<string>)
      reads this
    {
      Lookup(entries, name)
    }

    method Delete(name: string)
      modifies this
      ensures entries == Deleted(old(entries), name)
      ensures Get(name) == None
      ensures forall other :: other != name ==> Get(other) == old(Get(other))
    {
      forall other | other != name ensures Lookup(Deleted(entries, name), other) == Lookup(entries, other) {
        LookupDeleted(entries, name, other);
      }
      LookupDeleted(entries, name, name);
      entries := Deleted(entries, name);
    }

    method Set(name: string, value: string)
      modifies this
      ensures entries == WithValue(old(entries), name, value)
      ensures Get(name) == Some(value)
      ensures forall other :: other != name ==> Get(other) == old(Get(other))
    {
      forall other | other != name ensures Lookup(WithValue(entries, name, value), other) == Lookup(entries, other) {
        LookupWithValue(entries, name, value, other);
      }
      LookupWithValue(entries, name, value, name);
      entries := WithValue(entries, name, value);
    }
  }
}
