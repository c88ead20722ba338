/** JSON values as the OpenAPI post-processing sees them: objects keep their keys in order. */
module JsonValues {
  import opened Prelude

  datatype Json =
    | Null
    | Boolean(truth: bool)
    | Number(value: real)
    | Text(text: string)
    | Array(items: seq<Json>)
    | Object(entries: seq<Entry>)

  datatype Entry = Entry(key: string, node: Json)

  // ---- Size ------------------------------------------------------------------------------

  function Size(node: Json): (n: nat)
    ensures n >= 1
  {
    match node
    case Array(items) => 1 + SizeOfItems(items)
    case Object(entries) => 1 + SizeOfEntries(entries)
    case _ => 1
  }

  function SizeOfItems(items: seq<Json>): nat {
    if items == [] then 0 else SizeOfItems(items[..|items| - 1]) + Size(items[|items| - 1])
  }

  function SizeOfEntries(entries: seq<Entry>): nat {
    if entries == [] then 0 else SizeOfEntries(entries[..|entries| - 1]) + Size(entries[|entries| - 1].node)
  }

  // ---- Objects ----------------------------------------------------------------------------

  /** The value under a key. */
  function Get(entries: seq<Entry>, key: string): Option<Json> {
    if entries == [] then None
    else
      var before, last := Get(entries[..|entries| - 1], key), entries[|entries| - 1];
      if before.Some? then before else if last.key == key then Some(last.node) else None
  }

  predicate Has(entries: seq<Entry>, key: string) {
    Get(entries, key).Some?
  }

  function Without(entries: seq<Entry>, key: string): seq<Entry> {
    if entries == [] then []
    else Without(entries[..|entries| - 1], key) + if entries[|entries| - 1].key == key then [] else [entries[|entries| - 1]]
  }

  /** Sets a key: in its place when it is there, behind the others when it is not. */
  function Put(entries: seq<Entry>, key: string, node: Json): seq<Entry> {
    if !Has(entries, key) then entries + [Entry(key, node)]
    else if Has(entries[..|entries| - 1], key) then Put(entries[..|entries| - 1], key, node) + [entries[|entries| - 1]]
    else entries[..|entries| - 1] + [Entry(key, node)]
  }

  /** Adds the entries whose keys are not there yet. */
  function AddMissing(entries: seq<Entry>, others: seq<Entry>): seq<Entry> {
    if others == [] then entries
    else
      var before, last := AddMissing(entries, others[..|others| - 1]), others[|others| - 1];
      if Has(before, last.key) then before else before + [last]
  }

  lemma GetAppend(entries: seq<Entry>, e: Entry, key: string)
    ensures Get(entries + [e], key)
            == if Has(entries, key) then Get(entries, key) else if e.key == key then Some(e.node) else None
  {
    assert (entries + [e])[..|entries|] == entries;
  }

  lemma SizeAppend(entries: seq<Entry>, e: Entry)
    ensures SizeOfEntries(entries + [e]) == SizeOfEntries(entries) + Size(e.node)
  {
    assert (entries + [e])[..|entries|] == entries;
  }

  lemma {:induction false} GetPut(entries: seq<Entry>, key: string, node: Json, k: string)
    ensures Get(Put(entries, key, node), k) == if k == key then Some(node) else Get(entries, k)
  {
    if !Has(entries, key) {
      GetAppend(entries, Entry(key, node), k);
    } else {
      var front, last := entries[..|entries| - 1], entries[|entries| - 1];
      if Has(front, key) {
        GetPut(front, key, node, k);
        GetAppend(Put(front, key, node), last, k);
      } else {
        GetAppend(front, Entry(key, node), k);
      }
    }
  }

  lemma {:induction false} GetWithout(entries: seq<Entry>, key: string, k: string)
    ensures Get(Without(entries, key), k) == if k == key then None else Get(entries, k)
  {
    if entries == [] {
    } else {
      var front, last := entries[..|entries| - 1], entries[|entries| - 1];
      GetWithout(front, key, k);
      GetAppend(Without(front, key), last, k);
      if last.key == key { assert Without(entries, key) == Without(front, key); }
    }
  }

  lemma {:induction false} GetAddMissing(entries: seq<Entry>, others: seq<Entry>, k: string)
    ensures Get(AddMissing(entries, others), k) == if Has(entries, k) then Get(entries, k) else Get(others, k)
  {
    if others == [] {
    } else {
      var front, last := others[..|others| - 1], others[|others| - 1];
      GetAddMissing(entries, front, k);
      GetAddMissing(entries, front, last.key);
      GetAppend(AddMissing(entries, front), last, k);
    }
  }

  lemma {:induction false} SizePut(entries: seq<Entry>, key: string, node: Json)
    ensures SizeOfEntries(Put(entries, key, node)) <= SizeOfEntries(entries) + Size(node)
  {
    if !Has(entries, key) {
      SizeAppend(entries, Entry(key, node));
    } else {
      var front, last := entries[..|entries| - 1], entries[|entries| - 1];
      if Has(front, key) {
        SizePut(front, key, node);
        SizeAppend(Put(front, key, node), last);
      } else {
        SizeAppend(front, Entry(key, node));
      }
    }
  }

  lemma {:induction false} SizeWithout(entries: seq<Entry>, key: string)
    ensures SizeOfEntries(Without(entries, key)) + (if Has(entries, key) then Size(Get(entries, key).value) else 0)
            <= SizeOfEntries(entries)
  {
    if entries == [] {
    } else {
      var front, last := entries[..|entries| - 1], entries[|entries| - 1];
      SizeWithout(front, key);
      SizeAppend(Without(front, key), last);
      if last.key == key { assert Without(entries, key) == Without(front, key); }
    }
  }

  lemma {:induction false} SizeAddMissing(entries: seq<Entry>, others: seq<Entry>)
    ensures SizeOfEntries(AddMissing(entries, others)) <= SizeOfEntries(entries) + SizeOfEntries(others)
  {
    if others == [] {
    } else {
      SizeAddMissing(entries, others[..|others| - 1]);
      SizeAppend(AddMissing(entries, others[..|others| - 1]), others[|others| - 1]);
    }
  }

  // ---- References -------------------------------------------------------------------------

  const PREFIX := "#/components/schemas/"

  predicate IsRef(e: Entry) {
    e.key == "$ref" && e.node.Text? && PREFIX <= e.node.text
  }

  /** The component schemas a value refers to, however deep. */
  function Refs(node: Json): set<string> {
    match node
    case Array(items) => RefsOfItems(items)
    case Object(entries) => RefsOfEntries(entries)
    case _ => {}
  }

  function RefsOfItems(items: seq<Json>): set<string> {
    if items == [] then {} else RefsOfItems(items[..|items| - 1]) + Refs(items[|items| - 1])
  }

  function RefsOfEntry(e: Entry): set<string> {
    if IsRef(e) then {e.node.text[|PREFIX|..]} else Refs(e.node)
  }

  function RefsOfEntries(entries: seq<Entry>): set<string> {
    if entries == [] then {} else RefsOfEntries(entries[..|entries| - 1]) + RefsOfEntry(entries[|entries| - 1])
  }

  /** A reference to a component schema names that schema and nothing else; other text refers to none. */
  lemma RefsOfAReference(name: string, text: string)
    ensures Refs(Object([Entry("$ref", Text("#/components/schemas/" + name))])) == {name}
    ensures !("#/components/schemas/" <= text) ==> Refs(Object([Entry("$ref", Text(text))])) == {}
    ensures Refs(Text("#/components/schemas/" + name)) == {}
  {
    var e, other := Entry("$ref", Text("#/components/schemas/" + name)), Entry("$ref", Text(text));
    assert [e][..0] == [] && [other][..0] == [];
    assert e.node.text[|PREFIX|..] == name;
    assert RefsOfEntries([e]) == RefsOfEntry(e) && RefsOfEntries([other]) == RefsOfEntry(other);
  }

  /** `collectRefs`: adds what it finds to the set it is given. */
  method CollectRefs(node: Json, into: set<string>) returns (refs: set<string>)
    ensures refs == into + Refs(node)
    decreases node
  {
    refs := into;
    match node
    case Array(items) =>
      for i := 0 to |items|
        invariant refs == into + RefsOfItems(items[..i])
      {
        assert items[..i + 1][..i] == items[..i];
        refs := CollectRefs(items[i], refs);
      }
      assert items[..|items|] == items;
    case Object(entries) =>
      for i := 0 to |entries|
        invariant refs == into + RefsOfEntries(entries[..i])
      {
        assert entries[..i + 1][..i] == entries[..i];
        var e := entries[i];
        if e.key == "$ref" && e.node.Text? && PREFIX <= e.node.text {
          refs := refs + {e.node.text[|PREFIX|..]};
        } else {
          refs := CollectRefs(e.node, refs);
        }
      }
      assert entries[..|entries|] == entries;
    case _ =>
  }
}
