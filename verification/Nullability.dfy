/** Rewriting 3.1 nullability to 3.0 (backend/src/openapiDocument.ts, `toOpenApi30`). */
module Nullability {
  import opened Prelude
  import opened JsonValues

  // ---- The idiom -----------------------------------------------------------------------------

  predicate IsNull(node: Json) {
    node.Object? && Get(node.entries, "type") == Some(Text("null"))
  }

  function Others(branches: seq<Json>): (r: seq<Json>)
    ensures |r| <= |branches|
    ensures forall b :: b in r ==> b in branches && !IsNull(b)
  {
    if branches == [] then []
    else Others(branches[..|branches| - 1]) + if IsNull(branches[|branches| - 1]) then [] else [branches[|branches| - 1]]
  }

  function Branches(node: Json): Option<seq<Json>> {
    if node.Object? && Has(node.entries, "anyOf") && Get(node.entries, "anyOf").value.Array?
    then Some(Get(node.entries, "anyOf").value.items) else None
  }

  /** One branch, and null: an optional value in 3.1. */
  predicate Idiom(node: Json) {
    var b := Branches(node);
    b.Some? && |Others(b.value)| == 1 && |b.value| > 1
  }

  function TheBranch(node: Json): Json
    requires Idiom(node)
  {
    Others(Branches(node).value)[0]
  }

  /** The text of an array index, as a spread array's keys have it. */
  function Decimal(n: nat): string
    ensures |Decimal(n)| > 0 && '0' <= Decimal(n)[0] <= '9'
  {
    if n < 10 then [('0' as int + n) as char] else Decimal(n / 10) + [('0' as int + n % 10) as char]
  }

  function Indexed(items: seq<Json>): seq<Entry> {
    if items == [] then [] else Indexed(items[..|items| - 1]) + [Entry(Decimal(|items| - 1), items[|items| - 1])]
  }

  function Spread(branch: Json): seq<Entry> {
    match branch
    case Object(entries) => entries
    case Array(items) => Indexed(items)
    case _ => []
  }

  predicate Primitive(node: Json) {
    !node.Object? && !node.Array?
  }

  /** The optional in 3.0's terms: a reference wrapped, anything else with its siblings' keys added. */
  function Merged(node: Json): Json
    requires Idiom(node)
  {
    var siblings, branch := Without(node.entries, "anyOf"), TheBranch(node);
    if branch.Object? && Has(branch.entries, "$ref")
    then Object(Put(Put(siblings, "nullable", Boolean(true)), "allOf", Array([branch])))
    else Object(AddMissing(Put(Spread(branch), "nullable", Boolean(true)), siblings))
  }

  // ---- Why the rewrite ends --------------------------------------------------------------------

  lemma {:induction false} ItemsSplit(branches: seq<Json>)
    requires |Others(branches)| == 1
    ensures SizeOfItems(branches) >= Size(Others(branches)[0]) + 2 * (|branches| - 1)
  {
    var front, last := branches[..|branches| - 1], branches[|branches| - 1];
    if IsNull(last) {
      NullHasAType(last);
      assert Others(branches) == Others(front);
      ItemsSplit(front);
    } else {
      AllNull(front);
    }
  }

  lemma {:induction false} AllNull(branches: seq<Json>)
    requires Others(branches) == []
    ensures SizeOfItems(branches) >= 2 * |branches|
  {
    if branches != [] {
      NullHasAType(branches[|branches| - 1]);
      AllNull(branches[..|branches| - 1]);
    }
  }

  lemma NullHasAType(node: Json)
    requires IsNull(node)
    ensures Size(node) >= 2
  {
  }

  lemma {:induction false} SpreadIsNoLarger(branch: Json)
    ensures SizeOfEntries(Spread(branch)) < Size(branch)
  {
    match branch
    case Array(items) => IndexedSize(items);
    case _ =>
  }

  lemma {:induction false} IndexedSize(items: seq<Json>)
    ensures SizeOfEntries(Indexed(items)) == SizeOfItems(items)
  {
    if items != [] {
      IndexedSize(items[..|items| - 1]);
      SizeAppend(Indexed(items[..|items| - 1]), Entry(Decimal(|items| - 1), items[|items| - 1]));
    }
  }

  /** A rewritten node has fewer values in it than the node it came from. */
  lemma MergedIsSmaller(node: Json)
    requires Idiom(node)
    ensures Size(Merged(node)) < Size(node)
  {
    var siblings, branch := Without(node.entries, "anyOf"), TheBranch(node);
    var b := Branches(node).value;
    ItemsSplit(b);
    SizeWithout(node.entries, "anyOf");
    assert Size(Array(b)) == 1 + SizeOfItems(b);
    if branch.Object? && Has(branch.entries, "$ref") {
      SizePut(siblings, "nullable", Boolean(true));
      SizePut(Put(siblings, "nullable", Boolean(true)), "allOf", Array([branch]));
      assert [branch][..0] == [] && SizeOfItems([branch]) == Size(branch);
    } else {
      SpreadIsNoLarger(branch);
      SizePut(Spread(branch), "nullable", Boolean(true));
      SizeAddMissing(Put(Spread(branch), "nullable", Boolean(true)), siblings);
    }
  }

  // ---- The rewrite -----------------------------------------------------------------------------

  /** `convert`; `None` where the program throws, a lone branch being no object to look for a `$ref` in. */
  function Convert(node: Json): Option<Json>
    decreases Size(node), 0
  {
    match node
    case Array(items) =>
      var r := ConvertItems(items);
      if r == None then None else Some(Array(r.value))
    case Object(entries) =>
      if Idiom(node) then
        if Primitive(TheBranch(node)) then None
        else
          MergedIsSmaller(node);
          Convert(Merged(node))
      else
        var r := ConvertEntries(entries);
        if r == None then None else Some(Object(r.value))
    case _ => Some(node)
  }

  function ConvertItems(items: seq<Json>): (r: Option<seq<Json>>)
    ensures r.Some? ==> |r.value| == |items|
    decreases SizeOfItems(items), 1, |items|
  {
    if items == [] then Some([])
    else
      var front, last := ConvertItems(items[..|items| - 1]), Convert(items[|items| - 1]);
      if front == None || last == None then None else Some(front.value + [last.value])
  }

  function ConvertEntries(entries: seq<Entry>): (r: Option<seq<Entry>>)
    ensures r.Some? ==> |r.value| == |entries| && forall i :: 0 <= i < |entries| ==> r.value[i].key == entries[i].key
    decreases SizeOfEntries(entries), 1, |entries|
  {
    if entries == [] then Some([])
    else
      var front, last := ConvertEntries(entries[..|entries| - 1]), Convert(entries[|entries| - 1].node);
      if front == None || last == None then None
      else Some(front.value + [Entry(entries[|entries| - 1].key, last.value)])
  }

  // ---- Everywhere in a value -------------------------------------------------------------------

  ghost predicate Everywhere(node: Json, p: Json -> bool) {
    && p(node)
    && match node
       case Array(items) => EveryItem(items, p)
       case Object(entries) => EveryEntry(entries, p)
       case _ => true
  }

  ghost predicate EveryItem(items: seq<Json>, p: Json -> bool) {
    items == [] || (EveryItem(items[..|items| - 1], p) && Everywhere(items[|items| - 1], p))
  }

  ghost predicate EveryEntry(entries: seq<Entry>, p: Json -> bool) {
    entries == [] || (EveryEntry(entries[..|entries| - 1], p) && Everywhere(entries[|entries| - 1].node, p))
  }

  lemma EveryEntryAppend(entries: seq<Entry>, e: Entry, p: Json -> bool)
    ensures EveryEntry(entries + [e], p) <==> EveryEntry(entries, p) && Everywhere(e.node, p)
  {
    assert (entries + [e])[..|entries|] == entries;
  }

  lemma {:induction false} EveryGet(entries: seq<Entry>, key: string, p: Json -> bool)
    requires EveryEntry(entries, p)
    ensures Has(entries, key) ==> Everywhere(Get(entries, key).value, p)
  {
    if entries != [] { EveryGet(entries[..|entries| - 1], key, p); }
  }

  lemma {:induction false} EveryWithout(entries: seq<Entry>, key: string, p: Json -> bool)
    requires EveryEntry(entries, p)
    ensures EveryEntry(Without(entries, key), p)
  {
    if entries != [] {
      var front, last := entries[..|entries| - 1], entries[|entries| - 1];
      EveryWithout(front, key, p);
      EveryEntryAppend(Without(front, key), last, p);
      if last.key == key { assert Without(entries, key) == Without(front, key); }
    }
  }

  lemma {:induction false} EveryPut(entries: seq<Entry>, key: string, node: Json, p: Json -> bool)
    requires EveryEntry(entries, p) && Everywhere(node, p)
    ensures EveryEntry(Put(entries, key, node), p)
  {
    if !Has(entries, key) {
      EveryEntryAppend(entries, Entry(key, node), p);
    } else {
      var front, last := entries[..|entries| - 1], entries[|entries| - 1];
      if Has(front, key) {
        EveryPut(front, key, node, p);
        EveryEntryAppend(Put(front, key, node), last, p);
      } else {
        EveryEntryAppend(front, Entry(key, node), p);
      }
    }
  }

  lemma {:induction false} EveryAddMissing(entries: seq<Entry>, others: seq<Entry>, p: Json -> bool)
    requires EveryEntry(entries, p) && EveryEntry(others, p)
    ensures EveryEntry(AddMissing(entries, others), p)
  {
    if others != [] {
      EveryAddMissing(entries, others[..|others| - 1], p);
      EveryEntryAppend(AddMissing(entries, others[..|others| - 1]), others[|others| - 1], p);
    }
  }

  lemma {:induction false} EveryIndexed(items: seq<Json>, p: Json -> bool)
    requires EveryItem(items, p)
    ensures EveryEntry(Indexed(items), p)
  {
    if items != [] {
      EveryIndexed(items[..|items| - 1], p);
      EveryEntryAppend(Indexed(items[..|items| - 1]), Entry(Decimal(|items| - 1), items[|items| - 1]), p);
    }
  }

  lemma {:induction false} EveryBranch(items: seq<Json>, p: Json -> bool)
    requires EveryItem(items, p)
    ensures forall b :: b in items ==> Everywhere(b, p)
  {
    if items != [] {
      EveryBranch(items[..|items| - 1], p);
      assert items == items[..|items| - 1] + [items[|items| - 1]];
    }
  }

  /** What holds everywhere in a node holds in all a rewrite keeps of it. */
  lemma EveryMerged(node: Json, p: Json -> bool)
    requires Idiom(node) && Everywhere(node, p) && p(Boolean(true)) && p(Merged(node))
    requires p(Array([TheBranch(node)]))
    ensures Everywhere(Merged(node), p)
  {
    var siblings, branch, b := Without(node.entries, "anyOf"), TheBranch(node), Branches(node).value;
    EveryWithout(node.entries, "anyOf", p);
    EveryGet(node.entries, "anyOf", p);
    EveryBranch(b, p);
    assert branch in b;
    if branch.Object? && Has(branch.entries, "$ref") {
      assert [branch][..0] == [] && EveryItem([branch], p);
      EveryPut(siblings, "nullable", Boolean(true), p);
      EveryPut(Put(siblings, "nullable", Boolean(true)), "allOf", Array([branch]), p);
    } else {
      if branch.Array? { EveryIndexed(branch.items, p); }
      EveryPut(Spread(branch), "nullable", Boolean(true), p);
      EveryAddMissing(Put(Spread(branch), "nullable", Boolean(true)), siblings, p);
    }
  }

  // ---- Everywhere the rewrite looks --------------------------------------------------------------

  /** `p` holds of every node the rewrite visits: where it merges a node, of the merged one and on from there. */
  ghost predicate Throughout(node: Json, p: Json -> bool)
    decreases Size(node), 0
  {
    && p(node)
    && if Idiom(node) then
         MergedIsSmaller(node);
         Throughout(Merged(node), p)
       else
         match node
         case Array(items) => ThroughoutItems(items, p)
         case Object(entries) => ThroughoutEntries(entries, p)
         case _ => true
  }

  ghost predicate ThroughoutItems(items: seq<Json>, p: Json -> bool)
    decreases SizeOfItems(items), 1, |items|
  {
    items == [] || (ThroughoutItems(items[..|items| - 1], p) && Throughout(items[|items| - 1], p))
  }

  ghost predicate ThroughoutEntries(entries: seq<Entry>, p: Json -> bool)
    decreases SizeOfEntries(entries), 1, |entries|
  {
    entries == [] || (ThroughoutEntries(entries[..|entries| - 1], p) && Throughout(entries[|entries| - 1].node, p))
  }

  // ---- The whole document -----------------------------------------------------------------------

  class OpenApiFile {
    var entries: seq<Entry>

    constructor (entries: seq<Entry>)
      ensures this.entries == entries
    {
      this.entries := entries;
    }

    /** Converts, in place, every value but the version. A throw leaves the values before it converted. */
    method ToOpenApi30() returns (finished: bool)
      modifies this
      ensures var before := Put(old(entries), "openapi", Text("3.0.3"));
              && |entries| == |before|
              && (finished <==> forall i :: 0 <= i < |before| && before[i].key != "openapi" ==> Convert(before[i].node).Some?)
              && forall i :: 0 <= i < |before| ==>
                   entries[i].key == before[i].key
                   && if before[i].key == "openapi" then entries[i].node == before[i].node
                      else finished ==> Convert(before[i].node) == Some(entries[i].node)
    {
      entries := Put(entries, "openapi", Text("3.0.3"));
      ghost var before := entries;
      for k := 0 to |entries|
        invariant |entries| == |before|
        invariant forall i :: k <= i < |before| ==> entries[i] == before[i]
        invariant forall i :: 0 <= i < k ==>
                    entries[i].key == before[i].key
                    && if before[i].key == "openapi" then entries[i].node == before[i].node
                       else Convert(before[i].node) == Some(entries[i].node)
      {
        if entries[k].key != "openapi" {
          var r := Convert(entries[k].node);
          if r == None {
            return false;
          }
          entries := entries[k := Entry(entries[k].key, r.value)];
        }
      }
      finished := true;
    }
  }
}
