/** What the nullability rewrite leaves, and when running it again changes nothing. */
module NullabilityLaws {
  import opened Prelude
  import opened JsonValues
  import opened Nullability
  import Pruning

  predicate NotIdiom(node: Json) {
    !Idiom(node)
  }

  /** No null type and `anyOf` in one node. */
  predicate Tidy(node: Json) {
    !(IsNull(node) && Has(node.entries, "anyOf"))
  }

  // ---- What conversion keeps of a node ---------------------------------------------------------

  lemma {:induction false} KindKept(node: Json)
    requires Convert(node).Some?
    ensures var y := Convert(node).value;
            (node.Object? <==> y.Object?) && (node.Array? <==> y.Array?) && (Primitive(node) ==> y == node)
    decreases Size(node)
  {
    if Idiom(node) {
      MergedIsSmaller(node);
      KindKept(Merged(node));
    }
  }

  lemma {:induction false} GetConverted(entries: seq<Entry>, key: string)
    requires ConvertEntries(entries).Some?
    ensures Get(ConvertEntries(entries).value, key) == if Has(entries, key) then Convert(Get(entries, key).value) else None
    ensures Has(entries, key) ==> Convert(Get(entries, key).value).Some?
  {
    if entries != [] {
      var front, last := entries[..|entries| - 1], entries[|entries| - 1];
      GetConverted(front, key);
      GetAppend(ConvertEntries(front).value, Entry(last.key, Convert(last.node).value), key);
    }
  }

  lemma {:induction false} IndicesAreNoKeys(items: seq<Json>, key: string)
    requires key != "" && !('0' <= key[0] <= '9')
    ensures Get(Indexed(items), key) == None
  {
    if items != [] {
      IndicesAreNoKeys(items[..|items| - 1], key);
      GetAppend(Indexed(items[..|items| - 1]), Entry(Decimal(|items| - 1), items[|items| - 1]), key);
    }
  }

  /** Which keys of a rewritten node come from where. */
  lemma GetMerged(node: Json, key: string)
    requires Idiom(node)
    ensures var siblings, branch := Without(node.entries, "anyOf"), TheBranch(node);
            Get(Merged(node).entries, key)
            == if branch.Object? && Has(branch.entries, "$ref") then
                 (if key == "allOf" then Some(Array([branch])) else if key == "nullable" then Some(Boolean(true)) else Get(siblings, key))
               else if key == "nullable" then Some(Boolean(true))
               else if Has(Spread(branch), key) then Get(Spread(branch), key)
               else Get(siblings, key)
    ensures Get(Without(node.entries, "anyOf"), key) == if key == "anyOf" then None else Get(node.entries, key)
  {
    var siblings, branch := Without(node.entries, "anyOf"), TheBranch(node);
    GetWithout(node.entries, "anyOf", key);
    if branch.Object? && Has(branch.entries, "$ref") {
      GetPut(siblings, "nullable", Boolean(true), key);
      GetPut(Put(siblings, "nullable", Boolean(true)), "allOf", Array([branch]), key);
    } else {
      GetPut(Spread(branch), "nullable", Boolean(true), key);
      GetAddMissing(Put(Spread(branch), "nullable", Boolean(true)), siblings, key);
    }
  }

  lemma MergedIsNotNull(node: Json)
    requires Idiom(node) && Tidy(node)
    ensures !IsNull(Merged(node))
  {
    GetMerged(node, "type");
    var branch := TheBranch(node);
    if branch.Array? { IndicesAreNoKeys(branch.items, "type"); }
    assert branch in Others(Branches(node).value);
  }

  // ---- Which optionals are left ------------------------------------------------------------------

  /** The node ends up as a null type. */
  predicate NullAfter(node: Json)
    decreases Size(node)
  {
    if Idiom(node) then
      MergedIsSmaller(node);
      NullAfter(Merged(node))
    else IsNull(node)
  }

  function OthersAfter(branches: seq<Json>): (r: seq<Json>)
    ensures |r| <= |branches|
  {
    if branches == [] then []
    else OthersAfter(branches[..|branches| - 1]) + if NullAfter(branches[|branches| - 1]) then [] else [branches[|branches| - 1]]
  }

  /** Once its branches are rewritten, one of them and null is left. */
  predicate Latent(node: Json) {
    var b := Branches(node);
    b.Some? && |OthersAfter(b.value)| == 1 && |b.value| > 1
  }

  /** Rewriting the node's branches makes no optional of it. */
  predicate Quiet(node: Json) {
    Idiom(node) || !Latent(node)
  }

  lemma {:induction false} NullAfterConversion(node: Json)
    requires Convert(node).Some?
    ensures IsNull(Convert(node).value) <==> NullAfter(node)
    decreases Size(node)
  {
    if Idiom(node) {
      MergedIsSmaller(node);
      NullAfterConversion(Merged(node));
    } else if node.Object? {
      GetConverted(node.entries, "type");
      if Has(node.entries, "type") { KindKept(Get(node.entries, "type").value); }
    } else {
      KindKept(node);
    }
  }

  lemma OthersAppend(items: seq<Json>, item: Json)
    ensures Others(items + [item]) == if IsNull(item) then Others(items) else Others(items) + [item]
  {
    assert (items + [item])[..|items|] == items;
  }

  lemma {:induction false} OthersAfterConversion(items: seq<Json>)
    requires ConvertItems(items).Some?
    ensures |Others(ConvertItems(items).value)| == |OthersAfter(items)|
  {
    if items != [] {
      var front, last := items[..|items| - 1], items[|items| - 1];
      OthersAfterConversion(front);
      NullAfterConversion(last);
      OthersAppend(ConvertItems(front).value, Convert(last).value);
    }
  }

  lemma EveryItemAppend(items: seq<Json>, item: Json, p: Json -> bool)
    ensures EveryItem(items + [item], p) <==> EveryItem(items, p) && Everywhere(item, p)
  {
    assert (items + [item])[..|items|] == items;
  }

  lemma BranchesConverted(entries: seq<Entry>)
    requires ConvertEntries(entries).Some?
    ensures var b := Branches(Object(entries));
            && Branches(Object(ConvertEntries(entries).value)) == (if b == None then None else ConvertItems(b.value))
            && (b.Some? ==> ConvertItems(b.value).Some?)
  {
    GetConverted(entries, "anyOf");
    if Has(entries, "anyOf") {
      hide ConvertItems, ConvertEntries, Get;
      KindKept(Get(entries, "anyOf").value);
    }
  }

  /** A rebuilt object is an optional exactly when the object it was rebuilt from was a latent one. */
  lemma RebuiltIsIdiomIfLatent(entries: seq<Entry>)
    requires ConvertEntries(entries).Some?
    ensures Idiom(Object(ConvertEntries(entries).value)) <==> Latent(Object(entries))
  {
    hide Branches, ConvertEntries, ConvertItems, Others, OthersAfter;
    BranchesConverted(entries);
    var b := Branches(Object(entries));
    if b.Some? { OthersAfterConversion(b.value); }
  }

  /** An optional is left somewhere exactly when the rewrite meets a latent one. */
  lemma {:induction false} NoIdiomIsLeftIfQuiet(node: Json)
    requires Convert(node).Some?
    ensures Everywhere(Convert(node).value, NotIdiom) <==> Throughout(node, Quiet)
    decreases Size(node), 0
  {
    if Idiom(node) {
      MergedIsSmaller(node);
      NoIdiomIsLeftIfQuiet(Merged(node));
    } else if node.Object? {
      RebuiltIsIdiomIfLatent(node.entries);
      QuietEntries(node.entries);
    } else if node.Array? {
      QuietItems(node.items);
    }
  }

  lemma {:induction false} QuietItems(items: seq<Json>)
    requires ConvertItems(items).Some?
    ensures EveryItem(ConvertItems(items).value, NotIdiom) <==> ThroughoutItems(items, Quiet)
    decreases SizeOfItems(items), 1, |items|
  {
    if items != [] {
      var front, last := items[..|items| - 1], items[|items| - 1];
      QuietItems(front);
      NoIdiomIsLeftIfQuiet(last);
      EveryItemAppend(ConvertItems(front).value, Convert(last).value, NotIdiom);
    }
  }

  lemma {:induction false} QuietEntries(entries: seq<Entry>)
    requires ConvertEntries(entries).Some?
    ensures EveryEntry(ConvertEntries(entries).value, NotIdiom) <==> ThroughoutEntries(entries, Quiet)
    decreases SizeOfEntries(entries), 1, |entries|
  {
    if entries != [] {
      var front, last := entries[..|entries| - 1], entries[|entries| - 1];
      QuietEntries(front);
      NoIdiomIsLeftIfQuiet(last.node);
      EveryEntryAppend(ConvertEntries(front).value, Entry(last.key, Convert(last.node).value), NotIdiom);
    }
  }

  // ---- Tidy documents -----------------------------------------------------------------------------

  lemma {:induction false} TidyNullAfter(node: Json)
    requires Everywhere(node, Tidy)
    ensures NullAfter(node) <==> IsNull(node)
    decreases Size(node)
  {
    if Idiom(node) {
      MergedIsSmaller(node);
      MergedIsNotNull(node);
      EveryMerged(node, Tidy);
      TidyNullAfter(Merged(node));
    }
  }

  lemma {:induction false} TidyOthersAfter(items: seq<Json>)
    requires EveryItem(items, Tidy)
    ensures OthersAfter(items) == Others(items)
  {
    if items != [] {
      TidyOthersAfter(items[..|items| - 1]);
      TidyNullAfter(items[|items| - 1]);
    }
  }

  lemma TidyIsNotLatent(entries: seq<Entry>)
    requires EveryEntry(entries, Tidy)
    ensures Latent(Object(entries)) <==> Idiom(Object(entries))
  {
    EveryGet(entries, "anyOf", Tidy);
    if Has(entries, "anyOf") && Get(entries, "anyOf").value.Array? { TidyOthersAfter(Get(entries, "anyOf").value.items); }
  }

  /** Where no node has both a null type and `anyOf`, no optional is latent. */
  lemma {:induction false} TidyIsQuiet(node: Json)
    requires Everywhere(node, Tidy)
    ensures Throughout(node, Quiet)
    decreases Size(node), 0
  {
    if Idiom(node) {
      MergedIsSmaller(node);
      MergedIsNotNull(node);
      EveryMerged(node, Tidy);
      TidyIsQuiet(Merged(node));
    } else if node.Object? {
      TidyIsNotLatent(node.entries);
      TidyEntries(node.entries);
    } else if node.Array? {
      TidyItems(node.items);
    }
  }

  lemma {:induction false} TidyItems(items: seq<Json>)
    requires EveryItem(items, Tidy)
    ensures ThroughoutItems(items, Quiet)
    decreases SizeOfItems(items), 1, |items|
  {
    if items != [] {
      TidyItems(items[..|items| - 1]);
      TidyIsQuiet(items[|items| - 1]);
    }
  }

  lemma {:induction false} TidyEntries(entries: seq<Entry>)
    requires EveryEntry(entries, Tidy)
    ensures ThroughoutEntries(entries, Quiet)
    decreases SizeOfEntries(entries), 1, |entries|
  {
    if entries != [] {
      TidyEntries(entries[..|entries| - 1]);
      TidyIsQuiet(entries[|entries| - 1].node);
    }
  }

  /** In a document where no node has both a null type and `anyOf`, the rewrite leaves no optional in 3.1's terms. */
  lemma NoIdiomIsLeft(node: Json)
    requires Everywhere(node, Tidy) && Convert(node).Some?
    ensures Everywhere(Convert(node).value, NotIdiom)
  {
    TidyIsQuiet(node);
    NoIdiomIsLeftIfQuiet(node);
  }

  // ---- The rewrite's fixed points ------------------------------------------------------------------

  lemma {:induction false} UnchangedWithoutIdiom(node: Json)
    requires Everywhere(node, NotIdiom)
    ensures Convert(node) == Some(node)
    decreases Size(node), 0
  {
    if node.Object? { UnchangedEntries(node.entries); } else if node.Array? { UnchangedItems(node.items); }
  }

  lemma {:induction false} UnchangedItems(items: seq<Json>)
    requires EveryItem(items, NotIdiom)
    ensures ConvertItems(items) == Some(items)
    decreases SizeOfItems(items), 1, |items|
  {
    if items != [] {
      UnchangedItems(items[..|items| - 1]);
      UnchangedWithoutIdiom(items[|items| - 1]);
      assert items == items[..|items| - 1] + [items[|items| - 1]];
    }
  }

  lemma {:induction false} UnchangedEntries(entries: seq<Entry>)
    requires EveryEntry(entries, NotIdiom)
    ensures ConvertEntries(entries) == Some(entries)
    decreases SizeOfEntries(entries), 1, |entries|
  {
    if entries != [] {
      UnchangedEntries(entries[..|entries| - 1]);
      UnchangedWithoutIdiom(entries[|entries| - 1].node);
      assert entries == entries[..|entries| - 1] + [entries[|entries| - 1]];
    }
  }

  /** Conversion never adds values, and removes some wherever there was an optional. */
  lemma {:induction false} ConversionShrinks(node: Json)
    requires Convert(node).Some?
    ensures Size(Convert(node).value) <= Size(node)
    ensures !Everywhere(node, NotIdiom) ==> Size(Convert(node).value) < Size(node)
    decreases Size(node), 0
  {
    if Idiom(node) {
      MergedIsSmaller(node);
      ConversionShrinks(Merged(node));
    } else if node.Object? {
      EntriesShrink(node.entries);
    } else if node.Array? {
      ItemsShrink(node.items);
    }
  }

  lemma {:induction false} ItemsShrink(items: seq<Json>)
    requires ConvertItems(items).Some?
    ensures SizeOfItems(ConvertItems(items).value) <= SizeOfItems(items)
    ensures !EveryItem(items, NotIdiom) ==> SizeOfItems(ConvertItems(items).value) < SizeOfItems(items)
    decreases SizeOfItems(items), 1, |items|
  {
    if items != [] {
      var front, last := items[..|items| - 1], items[|items| - 1];
      ItemsShrink(front);
      ConversionShrinks(last);
      var r := ConvertItems(front).value;
      assert (r + [Convert(last).value])[..|r|] == r;
    }
  }

  lemma {:induction false} EntriesShrink(entries: seq<Entry>)
    requires ConvertEntries(entries).Some?
    ensures SizeOfEntries(ConvertEntries(entries).value) <= SizeOfEntries(entries)
    ensures !EveryEntry(entries, NotIdiom) ==> SizeOfEntries(ConvertEntries(entries).value) < SizeOfEntries(entries)
    decreases SizeOfEntries(entries), 1, |entries|
  {
    if entries != [] {
      var front, last := entries[..|entries| - 1], entries[|entries| - 1];
      EntriesShrink(front);
      ConversionShrinks(last.node);
      SizeAppend(ConvertEntries(front).value, Entry(last.key, Convert(last.node).value));
    }
  }

  /** The rewrite changes nothing exactly where there is no optional in 3.1's terms. */
  lemma FixedIffNoIdiom(node: Json)
    ensures Convert(node) == Some(node) <==> Everywhere(node, NotIdiom)
  {
    if Everywhere(node, NotIdiom) {
      UnchangedWithoutIdiom(node);
    } else if Convert(node) == Some(node) {
      ConversionShrinks(node);
    }
  }

  /**
   * Rewriting twice is rewriting once exactly when the first rewrite meets no latent optional: no `anyOf` of
   * several branches of which exactly one does not end up a null type. All of it is read off the document.
   */
  lemma RewriteIsIdempotentIffQuiet(node: Json)
    requires Convert(node).Some?
    ensures Convert(Convert(node).value) == Convert(node) <==> Throughout(node, Quiet)
  {
    NoIdiomIsLeftIfQuiet(node);
    FixedIffNoIdiom(Convert(node).value);
  }

  /** In particular on documents where no node has both a null type and `anyOf`. */
  lemma RewriteIsIdempotent(node: Json)
    requires Everywhere(node, Tidy) && Convert(node).Some?
    ensures Convert(Convert(node).value) == Convert(node)
  {
    TidyIsQuiet(node);
    RewriteIsIdempotentIffQuiet(node);
  }

  // ---- What an optional is ---------------------------------------------------------------------------

  /** The schema of null: an object whose type says so. */
  predicate SaysNull(node: Json) {
    node.Object? && Has(node.entries, "type") && Get(node.entries, "type").value == Text("null")
  }

  ghost predicate EveryNull(branches: seq<Json>) {
    forall j :: 0 <= j < |branches| ==> SaysNull(branches[j])
  }

  lemma OneMoreBranch(front: seq<Json>, last: Json, i: int)
    ensures EveryNull(front + [last]) <==> EveryNull(front) && SaysNull(last)
    ensures OnlyOther(front + [last], i)
            <==> if SaysNull(last) then OnlyOther(front, i) else i == |front| && EveryNull(front)
  {
    hide SaysNull;
    var branches := front + [last];
    assert branches[|front|] == last && forall j :: 0 <= j < |front| ==> branches[j] == front[j];
  }

  lemma SaysNullIsNull(node: Json)
    ensures SaysNull(node) <==> IsNull(node)
  {
  }

  lemma {:induction false} OthersAre(branches: seq<Json>)
    ensures Others(branches) == [] <==> EveryNull(branches)
    ensures |Others(branches)| == 1 <==> exists i :: OnlyOther(branches, i)
    ensures forall i :: OnlyOther(branches, i) ==> Others(branches) == [branches[i]]
  {
    if branches != [] {
      var n := |branches| - 1;
      var front, last := branches[..n], branches[n];
      assert branches == front + [last];
      OthersAre(front);
      SaysNullIsNull(last);
      forall i ensures OnlyOther(branches, i) <==> if SaysNull(last) then OnlyOther(front, i) else i == n && EveryNull(front) {
        OneMoreBranch(front, last, i);
      }
      OneMoreBranch(front, last, n);
      hide SaysNull, IsNull, EveryNull;
      forall i | OnlyOther(branches, i) ensures 0 <= i <= n && (i < n ==> branches[i] == front[i]) { }
      hide OnlyOther;
    }
  }

  /** Every branch but this one is the null schema, and this one is not. */
  ghost predicate OnlyOther(branches: seq<Json>, i: int) {
    0 <= i < |branches| && !SaysNull(branches[i]) && forall j :: 0 <= j < |branches| && j != i ==> SaysNull(branches[j])
  }

  /** An optional is an `anyOf` of several branches, all but one of them the null schema; that one is its branch. */
  lemma OptionalIsOneBranchAndNull(node: Json)
    ensures Idiom(node) <==>
              && node.Object? && Has(node.entries, "anyOf") && Get(node.entries, "anyOf").value.Array?
              && var b := Get(node.entries, "anyOf").value.items;
                 |b| > 1 && exists i :: OnlyOther(b, i)
    ensures Idiom(node) ==> var b := Get(node.entries, "anyOf").value.items; exists i :: OnlyOther(b, i) && TheBranch(node) == b[i]
  {
    if node.Object? && Has(node.entries, "anyOf") && Get(node.entries, "anyOf").value.Array? {
      OthersAre(Get(node.entries, "anyOf").value.items);
    }
  }

  /** The number a text of digits writes. */
  function NumberOf(digits: string): int {
    if digits == [] then 0 else NumberOf(digits[..|digits| - 1]) * 10 + (digits[|digits| - 1] as int - '0' as int)
  }

  lemma {:induction false} DecimalReadsBack(n: nat)
    ensures NumberOf(Decimal(n)) == n
  {
    if n < 10 {
      assert NumberOf([]) == 0;
    } else {
      DecimalReadsBack(n / 10);
      assert Decimal(n)[..|Decimal(n)| - 1] == Decimal(n / 10);
    }
  }

  /** A lone branch that is an array is spread under its indices. */
  lemma {:induction false} SpreadArrayKeepsItems(items: seq<Json>, i: nat)
    requires i < |items|
    ensures Get(Spread(Array(items)), Decimal(i)) == Some(items[i])
  {
    IndexedHas(items, i);
  }

  lemma {:induction false} IndexedHas(items: seq<Json>, i: nat)
    ensures Get(Indexed(items), Decimal(i)) == if i < |items| then Some(items[i]) else None
  {
    if items != [] {
      var n := |items| - 1;
      IndexedHas(items[..n], i);
      GetAppend(Indexed(items[..n]), Entry(Decimal(n), items[n]), Decimal(i));
      DecimalReadsBack(i);
      DecimalReadsBack(n);
    }
  }

  // ---- Optionals become nullable ---------------------------------------------------------------------

  /** An optional comes out marked nullable; an optional reference comes out wrapped. */
  lemma {:induction false} OptionalBecomesNullable(node: Json)
    requires Idiom(node) && Convert(node).Some?
    ensures var y := Convert(node).value;
            && y.Object? && Get(y.entries, "nullable") == Some(Boolean(true))
            && (TheBranch(node).Object? && Has(TheBranch(node).entries, "$ref") ==>
                  Get(y.entries, "allOf") == Convert(Array([TheBranch(node)])) && !Has(y.entries, "anyOf"))
    decreases Size(node)
  {
    var m := Merged(node);
    MergedIsSmaller(node);
    GetMerged(node, "nullable");
    GetMerged(node, "allOf");
    GetMerged(node, "anyOf");
    KindKept(node);
    if Idiom(m) {
      OptionalBecomesNullable(m);
    } else {
      GetConverted(m.entries, "nullable");
      GetConverted(m.entries, "allOf");
      GetConverted(m.entries, "anyOf");
    }
  }

  // ---- When it throws ------------------------------------------------------------------------------

  /** A lone branch is an object or an array. */
  predicate Convertible(node: Json) {
    Idiom(node) ==> !Primitive(TheBranch(node))
  }

  /** The rewrite throws exactly when it meets an optional whose lone branch is no object or array. */
  lemma {:induction false} RewriteSucceedsIffConvertible(node: Json)
    ensures Convert(node).Some? <==> Throughout(node, Convertible)
    decreases Size(node), 0
  {
    if Idiom(node) {
      MergedIsSmaller(node);
      RewriteSucceedsIffConvertible(Merged(node));
    } else if node.Object? {
      EntriesSucceed(node.entries);
    } else if node.Array? {
      ItemsSucceed(node.items);
    }
  }

  lemma {:induction false} ItemsSucceed(items: seq<Json>)
    ensures ConvertItems(items).Some? <==> ThroughoutItems(items, Convertible)
    decreases SizeOfItems(items), 1, |items|
  {
    if items != [] {
      ItemsSucceed(items[..|items| - 1]);
      RewriteSucceedsIffConvertible(items[|items| - 1]);
    }
  }

  lemma {:induction false} EntriesSucceed(entries: seq<Entry>)
    ensures ConvertEntries(entries).Some? <==> ThroughoutEntries(entries, Convertible)
    decreases SizeOfEntries(entries), 1, |entries|
  {
    if entries != [] {
      EntriesSucceed(entries[..|entries| - 1]);
      RewriteSucceedsIffConvertible(entries[|entries| - 1].node);
    }
  }

  lemma MergedIsConvertible(node: Json)
    requires Idiom(node) && Everywhere(node, Convertible)
    ensures Convertible(Merged(node))
  {
    var branch, b := TheBranch(node), Branches(node).value;
    GetMerged(node, "anyOf");
    EveryGet(node.entries, "anyOf", Convertible);
    EveryBranch(b, Convertible);
    assert branch in b;
    if branch.Array? { IndicesAreNoKeys(branch.items, "anyOf"); }
    if branch.Object? && !Has(branch.entries, "$ref") { assert Branches(Merged(node)) == Branches(branch); }
  }

  /** In particular it throws on no document whose every optional has an object or array for its branch. */
  lemma {:induction false} RewriteSucceeds(node: Json)
    requires Everywhere(node, Convertible)
    ensures Convert(node).Some?
    decreases Size(node), 0
  {
    if Idiom(node) {
      MergedIsSmaller(node);
      MergedIsConvertible(node);
      EveryMerged(node, Convertible);
      RewriteSucceeds(Merged(node));
    } else if node.Object? {
      EveryEntrySucceeds(node.entries);
    } else if node.Array? {
      EveryItemSucceeds(node.items);
    }
  }

  lemma {:induction false} EveryItemSucceeds(items: seq<Json>)
    requires EveryItem(items, Convertible)
    ensures ConvertItems(items).Some?
    decreases SizeOfItems(items), 1, |items|
  {
    if items != [] {
      EveryItemSucceeds(items[..|items| - 1]);
      RewriteSucceeds(items[|items| - 1]);
    }
  }

  lemma {:induction false} EveryEntrySucceeds(entries: seq<Entry>)
    requires EveryEntry(entries, Convertible)
    ensures ConvertEntries(entries).Some?
    decreases SizeOfEntries(entries), 1, |entries|
  {
    if entries != [] {
      EveryEntrySucceeds(entries[..|entries| - 1]);
      RewriteSucceeds(entries[|entries| - 1].node);
    }
  }

  // ---- Where once is not enough ------------------------------------------------------------------------

  const NULL := Object([Entry("type", Text("null"))])
  const STRING := Object([Entry("type", Text("string"))])
  const NULLABLE := Object([Entry("type", Text("string")), Entry("nullable", Boolean(true))])

  function AnyOf(branches: seq<Json>): Json {
    Object([Entry("anyOf", Array(branches))])
  }

  /** A null type beside an optional: rewritten, it stops being null. */
  const HIDDEN := Object([Entry("type", Text("null")), Entry("anyOf", Array([NULL, STRING]))])

  lemma GetOne(e: Entry, key: string)
    ensures Get([e], key) == if e.key == key then Some(e.node) else None
  {
    assert [] + [e] == [e];
    GetAppend([], e, key);
  }

  lemma GetTwo(a: Entry, b: Entry, key: string)
    ensures Get([a, b], key) == if a.key == key then Some(a.node) else if b.key == key then Some(b.node) else None
  {
    assert [a] + [b] == [a, b];
    GetOne(a, key);
    GetAppend([a], b, key);
  }

  lemma EveryTwo(a: Entry, b: Entry, p: Json -> bool)
    ensures EveryEntry([a], p) <==> Everywhere(a.node, p)
    ensures EveryEntry([a, b], p) <==> Everywhere(a.node, p) && Everywhere(b.node, p)
  {
    assert [] + [a] == [a] && [a] + [b] == [a, b];
    EveryEntryAppend([], a, p);
    EveryEntryAppend([a], b, p);
  }

  lemma OthersTwo(a: Json, b: Json)
    ensures Others([a, b]) == if IsNull(a) then (if IsNull(b) then [] else [b]) else if IsNull(b) then [a] else [a, b]
  {
    hide IsNull;
    assert [] + [a] == [a] && [a] + [b] == [a, b] && [] + [b] == [b];
    assert Others([]) == [];
    OthersAppend([], a);
    OthersAppend([a], b);
  }

  lemma ConvertTwo(a: Json, b: Json)
    requires Convert(a).Some? && Convert(b).Some?
    ensures Convert(Array([a, b])) == Some(Array([Convert(a).value, Convert(b).value]))
  {
    assert [a, b][..1] == [a] && [a][..0] == [];
    var none: seq<Json> := [];
    assert ConvertItems(none) == Some([]);
    assert none + [Convert(a).value] == [Convert(a).value];
    assert ConvertItems([a]) == Some([Convert(a).value]) by { hide Convert; }
    assert [Convert(a).value] + [Convert(b).value] == [Convert(a).value, Convert(b).value];
    assert ConvertItems([a, b]) == Some([Convert(a).value, Convert(b).value]) by { hide Convert; }
  }

  lemma Kinds()
    ensures IsNull(NULL) && !IsNull(STRING) && IsNull(HIDDEN) && !IsNull(NULLABLE)
    ensures !Idiom(NULL) && !Idiom(NULLABLE) && !Has(NULL.entries, "anyOf")
    ensures Get(HIDDEN.entries, "anyOf") == Some(Array([NULL, STRING]))
    ensures Idiom(HIDDEN) && TheBranch(HIDDEN) == STRING && !Tidy(HIDDEN)
  {
    GetOne(NULL.entries[0], "type");
    GetOne(NULL.entries[0], "anyOf");
    GetOne(STRING.entries[0], "type");
    GetTwo(HIDDEN.entries[0], HIDDEN.entries[1], "type");
    GetTwo(HIDDEN.entries[0], HIDDEN.entries[1], "anyOf");
    GetTwo(NULLABLE.entries[0], NULLABLE.entries[1], "type");
    GetTwo(NULLABLE.entries[0], NULLABLE.entries[1], "anyOf");
    OthersTwo(NULL, STRING);
  }

  lemma WithoutSecond(a: Entry, b: Entry)
    requires a.key != b.key
    ensures Without([a, b], b.key) == [a]
  {
    assert [a, b][..1] == [a] && [a][..0] == [];
    assert Without([a], b.key) == [] + [a];
    assert Without([a, b], b.key) == Without([a], b.key) + [];
  }

  lemma AddNothing(entries: seq<Entry>, e: Entry)
    requires Has(entries, e.key)
    ensures AddMissing(entries, [e]) == entries
  {
    assert [e][..0] == [];
    assert AddMissing(entries, []) == entries;
  }

  lemma HiddenMerges()
    requires Idiom(HIDDEN) && TheBranch(HIDDEN) == STRING
    ensures Merged(HIDDEN) == NULLABLE
  {
    hide Get, Without, AddMissing, Idiom, TheBranch;
    var typed, any := Entry("type", Text("null")), Entry("anyOf", Array([NULL, STRING]));
    var text, nullable := Entry("type", Text("string")), Entry("nullable", Boolean(true));
    GetOne(text, "$ref");
    GetOne(text, "nullable");
    GetTwo(text, nullable, "type");
    WithoutSecond(typed, any);
    assert [text] + [nullable] == [text, nullable];
    assert Put([text], "nullable", Boolean(true)) == [text, nullable];
    AddNothing([text, nullable], typed);
  }

  lemma PlainsAreFixed()
    ensures Convert(NULL) == Some(NULL) && Convert(NULLABLE) == Some(NULLABLE)
  {
    Kinds();
    hide Idiom;
    EveryTwo(NULL.entries[0], NULL.entries[0], NotIdiom);
    EveryTwo(NULLABLE.entries[0], NULLABLE.entries[1], NotIdiom);
    assert NotIdiom(Text("null")) && NotIdiom(Text("string")) && NotIdiom(Boolean(true)) by { NoObject(); }
    UnchangedWithoutIdiom(NULL);
    UnchangedWithoutIdiom(NULLABLE);
  }

  lemma NoObject()
    ensures forall node: Json :: Primitive(node) ==> NotIdiom(node)
  {
  }

  lemma HiddenBecomesNullable()
    ensures Convert(HIDDEN) == Some(NULLABLE)
  {
    Kinds();
    HiddenMerges();
    PlainsAreFixed();
  }

  lemma AnyOfHas(branches: seq<Json>)
    ensures Branches(AnyOf(branches)) == Some(branches)
    ensures Everywhere(AnyOf(branches), Tidy) ==> forall b :: b in branches ==> Everywhere(b, Tidy)
  {
    var e := Entry("anyOf", Array(branches));
    GetOne(e, "anyOf");
    EveryTwo(e, e, Tidy);
    if Everywhere(AnyOf(branches), Tidy) { EveryBranch(branches, Tidy); }
  }

  lemma AnyOfConverts(branches: seq<Json>, converted: seq<Json>)
    requires !Idiom(AnyOf(branches)) && Convert(Array(branches)) == Some(Array(converted))
    ensures Convert(AnyOf(branches)) == Some(AnyOf(converted))
  {
    var e := Entry("anyOf", Array(branches));
    assert [e][..0] == [] && [] + [Entry("anyOf", Array(converted))] == [Entry("anyOf", Array(converted))];
    var none: seq<Entry> := [];
    assert ConvertEntries(none) == Some([]);
    assert ConvertEntries([e]) == Some([Entry("anyOf", Array(converted))]);
  }

  /** Without that proviso a second rewrite can change the document again. */
  lemma TwiceIsNotOnce()
    ensures var doc := AnyOf([HIDDEN, NULL]);
            !Everywhere(doc, Tidy) && Convert(doc).Some? && Convert(Convert(doc).value) != Convert(doc)
  {
    hide Convert, Everywhere, AnyOf;
    Kinds();
    HiddenBecomesNullable();
    PlainsAreFixed();
    OthersTwo(HIDDEN, NULL);
    OthersTwo(NULLABLE, NULL);
    AnyOfHas([HIDDEN, NULL]);
    AnyOfHas([NULLABLE, NULL]);
    ConvertTwo(HIDDEN, NULL);
    AnyOfConverts([HIDDEN, NULL], [NULLABLE, NULL]);
    var once := AnyOf([NULLABLE, NULL]);
    FixedIffNoIdiom(once);
    assert Idiom(once);
    RootOf(once);
    RootOf(HIDDEN);
    assert HIDDEN in [HIDDEN, NULL];
  }

  lemma RootOf(node: Json)
    ensures Everywhere(node, NotIdiom) ==> NotIdiom(node)
    ensures Everywhere(node, Tidy) ==> Tidy(node)
  {
  }

  // ---- References -------------------------------------------------------------------------------------

  lemma RefsAppend(entries: seq<Entry>, e: Entry)
    ensures RefsOfEntries(entries + [e]) == RefsOfEntries(entries) + RefsOfEntry(e)
  {
    assert (entries + [e])[..|entries|] == entries;
  }

  lemma {:induction false} RefsWithout(entries: seq<Entry>, key: string)
    ensures RefsOfEntries(Without(entries, key)) <= RefsOfEntries(entries)
  {
    if entries != [] {
      var front, last := entries[..|entries| - 1], entries[|entries| - 1];
      RefsWithout(front, key);
      RefsAppend(Without(front, key), last);
      if last.key == key { assert Without(entries, key) == Without(front, key); }
    }
  }

  lemma {:induction false} RefsPut(entries: seq<Entry>, key: string, node: Json)
    ensures RefsOfEntries(Put(entries, key, node)) <= RefsOfEntries(entries) + RefsOfEntry(Entry(key, node))
  {
    if !Has(entries, key) {
      RefsAppend(entries, Entry(key, node));
    } else {
      var front, last := entries[..|entries| - 1], entries[|entries| - 1];
      if Has(front, key) {
        RefsPut(front, key, node);
        RefsAppend(Put(front, key, node), last);
      } else {
        RefsAppend(front, Entry(key, node));
      }
    }
  }

  lemma {:induction false} RefsAddMissing(entries: seq<Entry>, others: seq<Entry>)
    ensures RefsOfEntries(AddMissing(entries, others)) <= RefsOfEntries(entries) + RefsOfEntries(others)
  {
    if others != [] {
      RefsAddMissing(entries, others[..|others| - 1]);
      RefsAppend(AddMissing(entries, others[..|others| - 1]), others[|others| - 1]);
    }
  }

  lemma {:induction false} RefsIndexed(items: seq<Json>)
    ensures RefsOfEntries(Indexed(items)) <= RefsOfItems(items)
  {
    if items != [] {
      RefsIndexed(items[..|items| - 1]);
      RefsAppend(Indexed(items[..|items| - 1]), Entry(Decimal(|items| - 1), items[|items| - 1]));
    }
  }

  lemma {:induction false} RefsOfGet(entries: seq<Entry>, key: string)
    requires key != "$ref" && Has(entries, key)
    ensures Refs(Get(entries, key).value) <= RefsOfEntries(entries)
  {
    if Has(entries[..|entries| - 1], key) { RefsOfGet(entries[..|entries| - 1], key); }
  }

  lemma {:induction false} RefsOfItem(items: seq<Json>, item: Json)
    requires item in items
    ensures Refs(item) <= RefsOfItems(items)
  {
    if items[|items| - 1] != item { RefsOfItem(items[..|items| - 1], item); }
  }

  lemma MergedRefersToNoMore(node: Json)
    requires Idiom(node)
    ensures Refs(Merged(node)) <= Refs(node)
  {
    var siblings, branch, b := Without(node.entries, "anyOf"), TheBranch(node), Branches(node).value;
    RefsWithout(node.entries, "anyOf");
    RefsOfGet(node.entries, "anyOf");
    RefsOfItem(b, branch);
    if branch.Object? && Has(branch.entries, "$ref") {
      assert [branch][..0] == [] && RefsOfItems([branch]) == Refs(branch);
      RefsPut(siblings, "nullable", Boolean(true));
      RefsPut(Put(siblings, "nullable", Boolean(true)), "allOf", Array([branch]));
    } else {
      if branch.Array? { RefsIndexed(branch.items); }
      RefsPut(Spread(branch), "nullable", Boolean(true));
      RefsAddMissing(Put(Spread(branch), "nullable", Boolean(true)), siblings);
    }
  }

  /** The rewrite refers to no schema the document did not refer to. */
  lemma {:induction false} NoReferenceIsInvented(node: Json)
    requires Convert(node).Some?
    ensures Refs(Convert(node).value) <= Refs(node)
    decreases Size(node), 0
  {
    if Idiom(node) {
      MergedIsSmaller(node);
      MergedRefersToNoMore(node);
      NoReferenceIsInvented(Merged(node));
    } else if node.Object? {
      NoneInventedInEntries(node.entries);
    } else if node.Array? {
      NoneInventedInItems(node.items);
    }
  }

  lemma {:induction false} NoneInventedInItems(items: seq<Json>)
    requires ConvertItems(items).Some?
    ensures RefsOfItems(ConvertItems(items).value) <= RefsOfItems(items)
    decreases SizeOfItems(items), 1, |items|
  {
    if items != [] {
      var front, last := items[..|items| - 1], items[|items| - 1];
      NoneInventedInItems(front);
      NoReferenceIsInvented(last);
      var r := ConvertItems(front).value;
      assert (r + [Convert(last).value])[..|r|] == r;
    }
  }

  lemma {:induction false} NoneInventedInEntries(entries: seq<Entry>)
    requires ConvertEntries(entries).Some?
    ensures RefsOfEntries(ConvertEntries(entries).value) <= RefsOfEntries(entries)
    decreases SizeOfEntries(entries), 1, |entries|
  {
    if entries != [] {
      var front, last := entries[..|entries| - 1], entries[|entries| - 1];
      NoneInventedInEntries(front);
      NoReferenceIsInvented(last.node);
      KindKept(last.node);
      RefsAppend(ConvertEntries(front).value, Entry(last.key, Convert(last.node).value));
    }
  }

  /** Every value of the document outside the schemas, and every schema, converted. */
  ghost predicate Rendered(d: Pruning.Document, d': Pruning.Document) {
    && d.outside.Object? && d'.outside.Object? && ConvertEntries(d.outside.entries) == Some(d'.outside.entries)
    && d'.schemas.Keys == d.schemas.Keys
    && forall n :: n in d.schemas ==> Convert(d.schemas[n]) == Some(d'.schemas[n])
  }

  /** Pruned and then rewritten, as the document is rendered: no reference dangles that resolved before. */
  lemma RenderingLeavesNothingDangling(d: Pruning.Document, d': Pruning.Document, name: string)
    requires Rendered(Pruning.Pruned(d), d') && Pruning.Referenced(d', name) && name in d.schemas
    ensures name in d'.schemas
  {
    var pruned := Pruning.Pruned(d);
    NoneInventedInEntries(pruned.outside.entries);
    forall n | n in pruned.schemas ensures Refs(d'.schemas[n]) <= Refs(pruned.schemas[n]) {
      NoReferenceIsInvented(pruned.schemas[n]);
    }
    assert Pruning.Referenced(pruned, name);
    Pruning.NothingNewDangles(d, name);
  }
}
