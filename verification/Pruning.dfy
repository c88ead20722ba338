/** Dropping the component schemas nothing refers to (backend/src/openapiDocument.ts). */
module Pruning {
  import opened Prelude
  import opened JsonValues

  /** A document: its component schemas, and everything outside them. */
  datatype Document = Document(outside: Json, schemas: map<string, Json>)

  // ---- Reachability ------------------------------------------------------------------------

  ghost predicate Links(d: Document, from: string, to: string) {
    from in d.schemas && to in Refs(d.schemas[from])
  }

  /** A chain of references that starts outside the schemas. */
  ghost predicate Chain(d: Document, path: seq<string>) {
    path != []
    && if |path| == 1 then path[0] in Refs(d.outside)
       else Chain(d, path[..|path| - 1]) && Links(d, path[|path| - 2], path[|path| - 1])
  }

  ghost predicate Reachable(d: Document, name: string) {
    exists path :: Chain(d, path) && path[|path| - 1] == name
  }

  lemma RootIsReachable(d: Document, name: string)
    requires name in Refs(d.outside)
    ensures Reachable(d, name)
  {
    assert Chain(d, [name]);
  }

  lemma NextIsReachable(d: Document, name: string, ref: string)
    requires Reachable(d, name) && Links(d, name, ref)
    ensures Reachable(d, ref)
  {
    var path :| Chain(d, path) && path[|path| - 1] == name;
    assert (path + [ref])[..|path|] == path;
    assert Chain(d, path + [ref]);
  }

  /** A set that holds the roots and follows every reference holds all that is reachable. */
  ghost predicate Closed(d: Document, names: set<string>) {
    && Refs(d.outside) <= names
    && forall n :: n in names && n in d.schemas ==> Refs(d.schemas[n]) <= names
  }

  lemma {:induction false} ChainStaysInside(d: Document, names: set<string>, path: seq<string>)
    requires Closed(d, names) && Chain(d, path)
    ensures path[|path| - 1] in names
  {
    if |path| > 1 { ChainStaysInside(d, names, path[..|path| - 1]); }
  }

  lemma ClosedHoldsAll(d: Document, names: set<string>)
    requires Closed(d, names)
    ensures forall n :: Reachable(d, n) ==> n in names
  {
    forall n | Reachable(d, n) ensures n in names {
      var path :| Chain(d, path) && path[|path| - 1] == n;
      ChainStaysInside(d, names, path);
    }
  }

  /** What pruning keeps. */
  ghost function Pruned(d: Document): Document {
    d.(schemas := map n | n in d.schemas && Reachable(d, n) :: d.schemas[n])
  }

  // ---- The worklist ---------------------------------------------------------------------------

  /** Everything any reference in the document names. */
  function AllNames(d: Document): set<string> {
    Refs(d.outside) + set n, r | n in d.schemas && r in Refs(d.schemas[n]) :: r
  }

  /** Reached so far: reachable names only, among them every root. */
  ghost predicate Sound(d: Document, reached: set<string>) {
    Refs(d.outside) <= reached <= AllNames(d) && forall n :: n in reached ==> Reachable(d, n)
  }

  /** Every name reached has been followed but for those in `queue`. */
  ghost predicate Followed(d: Document, reached: set<string>, queue: set<string>) {
    queue <= reached && forall n :: n in reached && n in d.schemas && n !in queue ==> Refs(d.schemas[n]) <= reached
  }

  function Elements(queue: seq<string>): set<string> {
    set n | n in queue
  }

  method Listing(names: set<string>) returns (list: seq<string>)
    ensures Elements(list) == names
  {
    list := [];
    var rest := names;
    while rest != {}
      invariant rest <= names && Elements(list) == names - rest
    {
      var n :| n in rest;
      assert Elements(list + [n]) == Elements(list) + {n};
      list, rest := list + [n], rest - {n};
    }
  }

  lemma NewNameIsSound(d: Document, name: string, ref: string, reached: set<string>)
    requires Sound(d, reached) && name in reached && Links(d, name, ref)
    ensures Sound(d, reached + {ref})
  {
    hide Chain;
    NextIsReachable(d, name, ref);
  }

  /** Marks what a schema refers to and queues what is new. */
  method Follow(d: Document, name: string, reached: set<string>, queue: seq<string>)
    returns (reached': set<string>, queue': seq<string>)
    requires name in d.schemas && name in reached && Sound(d, reached)
    ensures Sound(d, reached') && reached + Refs(d.schemas[name]) == reached'
    ensures Elements(queue') == Elements(queue) + (reached' - reached)
    ensures reached' == reached ==> queue' == queue
  {
    hide Sound;
    reached', queue' := reached, queue;
    var nested := CollectRefs(d.schemas[name], {});
    var rest := nested;
    while rest != {}
      invariant rest <= nested == Refs(d.schemas[name])
      invariant Sound(d, reached') && reached' == reached + (nested - rest)
      invariant Elements(queue') == Elements(queue) + (reached' - reached)
      invariant reached' == reached ==> queue' == queue
    {
      var ref :| ref in rest;
      rest := rest - {ref};
      if ref !in reached' {
        NewNameIsSound(d, name, ref, reached');
        assert Elements(queue' + [ref]) == Elements(queue') + {ref};
        reached', queue' := reached' + {ref}, queue' + [ref];
      }
    }
  }

  lemma RootsFirst(d: Document)
    ensures Sound(d, Refs(d.outside)) && Followed(d, Refs(d.outside), Refs(d.outside))
  {
    forall n | n in Refs(d.outside) ensures Reachable(d, n) { RootIsReachable(d, n); }
  }

  lemma StillFollowed(d: Document, reached: set<string>, queue: set<string>, name: string, after: set<string>)
    requires Followed(d, reached, queue + {name})
    requires after == if name in d.schemas then reached + Refs(d.schemas[name]) else reached
    ensures Followed(d, after, queue + (after - reached))
  {
  }

  lemma Done(d: Document, reached: set<string>)
    requires Sound(d, reached) && Followed(d, reached, {})
    ensures forall n :: n in reached <==> Reachable(d, n)
  {
    ClosedHoldsAll(d, reached);
  }

  method ReachableNames(d: Document) returns (reachable: set<string>)
    ensures forall n :: n in reachable <==> Reachable(d, n)
  {
    hide Sound, Followed, Reachable, AllNames, Elements;
    reachable := CollectRefs(d.outside, {});
    RootsFirst(d);
    var queue := Listing(reachable);
    while queue != []
      invariant Sound(d, reachable) && Followed(d, reachable, Elements(queue))
      decreases |AllNames(d) - reachable|, |queue|
    {
      var name := queue[|queue| - 1];
      ghost var before, rest := reachable, Elements(queue[..|queue| - 1]);
      LastOut(queue);
      Within(d, reachable, Elements(queue));
      queue := queue[..|queue| - 1];
      if name in d.schemas {
        reachable, queue := Follow(d, name, reachable, queue);
        Within(d, reachable, {});
        if reachable != before { Fewer(AllNames(d), before, reachable); }
      }
      StillFollowed(d, before, rest, name, reachable);
      assert rest + (reachable - before) == Elements(queue);
    }
    NoElements();
    Done(d, reachable);
  }

  lemma LastOut(queue: seq<string>)
    requires queue != []
    ensures Elements(queue) == Elements(queue[..|queue| - 1]) + {queue[|queue| - 1]}
  {
    assert queue == queue[..|queue| - 1] + [queue[|queue| - 1]];
  }

  lemma NoElements()
    ensures Elements([]) == {}
  {
  }

  lemma Within(d: Document, reached: set<string>, queue: set<string>)
    requires Sound(d, reached)
    ensures reached <= AllNames(d) && (Followed(d, reached, queue) ==> queue <= reached)
  {
  }

  lemma Fewer(all: set<string>, before: set<string>, after: set<string>)
    requires before <= after <= all && before != after
    ensures |all - after| < |all - before|
  {
    var n :| n in after && n !in before;
    Fits(all - after, all - before - {n});
  }

  lemma {:induction false} Fits(xs: set<string>, ys: set<string>)
    requires xs <= ys
    ensures |xs| <= |ys|
    decreases xs
  {
    if xs != {} {
      var x :| x in xs;
      Fits(xs - {x}, ys - {x});
    }
  }

  class OpenApiDocument {
    var outside: Json
    var schemas: map<string, Json>

    function Contents(): Document
      reads this
    {
      Document(outside, schemas)
    }

    constructor (outside: Json, schemas: map<string, Json>)
      ensures Contents() == Document(outside, schemas)
    {
      this.outside, this.schemas := outside, schemas;
    }

    /** Deletes, in place, every schema nothing reaches. */
    method PruneUnreferencedSchemas()
      modifies this
      ensures Contents() == Pruned(old(Contents()))
      ensures forall n :: n in schemas <==> n in old(schemas) && Reachable(old(Contents()), n)
    {
      ghost var d := Contents();
      var reachable := ReachableNames(Contents());
      var names := schemas.Keys;
      while names != {}
        invariant names <= d.schemas.Keys && outside == d.outside
        invariant forall n :: n in schemas <==> n in d.schemas && (n in names || n in reachable)
        invariant forall n :: n in schemas ==> schemas[n] == d.schemas[n]
      {
        var name :| name in names;
        names := names - {name};
        if name !in reachable {
          schemas := schemas - {name};
        }
      }
      assert schemas == Pruned(d).schemas;
    }
  }

  // ---- What pruning leaves ----------------------------------------------------------------------

  /** Some reference of the document, outside or in a schema, names it. */
  ghost predicate Referenced(d: Document, name: string) {
    name in Refs(d.outside) || exists n :: n in d.schemas && name in Refs(d.schemas[n])
  }

  /** No reference left in the document dangles unless it dangled before. */
  lemma NothingNewDangles(d: Document, name: string)
    requires Referenced(Pruned(d), name) && name in d.schemas
    ensures name in Pruned(d).schemas
  {
    if name in Refs(d.outside) {
      RootIsReachable(d, name);
    } else {
      var n :| n in Pruned(d).schemas && name in Refs(Pruned(d).schemas[n]);
      NextIsReachable(d, n, name);
    }
  }

  lemma {:induction false} ChainSurvives(d: Document, path: seq<string>)
    requires Chain(d, path)
    ensures Chain(Pruned(d), path)
  {
    if |path| > 1 {
      var front := path[..|path| - 1];
      ChainSurvives(d, front);
      assert Reachable(d, front[|front| - 1]);
      assert Links(Pruned(d), path[|path| - 2], path[|path| - 1]);
    }
  }

  lemma {:induction false} NoChainAppears(d: Document, path: seq<string>)
    requires Chain(Pruned(d), path)
    ensures Chain(d, path)
  {
    if |path| > 1 { NoChainAppears(d, path[..|path| - 1]); }
  }

  /** What was reachable is reachable still, and nothing else is. */
  lemma PruningKeepsReachability(d: Document, name: string)
    ensures Reachable(Pruned(d), name) <==> Reachable(d, name)
  {
    if Reachable(d, name) {
      var path :| Chain(d, path) && path[|path| - 1] == name;
      ChainSurvives(d, path);
    }
    if Reachable(Pruned(d), name) {
      var path :| Chain(Pruned(d), path) && path[|path| - 1] == name;
      NoChainAppears(d, path);
    }
  }

  /** Pruning twice is pruning once. */
  lemma PruningIsIdempotent(d: Document)
    ensures Pruned(Pruned(d)) == Pruned(d)
  {
    forall n | n in Pruned(d).schemas ensures Reachable(Pruned(d), n) {
      PruningKeepsReachability(d, n);
    }
  }

  /** It keeps no more than it must: any part of the schemas that leaves no new dangling reference holds all it keeps. */
  lemma PruningIsLeast(d: Document, part: map<string, Json>)
    requires forall n :: n in part ==> n in d.schemas && part[n] == d.schemas[n]
    requires forall n :: Referenced(Document(d.outside, part), n) && n in d.schemas ==> n in part
    ensures Pruned(d).schemas.Keys <= part.Keys
  {
    var kept := part.Keys + set n | n in AllNames(d) && n !in d.schemas;
    forall n | n in Refs(d.outside) ensures n in kept {
      if n in d.schemas { assert Referenced(Document(d.outside, part), n); }
    }
    forall n, r | n in kept && n in d.schemas && r in Refs(d.schemas[n]) ensures r in kept {
      if r in d.schemas { assert Referenced(Document(d.outside, part), r); }
    }
    ClosedHoldsAll(d, kept);
  }
}
