/**
 * The cascade deleter: after a zone document is deleted, every document of
 * the zone's dependent sub-collections is removed in batches of at most
 * `BATCH_SIZE` documents, sub-collection after sub-collection.
 *
 * The document store is abstracted to what the deleter touches: a map from
 * collection path to the set of document ids stored under it (a path that
 * is absent from the map holds no documents).
 */
module CascadeDeleter {
  import opened Common
  import opened DocOrder

  /** Documents deleted per batch (the argument passed by `onZoneDeleted`). */
  const BATCH_SIZE: nat := 100

  /** The dependent sub-collections of a zone, in the order they are drained. */
  const SUBCOLLECTIONS_TO_DELETE: seq<string> := ["people", "locations"]

  /** The path of one dependent sub-collection of a zone. */
  function SubcollectionPath(tenantId: string, zoneId: string, sub: string): string
  {
    "/tenants/" + tenantId + "/zones/" + zoneId + "/" + sub
  }

  /** Two sub-collections of the same zone live at different paths. */
  lemma SubcollectionPathInjective(tenantId: string, zoneId: string, s1: string, s2: string)
    requires s1 != s2
    ensures SubcollectionPath(tenantId, zoneId, s1) != SubcollectionPath(tenantId, zoneId, s2)
  {
    var prefix := "/tenants/" + tenantId + "/zones/" + zoneId + "/";
    assert SubcollectionPath(tenantId, zoneId, s1)[|prefix|..] == s1;
    assert SubcollectionPath(tenantId, zoneId, s2)[|prefix|..] == s2;
  }

  /** The paths the deleter may touch for one zone: one per dependent sub-collection. */
  function ZonePaths(tenantId: string, zoneId: string): (ps: set<string>)
    ensures forall i :: 0 <= i < |SUBCOLLECTIONS_TO_DELETE| ==>
              SubcollectionPath(tenantId, zoneId, SUBCOLLECTIONS_TO_DELETE[i]) in ps
    ensures |ps| == |SUBCOLLECTIONS_TO_DELETE|
  {
    SubcollectionPathInjective(tenantId, zoneId, "people", "locations");
    {SubcollectionPath(tenantId, zoneId, "people"), SubcollectionPath(tenantId, zoneId, "locations")}
  }

  /** ⌈n / k⌉, characterised by its defining inequalities. */
  function CeilDiv(n: nat, k: nat): (c: nat)
    requires k > 0
    ensures c == 0 <==> n == 0
    ensures n <= c * k
    ensures c > 0 ==> (c - 1) * k < n
    decreases n
  {
    if n == 0 then 0
    else if n <= k then 1
    else 1 + CeilDiv(n - k, k)
  }

  /** All the ids of a sequence of batches. */
  function Union(bs: seq<set<DocId>>): set<DocId>
  {
    if bs == [] then {} else Union(bs[..|bs| - 1]) + bs[|bs| - 1]
  }

  /**
   * The batches the drain loop deletes from a collection holding `s`: the
   * first `k` ids, then the first `k` of what is left, and so on until a
   * fetch comes back empty.
   */
  function DrainBatches(s: set<DocId>, k: nat): seq<set<DocId>>
    requires k > 0
    decreases |s|
  {
    if s == {} then []
    else
      var b := FirstBatch(s, k);
      assert |s - b| == |s| - |b|;
      [b] + DrainBatches(s - b, k)
  }

  /** One round of the drain: the first batch goes, the rest is drained the same way. */
  lemma DrainStep(s: set<DocId>, k: nat)
    requires k > 0
    ensures FirstBatch(s, k) == {} <==> s == {}
    ensures s != {} ==> DrainBatches(s, k) == [FirstBatch(s, k)] + DrainBatches(s - FirstBatch(s, k), k)
    ensures s == {} ==> DrainBatches(s, k) == []
  {
  }

  /** Draining takes ⌈|s| / k⌉ delete rounds. */
  lemma {:induction false} DrainBatchCount(s: set<DocId>, k: nat)
    requires k > 0
    ensures |DrainBatches(s, k)| == CeilDiv(|s|, k)
    decreases |s|
  {
    if s != {} {
      var b := FirstBatch(s, k);
      assert |s - b| == |s| - |b|;
      DrainStep(s, k);
      DrainBatchCount(s - b, k);
      if |s| <= k {
        assert s - b == {};
        assert CeilDiv(|s|, k) == 1;
      } else {
        assert |s - b| == |s| - k;
        assert CeilDiv(|s|, k) == 1 + CeilDiv(|s| - k, k);
      }
    }
  }

  /** Every round deletes between one and `k` documents of the collection. */
  lemma {:induction false} DrainBatchesWithin(s: set<DocId>, k: nat)
    requires k > 0
    ensures forall i :: 0 <= i < |DrainBatches(s, k)| ==>
              DrainBatches(s, k)[i] != {} && DrainBatches(s, k)[i] <= s && |DrainBatches(s, k)[i]| <= k
    decreases |s|
  {
    if s != {} {
      var b := FirstBatch(s, k);
      assert |s - b| == |s| - |b|;
      DrainBatchesWithin(s - b, k);
      DrainStep(s, k);
    }
  }

  /** Every batch of `bs` but the last holds exactly `k` ids. */
  predicate FullBatches(bs: seq<set<DocId>>, k: nat)
  {
    forall i :: 0 <= i < |bs| - 1 ==> |bs[i]| == k
  }

  /** Every round but the last deletes exactly `k` documents. */
  lemma {:induction false} DrainBatchesFull(s: set<DocId>, k: nat)
    requires k > 0
    ensures FullBatches(DrainBatches(s, k), k)
    decreases |s|
  {
    if s != {} {
      var b := FirstBatch(s, k);
      assert |s - b| == |s| - |b|;
      DrainBatchesFull(s - b, k);
      DrainStep(s, k);
      var rest := DrainBatches(s - b, k);
      if rest != [] {
        DrainStep(s - b, k);
        assert s - b != {};
        assert |b| == k;
      }
      var bs := [b] + rest;
      forall i | 0 <= i < |bs| - 1
        ensures |bs[i]| == k
      {
        if i > 0 {
          assert bs[i] == rest[i - 1];
        }
      }
    }
  }

  /** No document is deleted by two rounds. */
  lemma {:induction false} DrainBatchesDisjoint(s: set<DocId>, k: nat)
    requires k > 0
    ensures forall i, j :: 0 <= i < j < |DrainBatches(s, k)| ==> DrainBatches(s, k)[i] !! DrainBatches(s, k)[j]
    decreases |s|
  {
    if s != {} {
      var b := FirstBatch(s, k);
      assert |s - b| == |s| - |b|;
      DrainBatchesDisjoint(s - b, k);
      DrainBatchesWithin(s - b, k);
      DrainStep(s, k);
    }
  }

  lemma UnionAppend(bs: seq<set<DocId>>, b: set<DocId>)
    ensures Union(bs + [b]) == Union(bs) + b
  {
    assert (bs + [b])[..|bs|] == bs;
  }

  lemma {:induction false} UnionPrepend(b: set<DocId>, bs: seq<set<DocId>>)
    ensures Union([b] + bs) == b + Union(bs)
    decreases |bs|
  {
    if bs == [] {
      assert [b] + bs == [b];
      assert ([b])[..0] == [];
    } else {
      var init := bs[..|bs| - 1];
      var last := bs[|bs| - 1];
      assert bs == init + [last];
      assert [b] + bs == ([b] + init) + [last];
      UnionAppend([b] + init, last);
      UnionPrepend(b, init);
      UnionAppend(init, last);
    }
  }

  /** Together the rounds delete exactly the documents of the collection. */
  lemma {:induction false} DrainBatchesCoverAll(s: set<DocId>, k: nat)
    requires k > 0
    ensures Union(DrainBatches(s, k)) == s
    decreases |s|
  {
    if s != {} {
      var b := FirstBatch(s, k);
      assert |s - b| == |s| - |b|;
      DrainBatchesCoverAll(s - b, k);
      UnionPrepend(b, DrainBatches(s - b, k));
    }
  }

  /** Rounds follow the id order: every id of an earlier round comes before every id of a later one. */
  lemma {:induction false} DrainBatchesOrdered(s: set<DocId>, k: nat)
    requires k > 0
    ensures forall i, j :: 0 <= i < j < |DrainBatches(s, k)| ==> AllBelow(DrainBatches(s, k)[i], DrainBatches(s, k)[j])
    decreases |s|
  {
    if s != {} {
      var b := FirstBatch(s, k);
      assert |s - b| == |s| - |b|;
      var rest := DrainBatches(s - b, k);
      DrainBatchesOrdered(s - b, k);
      DrainBatchesWithin(s - b, k);
      DrainStep(s, k);
      forall j | 0 <= j < |rest|
        ensures AllBelow(b, rest[j])
      {
        assert rest[j] <= s - b;
      }
    }
  }

  /**
   * Three rounds of `k`, `k` and `r` documents for a collection of
   * `2 * k + r` documents, `0 < r <= k` (250 documents with the batch size
   * of 100: rounds of 100, 100 and 50).
   */
  lemma ThreeRounds(s: set<DocId>, k: nat, r: nat)
    requires 0 < r <= k && |s| == 2 * k + r
    ensures |DrainBatches(s, k)| == 3
    ensures |DrainBatches(s, k)[0]| == k && |DrainBatches(s, k)[1]| == k && |DrainBatches(s, k)[2]| == r
  {
    var b0 := FirstBatch(s, k);
    var s1 := s - b0;
    assert |s1| == k + r;
    var b1 := FirstBatch(s1, k);
    var s2 := s1 - b1;
    assert |s2| == r;
    var b2 := FirstBatch(s2, k);
    assert |s2 - b2| == 0;
    DrainStep(s2 - b2, k);
    DrainStep(s2, k);
    DrainStep(s1, k);
    DrainStep(s, k);
  }

  /** The scenario of a "people" collection of 250 documents: three rounds of 100, 100 and 50. */
  lemma TwoHundredFiftyDocuments(s: set<DocId>)
    requires |s| == 250
    ensures var bs := DrainBatches(s, BATCH_SIZE);
            |bs| == 3 && |bs[0]| == 100 && |bs[1]| == 100 && |bs[2]| == 50
  {
    ThreeRounds(s, BATCH_SIZE, 50);
  }

  /** How one `deleteCollection` call settles. */
  datatype DrainOutcome =
    | Resolved   // the collection was drained and the promise resolved
    | Rejected   // the first round failed and the promise rejected
    | Pending    // a later round failed; its error is not chained, so the promise never settles

  /**
   * The number of rounds that commit when the store fails the round with
   * index `failRound` (a fetch or a commit of that round), out of `n`
   * rounds that would otherwise commit.
   */
  function RoundsCommitted(n: nat, failRound: Option<nat>): (r: nat)
    ensures r <= n
    ensures failRound.None? ==> r == n
  {
    if failRound.Some? && failRound.value <= n then failRound.value else n
  }

  function DrainOutcomeOf(n: nat, failRound: Option<nat>): DrainOutcome
  {
    if failRound.Some? && failRound.value <= n then
      if failRound.value == 0 then Rejected else Pending
    else Resolved
  }

  /** The documents stored under `path` in a snapshot of the store. */
  function DocsIn(collections: map<string, set<DocId>>, path: string): set<DocId>
  {
    if path in collections then collections[path] else {}
  }

  /**
   * The state of a drain of `path` that started from `initial` after the
   * rounds `committed`: what is left is drained by the remaining rounds,
   * and only `path` has changed.
   */
  predicate DrainProgress(initial: map<string, set<DocId>>, path: string, k: nat,
                          committed: seq<set<DocId>>, current: map<string, set<DocId>>)
    requires k > 0
  {
    var docs := DocsIn(current, path);
    && committed + DrainBatches(docs, k) == DrainBatches(DocsIn(initial, path), k)
    && docs == DocsIn(initial, path) - Union(committed)
    && current == if committed == [] then initial else initial[path := docs]
  }

  lemma DrainProgressStep(initial: map<string, set<DocId>>, path: string, k: nat,
                          committed: seq<set<DocId>>, current: map<string, set<DocId>>, batch: set<DocId>)
    requires k > 0
    requires DrainProgress(initial, path, k, committed, current)
    requires batch == FirstBatch(DocsIn(current, path), k) && batch != {}
    ensures DrainProgress(initial, path, k, committed + [batch], current[path := DocsIn(current, path) - batch])
  {
    var before := DocsIn(current, path);
    var after := before - batch;
    var next := current[path := after];
    DrainStep(before, k);
    assert DocsIn(next, path) == after;
    assert (committed + [batch]) + DrainBatches(after, k) == committed + ([batch] + DrainBatches(after, k));
    UnionAppend(committed, batch);
    if committed != [] {
      assert initial[path := before][path := after] == initial[path := after];
    }
  }

  lemma DrainProgressPrefix(initial: map<string, set<DocId>>, path: string, k: nat,
                            committed: seq<set<DocId>>, current: map<string, set<DocId>>)
    requires k > 0
    requires DrainProgress(initial, path, k, committed, current)
    ensures var all := DrainBatches(DocsIn(initial, path), k);
            |committed| <= |all| && all[..|committed|] == committed
            && (DocsIn(current, path) == {} ==> all == committed)
  {
    DrainStep(DocsIn(current, path), k);
    var all := DrainBatches(DocsIn(initial, path), k);
    assert all[..|committed|] == committed;
  }

  /** Updating a key of `ks` leaves the rest of the map as it was. */
  lemma UpdateInside<K, V>(m: map<K, V>, ks: set<K>, k: K, v: V)
    requires k in ks
    ensures m[k := v] - ks == m - ks
  {
  }

  /**
   * What `onZoneDeleted` has done after draining the sub-collections
   * recorded in `drained`, starting from the store `initial`: the paths in
   * list order, the rounds each committed, and how each settled.
   */
  predicate ZoneDrainLog(initial: map<string, set<DocId>>, tenantId: string, zoneId: string,
                         failRounds: seq<Option<nat>>, drained: seq<(string, seq<set<DocId>>)>,
                         outcome: DrainOutcome)
    requires |failRounds| == |SUBCOLLECTIONS_TO_DELETE|
  {
    && |drained| <= |SUBCOLLECTIONS_TO_DELETE|
    && (outcome != Resolved ==> |drained| > 0)
    && (forall j :: 0 <= j < |drained| ==>
          drained[j].0 == SubcollectionPath(tenantId, zoneId, SUBCOLLECTIONS_TO_DELETE[j]))
    && (forall j :: 0 <= j < |drained| ==>
          var all := DrainBatches(DocsIn(initial, drained[j].0), BATCH_SIZE);
          && drained[j].1 == all[..RoundsCommitted(|all|, failRounds[j])]
          && (j < |drained| - 1 ==> DrainOutcomeOf(|all|, failRounds[j]) == Resolved)
          && (j == |drained| - 1 ==> DrainOutcomeOf(|all|, failRounds[j]) == outcome))
  }

  /**
   * The store during `onZoneDeleted`: the sub-collections already drained
   * are empty, those not yet reached are untouched, and nothing outside
   * the zone's sub-collections has changed.
   */
  predicate ZoneDrainDocs(initial: map<string, set<DocId>>, current: map<string, set<DocId>>,
                          tenantId: string, zoneId: string, done: nat, lastEmptied: bool)
  {
    && (forall j :: 0 <= j < done && j < |SUBCOLLECTIONS_TO_DELETE| && (j < done - 1 || lastEmptied) ==>
          DocsIn(current, SubcollectionPath(tenantId, zoneId, SUBCOLLECTIONS_TO_DELETE[j])) == {})
    && (forall j :: done <= j < |SUBCOLLECTIONS_TO_DELETE| ==>
          var p := SubcollectionPath(tenantId, zoneId, SUBCOLLECTIONS_TO_DELETE[j]);
          DocsIn(current, p) == DocsIn(initial, p))
    && current - ZonePaths(tenantId, zoneId) == initial - ZonePaths(tenantId, zoneId)
  }

  /** What is left of each drained sub-collection: its documents less the committed batches. */
  predicate ZoneDrainRemains(initial: map<string, set<DocId>>, current: map<string, set<DocId>>,
                             drained: seq<(string, seq<set<DocId>>)>)
  {
    forall j :: 0 <= j < |drained| ==>
      DocsIn(current, drained[j].0) == DocsIn(initial, drained[j].0) - Union(drained[j].1)
  }

  lemma ZoneDrainRemainsStep(initial: map<string, set<DocId>>, before: map<string, set<DocId>>,
                             after: map<string, set<DocId>>, tenantId: string, zoneId: string,
                             drained: seq<(string, seq<set<DocId>>)>, committed: seq<set<DocId>>)
    requires |drained| < |SUBCOLLECTIONS_TO_DELETE|
    requires forall j :: 0 <= j < |drained| ==>
               drained[j].0 == SubcollectionPath(tenantId, zoneId, SUBCOLLECTIONS_TO_DELETE[j])
    requires ZoneDrainRemains(initial, before, drained)
    requires var path := SubcollectionPath(tenantId, zoneId, SUBCOLLECTIONS_TO_DELETE[|drained|]);
             && DocsIn(before, path) == DocsIn(initial, path)
             && DocsIn(after, path) == DocsIn(before, path) - Union(committed)
             && (after == before || after == before[path := DocsIn(after, path)])
    ensures var path := SubcollectionPath(tenantId, zoneId, SUBCOLLECTIONS_TO_DELETE[|drained|]);
            ZoneDrainRemains(initial, after, drained + [(path, committed)])
  {
    SubcollectionPathInjective(tenantId, zoneId, "people", "locations");
  }

  lemma ZoneDrainLogStep(initial: map<string, set<DocId>>, tenantId: string, zoneId: string,
                         failRounds: seq<Option<nat>>, drained: seq<(string, seq<set<DocId>>)>,
                         committed: seq<set<DocId>>, o: DrainOutcome)
    requires |failRounds| == |SUBCOLLECTIONS_TO_DELETE|
    requires |drained| < |SUBCOLLECTIONS_TO_DELETE|
    requires ZoneDrainLog(initial, tenantId, zoneId, failRounds, drained, Resolved)
    requires var path := SubcollectionPath(tenantId, zoneId, SUBCOLLECTIONS_TO_DELETE[|drained|]);
             var all := DrainBatches(DocsIn(initial, path), BATCH_SIZE);
             && committed == all[..RoundsCommitted(|all|, failRounds[|drained|])]
             && o == DrainOutcomeOf(|all|, failRounds[|drained|])
    ensures var path := SubcollectionPath(tenantId, zoneId, SUBCOLLECTIONS_TO_DELETE[|drained|]);
            ZoneDrainLog(initial, tenantId, zoneId, failRounds, drained + [(path, committed)], o)
  {
  }

  lemma ZoneDrainDocsStep(initial: map<string, set<DocId>>, before: map<string, set<DocId>>,
                          after: map<string, set<DocId>>, tenantId: string, zoneId: string,
                          i: nat, emptied: bool)
    requires i < |SUBCOLLECTIONS_TO_DELETE|
    requires ZoneDrainDocs(initial, before, tenantId, zoneId, i, true)
    requires var path := SubcollectionPath(tenantId, zoneId, SUBCOLLECTIONS_TO_DELETE[i]);
             && (emptied ==> DocsIn(after, path) == {})
             && (after == before || after == before[path := DocsIn(after, path)])
    ensures ZoneDrainDocs(initial, after, tenantId, zoneId, i + 1, emptied)
  {
    var path := SubcollectionPath(tenantId, zoneId, SUBCOLLECTIONS_TO_DELETE[i]);
    var zone := ZonePaths(tenantId, zoneId);
    SubcollectionPathInjective(tenantId, zoneId, "people", "locations");
    if after != before {
      UpdateInside(before, zone, path, DocsIn(after, path));
    }
  }

  /** The part of the document store the deleter touches. */
  class Database {
    var collections: map<string, set<DocId>>

    constructor (initial: map<string, set<DocId>>)
      ensures collections == initial
    {
      collections := initial;
    }

    /** The documents stored under a collection path. */
    function Docs(path: string): set<DocId>
      reads this
    {
      DocsIn(collections, path)
    }

    /**
     * One round of the drain: fetch the first `batchSize` ids of the
     * collection at `path` and, unless the fetch came back empty, delete
     * exactly those in one batch commit.
     */
    method DeleteQueryBatch(path: string, batchSize: nat) returns (batch: set<DocId>)
      modifies this
      ensures batch == FirstBatch(old(Docs(path)), batchSize)
      ensures batch == {} ==> collections == old(collections)
      ensures batch != {} ==> collections == old(collections)[path := old(Docs(path)) - batch]
    {
      batch := FirstBatch(Docs(path), batchSize);
      if batch == {} {
        return;
      }
      collections := collections[path := Docs(path) - batch];
    }

    /**
     * Drains the collection at `path`: rounds of `DeleteQueryBatch` until a
     * fetch comes back empty. `failRound` is the store's failure oracle:
     * the round whose fetch or commit fails, if any.
     */
    method DeleteCollection(path: string, batchSize: nat, failRound: Option<nat>)
      returns (committed: seq<set<DocId>>, outcome: DrainOutcome)
      requires batchSize > 0
      modifies this
      ensures var all := DrainBatches(old(Docs(path)), batchSize);
              && committed == all[..RoundsCommitted(|all|, failRound)]
              && outcome == DrainOutcomeOf(|all|, failRound)
      ensures Docs(path) == old(Docs(path)) - Union(committed)
      ensures outcome == Resolved ==> Docs(path) == {}
      ensures old(Docs(path)) == {} ==> committed == [] && collections == old(collections)
      ensures collections == if committed == [] then old(collections)
                             else old(collections)[path := Docs(path)]
    {
      ghost var initial := collections;
      committed := [];
      var round := 0;
      while true
        invariant DrainProgress(initial, path, batchSize, committed, collections)
        invariant round == |committed|
        invariant failRound.Some? ==> round <= failRound.value
        decreases |Docs(path)|
      {
        DrainProgressPrefix(initial, path, batchSize, committed, collections);
        if failRound.Some? && failRound.value == round {
          outcome := if round == 0 then Rejected else Pending;
          return;
        }
        ghost var current := collections;
        var batch := DeleteQueryBatch(path, batchSize);
        if batch == {} {
          DrainStep(DocsIn(current, path), batchSize);
          outcome := Resolved;
          return;
        }
        DrainProgressStep(initial, path, batchSize, committed, current, batch);
        committed := committed + [batch];
        round := round + 1;
      }
    }

    /**
     * The trigger run after the zone `/tenants/{tenantId}/zones/{zoneId}`
     * is deleted: drains each dependent sub-collection in list order,
     * stopping at the first one that does not resolve. `failRounds[i]` is
     * the failure oracle for the i-th sub-collection.
     */
    method OnZoneDeleted(tenantId: string, zoneId: string, failRounds: seq<Option<nat>>)
      returns (drained: seq<(string, seq<set<DocId>>)>, outcome: DrainOutcome)
      requires |failRounds| == |SUBCOLLECTIONS_TO_DELETE|
      modifies this
      ensures 0 < |drained| <= |SUBCOLLECTIONS_TO_DELETE|
      ensures forall j :: 0 <= j < |drained| ==>
                drained[j].0 == SubcollectionPath(tenantId, zoneId, SUBCOLLECTIONS_TO_DELETE[j])
      ensures forall j :: 0 <= j < |drained| ==>
                var all := DrainBatches(DocsIn(old(collections), drained[j].0), BATCH_SIZE);
                && drained[j].1 == all[..RoundsCommitted(|all|, failRounds[j])]
                && (j < |drained| - 1 ==> DrainOutcomeOf(|all|, failRounds[j]) == Resolved)
                && (j == |drained| - 1 ==> DrainOutcomeOf(|all|, failRounds[j]) == outcome)
      ensures outcome == Resolved ==> |drained| == |SUBCOLLECTIONS_TO_DELETE|
      ensures forall j :: 0 <= j < |drained| && (j < |drained| - 1 || outcome == Resolved) ==>
                Docs(drained[j].0) == {}
      ensures forall j :: 0 <= j < |drained| ==>
                Docs(drained[j].0) == DocsIn(old(collections), drained[j].0) - Union(drained[j].1)
      ensures forall j :: |drained| <= j < |SUBCOLLECTIONS_TO_DELETE| ==>
                var path := SubcollectionPath(tenantId, zoneId, SUBCOLLECTIONS_TO_DELETE[j]);
                Docs(path) == DocsIn(old(collections), path)
      ensures collections - ZonePaths(tenantId, zoneId) == old(collections) - ZonePaths(tenantId, zoneId)
    {
      ghost var initial := collections;
      var i := 0;
      drained := [];
      outcome := Resolved;
      while outcome == Resolved && i < |SUBCOLLECTIONS_TO_DELETE|
        invariant i == |drained|
        invariant ZoneDrainLog(initial, tenantId, zoneId, failRounds, drained, outcome)
        invariant ZoneDrainDocs(initial, collections, tenantId, zoneId, i, outcome == Resolved)
        invariant ZoneDrainRemains(initial, collections, drained)
      {
        var path := SubcollectionPath(tenantId, zoneId, SUBCOLLECTIONS_TO_DELETE[i]);
        ghost var before := collections;
        var committed, o := DeleteCollection(path, BATCH_SIZE, failRounds[i]);
        ZoneDrainLogStep(initial, tenantId, zoneId, failRounds, drained, committed, o);
        ZoneDrainDocsStep(initial, before, collections, tenantId, zoneId, i, o == Resolved);
        ZoneDrainRemainsStep(initial, before, collections, tenantId, zoneId, drained, committed);
        drained := drained + [(path, committed)];
        outcome := o;
        i := i + 1;
      }
    }
  }
}
