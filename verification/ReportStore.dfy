/**
 Insert-only reports with reuse by generation key (`_insert` of app/v2/persistence.py, on the
 in-process collections; the unique index of the database has the same effect).
 */
module ReportStore {
  import opened Basics

  type ReportId = nat
  type GenerationKey = nat

  datatype Stored = Stored(key: GenerationKey, reusable: bool, content: nat)

  datatype Saved = Kept(id: ReportId, reused: bool) | IdTaken

  type Reports = map<ReportId, Stored>

  predicate Offers(docs: Reports, id: ReportId, key: GenerationKey) {
    id in docs && docs[id].reusable && docs[id].key == key
  }

  /** At most one report can be reused for a generation key. */
  ghost predicate OnePerKey(docs: Reports) {
    forall x, y, key :: Offers(docs, x, key) && Offers(docs, y, key) ==> x == y
  }

  class Collection {
    var docs: Reports

    constructor ()
      ensures docs == map[]
    {
      docs := map[];
    }

    /** Some report that can be reused for the key. */
    method Find(key: GenerationKey) returns (found: Option<ReportId>)
      ensures found.None? ==> forall id :: !Offers(docs, id, key)
      ensures found.Some? ==> Offers(docs, found.value, key)
    {
      var left := docs.Keys;
      while left != {}
        invariant left <= docs.Keys
        invariant forall id :: Offers(docs, id, key) ==> id in left
        decreases |left|
      {
        var id :| id in left;
        if docs[id].reusable && docs[id].key == key {
          return Some(id);
        }
        left := left - {id};
      }
      return None;
    }

    /** Stores a new report, or returns the one that was stored for the same generation key. */
    method Insert(id: ReportId, doc: Stored) returns (saved: Saved)
      requires OnePerKey(docs)
      modifies this
      ensures OnePerKey(docs) && Extends(old(docs), docs)
      ensures saved.IdTaken? <==> id in old(docs)
      ensures saved.Kept? ==> && saved.id in docs && docs[saved.id].key == doc.key
                              && (saved.reused <==> doc.reusable && exists x :: Offers(old(docs), x, doc.key))
                              && (saved.reused ==> docs == old(docs) && Offers(docs, saved.id, doc.key))
                              && (!saved.reused ==> saved.id == id && docs == old(docs)[id := doc])
      ensures saved.IdTaken? ==> docs == old(docs)
    {
      if id in docs {
        return IdTaken;
      }
      if doc.reusable {
        var found := Find(doc.key);
        if found.Some? {
          return Kept(found.value, true);
        }
      }
      ghost var before := docs;
      docs := docs[id := doc];
      assert forall x, key :: Offers(docs, x, key) ==> x == id || Offers(before, x, key);
      return Kept(id, false);
    }
  }

  /** Nothing that was stored changes or disappears. */
  ghost predicate Extends(before: Reports, after: Reports) {
    forall id :: id in before ==> id in after && after[id] == before[id]
  }

  /** Once a report can be reused for a key, every later state offers that report for it and no other. */
  lemma {:induction false} ReuseIsStable(states: seq<Reports>, i: nat, k: nat, id: ReportId, key: GenerationKey,
      other: ReportId)
    requires i <= k < |states|
    requires forall n :: 0 <= n < |states| ==> OnePerKey(states[n])
    requires forall n :: 0 < n < |states| ==> Extends(states[n - 1], states[n])
    requires Offers(states[i], id, key)
    ensures Offers(states[k], other, key) <==> other == id
  {
    StillOffers(states, i, k, id, key);
    assert OnePerKey(states[k]);
  }

  lemma {:induction false} StillOffers(states: seq<Reports>, i: nat, k: nat, id: ReportId, key: GenerationKey)
    requires i <= k < |states|
    requires forall n :: 0 < n < |states| ==> Extends(states[n - 1], states[n])
    requires Offers(states[i], id, key)
    ensures Offers(states[k], id, key)
  {
    if i < k {
      StillOffers(states, i, k - 1, id, key);
      assert Extends(states[k - 1], states[k]);
    }
  }
}
