/** The articles a build selects are what the exploration map needs of its selector. */
module MapSelection {
  import opened Basics
  import E = ExplorationMap
  import L = MapLaws
  import C = Candidates
  import PoolLaws
  import MmrSelector
  import MmrLaws
  import N = NewsMap
  import B = NewsMapBuild

  ghost predicate Carries(items: seq<E.Item>, articles: seq<C.Article>) {
    |items| == |articles| && forall i :: 0 <= i < |items| ==> items[i].news == articles[i].id
  }

  /** branch_map excludes every displayed article, so the selection fits the map it was made for. */
  lemma {:induction false} BranchSelectionIsOffered(doc: E.MapDoc, room: int, items: seq<E.Item>, b: B.Built, p: C.Pool,
      j: MmrSelector.Judge, known: set<C.Key>, limits: N.Limits)
    requires B.Honest(b, p, j, known, room, limits) && Carries(items, b.items)
    requires forall n :: n in E.Visible(doc.nodes) ==> C.ById(n) in known
    ensures E.Offered(doc, room, items)
  {
    PoolLaws.DisplayedAreNew(MmrLaws.RulesOf(j), p, known);
    forall i | 0 <= i < |items| ensures items[i].news !in E.Visible(doc.nodes) {
      assert b.items[i] in b.items;
    }
  }

  /** create_map knows the root, so the first selection neither repeats it nor itself. */
  lemma {:induction false} FirstSelectionIsNew(root: E.Item, items: seq<E.Item>, b: B.Built, p: C.Pool,
      j: MmrSelector.Judge, known: set<C.Key>, limits: N.Limits)
    requires B.Honest(b, p, j, known, 4, limits) && Carries(items, b.items) && C.ById(root.news) in known
    ensures L.FirstSelection(root, items)
  {
    PoolLaws.DisplayedAreNew(MmrLaws.RulesOf(j), p, known);
    forall i | 0 <= i < |items| ensures items[i].news != root.news {
      assert b.items[i] in b.items;
    }
  }
}
