/**
 The wing-unlock rule of checkWingUnlock, stated on a map from element id to
 element state that stands for the page's wing elements (an id missing from
 the map is an element the page does not have).
 */
module WingUnlock {
  import opened GameTypes
  import opened TextRules

  /** Some catalog wing whose element id is `id` has a threshold met by `stars`. */
  predicate Reached(catalog: seq<WingData>, id: string, stars: int) {
    exists w :: w in catalog && ElementId(w.key) == id && stars >= w.unlockStars
  }

  /** The page after one unlock check with `stars` stars, over all wings of `catalog`. */
  function Unlock(view: map<string, WingView>, catalog: seq<WingData>, stars: int): (r: map<string, WingView>)
    // no element is created or removed
    ensures r.Keys == view.Keys
    // an unlocked wing is never fogged again
    ensures forall id :: id in view && view[id] == Unlocked ==> r[id] == Unlocked
    // the only change is fogged to unlocked, and only for a wing whose threshold is met
    ensures forall id :: id in view && r[id] != view[id] ==>
      view[id] == Fogged && r[id] == Unlocked && Reached(catalog, id, stars)
    // every present wing whose threshold is met ends unlocked
    ensures forall w :: w in catalog && ElementId(w.key) in view && stars >= w.unlockStars ==>
      r[ElementId(w.key)] == Unlocked
  {
    map id | id in view :: if view[id] == Fogged && Reached(catalog, id, stars) then Unlocked else view[id]
  }

  /** One iteration of the loop of checkWingUnlock, for wing `w`. */
  function UnlockOne(view: map<string, WingView>, w: WingData, stars: int): map<string, WingView> {
    var id := ElementId(w.key);
    if id in view && stars >= w.unlockStars && view[id] == Fogged then view[id := Unlocked] else view
  }

  /** The loop of checkWingUnlock run over the wings of `catalog` in order. */
  function UnlockLoop(view: map<string, WingView>, catalog: seq<WingData>, stars: int): map<string, WingView> {
    if catalog == [] then view
    else UnlockOne(UnlockLoop(view, catalog[..|catalog| - 1], stars), catalog[|catalog| - 1], stars)
  }

  /** Before the loop has visited any wing nothing has changed. */
  lemma UnlockNone(view: map<string, WingView>, stars: int)
    ensures Unlock(view, [], stars) == view
  {
    assert forall id :: id in view ==> !Reached([], id, stars);
  }

  /** Whatever the order of the catalog, the loop computes Unlock. */
  lemma {:induction false} UnlockLoopIsUnlock(view: map<string, WingView>, catalog: seq<WingData>, stars: int)
    ensures UnlockLoop(view, catalog, stars) == Unlock(view, catalog, stars)
  {
    if catalog == [] {
      UnlockNone(view, stars);
    } else {
      var init, last := catalog[..|catalog| - 1], catalog[|catalog| - 1];
      UnlockLoopIsUnlock(view, init, stars);
      UnlockExtend(view, init, last, stars);
      assert init + [last] == catalog;
    }
  }

  /** Visiting one more wing is one more loop iteration: the loop computes Unlock. */
  lemma UnlockExtend(view: map<string, WingView>, catalog: seq<WingData>, w: WingData, stars: int)
    ensures Unlock(view, catalog + [w], stars) == UnlockOne(Unlock(view, catalog, stars), w, stars)
  {
    var lhs := Unlock(view, catalog + [w], stars);
    var cur := Unlock(view, catalog, stars);
    var rhs := UnlockOne(cur, w, stars);
    forall id | id in view
      ensures lhs[id] == rhs[id]
    {
      if Reached(catalog, id, stars) {
        var v :| v in catalog && ElementId(v.key) == id && stars >= v.unlockStars;
        assert v in catalog + [w];
      } else if Reached(catalog + [w], id, stars) {
        var v :| v in catalog + [w] && ElementId(v.key) == id && stars >= v.unlockStars;
        assert v == w;
      }
    }
    assert lhs.Keys == rhs.Keys;
  }

  /** A later check with at least as many stars absorbs an earlier one. */
  lemma UnlockAbsorbs(view: map<string, WingView>, catalog: seq<WingData>, s1: int, s2: int)
    requires s1 <= s2
    ensures Unlock(Unlock(view, catalog, s1), catalog, s2) == Unlock(view, catalog, s2)
  {
    var once := Unlock(view, catalog, s1);
    var lhs := Unlock(once, catalog, s2);
    var rhs := Unlock(view, catalog, s2);
    forall id | id in view
      ensures lhs[id] == rhs[id]
    {
      if Reached(catalog, id, s1) {
        var v :| v in catalog && ElementId(v.key) == id && s1 >= v.unlockStars;
        assert s2 >= v.unlockStars;
      }
    }
    assert lhs.Keys == rhs.Keys;
  }

  /** Two consecutive checks with the same star count: the second changes nothing. */
  lemma UnlockIdempotent(view: map<string, WingView>, catalog: seq<WingData>, stars: int)
    ensures Unlock(Unlock(view, catalog, stars), catalog, stars) == Unlock(view, catalog, stars)
  {
    UnlockAbsorbs(view, catalog, stars, stars);
  }
}
