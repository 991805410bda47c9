/**
 * The A/B loop regions of MusicPlayer.jsx as a list of values. The regions
 * plugin keeps its regions in creation order and hands out fresh ids; times
 * are integer milliseconds.
 */
module Regions {

  datatype Region = Region(id: nat, start: nat, end: nat, loop: bool)

  /** Ids grow along the list, so no two regions share an id. */
  predicate IdsIncreasing(rs: seq<Region>) {
    forall j, k :: 0 <= j < k < |rs| ==> rs[j].id < rs[k].id
  }

  /** `region.remove()`: the plugin's list without the region `id`. */
  function RemoveId(rs: seq<Region>, id: nat): (r: seq<Region>)
    ensures |r| <= |rs|
  {
    if |rs| == 0 then []
    else if rs[0].id == id then RemoveId(rs[1..], id)
    else [rs[0]] + RemoveId(rs[1..], id)
  }

  /** The regions whose id is `id`, in order. */
  function OnlyId(rs: seq<Region>, id: nat): (r: seq<Region>)
    ensures |r| <= |rs|
  {
    if |rs| == 0 then []
    else OnlyId(rs[..|rs| - 1], id) + (if rs[|rs| - 1].id == id then [rs[|rs| - 1]] else [])
  }

  /** `setOptions({ loop: true })` on the region `id`; every other region is kept as it was. */
  function SetLoop(rs: seq<Region>, id: nat): (r: seq<Region>)
    ensures |r| == |rs|
    ensures forall k :: 0 <= k < |rs| ==> r[k] == if rs[k].id == id then rs[k].(loop := true) else rs[k]
  {
    seq(|rs|, k requires 0 <= k < |rs| => if rs[k].id == id then rs[k].(loop := true) else rs[k])
  }

  /**
   * The plugin moving or resizing the region `id` to `[start, end]`, then the
   * `region-updated` handler's `setOptions({ loop: true })`; every other
   * region is kept as it was.
   */
  function MoveRegion(rs: seq<Region>, id: nat, start: nat, end: nat): (r: seq<Region>)
    ensures |r| == |rs|
    ensures forall k :: 0 <= k < |rs| ==> r[k].id == rs[k].id
    ensures forall k :: 0 <= k < |rs| ==> r[k] == if rs[k].id == id then Region(id, start, end, true) else rs[k]
  {
    seq(|rs|, k requires 0 <= k < |rs| => if rs[k].id == id then Region(id, start, end, true) else rs[k])
  }

  /**
   * Moving keeps the ids, and on a list of at most one region it replaces the
   * bounds of that region when the id is its own and changes nothing otherwise.
   */
  lemma MoveSingle(rs: seq<Region>, id: nat, start: nat, end: nat)
    requires |rs| <= 1
    ensures MoveRegion(rs, id, start, end) == if |rs| == 1 && rs[0].id == id then [Region(id, start, end, true)] else rs
  {
    var r := MoveRegion(rs, id, start, end);
    if |rs| == 1 && rs[0].id == id {
      assert r[0] == Region(id, start, end, true);
    } else if |rs| == 1 {
      assert r[0] == rs[0];
    }
  }

  /** Moving a region never makes two regions share an id. */
  lemma MoveKeepsIds(rs: seq<Region>, id: nat, start: nat, end: nat)
    requires IdsIncreasing(rs)
    ensures IdsIncreasing(MoveRegion(rs, id, start, end))
  {
  }

  /** Removing an id nobody has changes nothing. */
  lemma {:induction false} RemoveAbsent(rs: seq<Region>, id: nat)
    requires forall k :: 0 <= k < |rs| ==> rs[k].id != id
    ensures RemoveId(rs, id) == rs
  {
    if |rs| > 0 {
      RemoveAbsent(rs[1..], id);
      assert [rs[0]] + rs[1..] == rs;
    }
  }

  /** Removal works element by element, so it distributes over concatenation. */
  lemma {:induction false} RemoveIdConcat(a: seq<Region>, b: seq<Region>, id: nat)
    ensures RemoveId(a + b, id) == RemoveId(a, id) + RemoveId(b, id)
  {
    if |a| > 0 {
      assert (a + b)[0] == a[0];
      assert (a + b)[1..] == a[1..] + b;
      RemoveIdConcat(a[1..], b, id);
    } else {
      assert a + b == b;
    }
  }

  /**
   * One step of the `forEach` in the `region-created` handler: removing a
   * region other than the new one, when ids are distinct, extends the part
   * of the list already filtered down to the new region.
   */
  lemma RemoveOtherStep(all: seq<Region>, i: nat, id: nat)
    requires i < |all| && IdsIncreasing(all) && all[i].id != id
    ensures RemoveId(OnlyId(all[..i], id) + all[i..], all[i].id) == OnlyId(all[..i + 1], id) + all[i + 1..]
  {
    var x := all[i].id;
    var front := OnlyId(all[..i], id);
    var back := all[i + 1..];
    assert all[..i + 1][..i] == all[..i];
    assert OnlyId(all[..i + 1], id) == front;
    OnlyIdHas(all[..i], id);
    RemoveAbsent(front, x);
    assert forall k :: 0 <= k < |back| ==> back[k] == all[i + 1 + k];
    RemoveAbsent(back, x);
    assert all[i..] == [all[i]] + back;
    RemoveIdConcat(front, [all[i]] + back, x);
    RemoveIdConcat([all[i]], back, x);
  }

  /** The region that is kept moves from the unfiltered part to the filtered part unchanged. */
  lemma KeepSelfStep(all: seq<Region>, i: nat, id: nat)
    requires i < |all| && all[i].id == id
    ensures OnlyId(all[..i], id) + all[i..] == OnlyId(all[..i + 1], id) + all[i + 1..]
  {
    assert all[..i + 1][..i] == all[..i];
    assert all[i..] == [all[i]] + all[i + 1..];
  }

  /** Everything `OnlyId` keeps has the id it was asked for. */
  lemma {:induction false} OnlyIdHas(rs: seq<Region>, id: nat)
    ensures forall k :: 0 <= k < |OnlyId(rs, id)| ==> OnlyId(rs, id)[k].id == id
  {
    if |rs| > 0 {
      OnlyIdHas(rs[..|rs| - 1], id);
    }
  }

  /** When the newest region has the greatest id, the filter keeps exactly it. */
  lemma {:induction false} OnlyNewest(all: seq<Region>)
    requires |all| > 0 && IdsIncreasing(all)
    ensures OnlyId(all, all[|all| - 1].id) == [all[|all| - 1]]
  {
    var n := |all| - 1;
    OnlyIdNone(all[..n], all[n].id);
  }

  /** A region whose id exceeds every listed one keeps the ids increasing, and is all the filter keeps. */
  lemma AppendNewest(rs: seq<Region>, created: Region)
    requires |rs| <= 1 && forall k :: 0 <= k < |rs| ==> rs[k].id < created.id
    ensures IdsIncreasing(rs + [created])
    ensures OnlyId(rs + [created], created.id) == [created]
  {
    var all := rs + [created];
    forall j, k | 0 <= j < k < |all| ensures all[j].id < all[k].id {
      assert k == |rs| && all[k] == created && all[j] == rs[j];
    }
    assert all[..|rs|] == rs;
    OnlyIdNone(rs, created.id);
  }

  /** No region of `rs` has `id`, so the filter keeps nothing. */
  lemma {:induction false} OnlyIdNone(rs: seq<Region>, id: nat)
    requires forall k :: 0 <= k < |rs| ==> rs[k].id < id
    ensures OnlyId(rs, id) == []
  {
    if |rs| > 0 {
      OnlyIdNone(rs[..|rs| - 1], id);
    }
  }

  /** On a list of at most one region, removal empties it exactly when the id is that region's. */
  lemma RemoveFromSingle(rs: seq<Region>, id: nat)
    requires |rs| <= 1
    ensures RemoveId(rs, id) == if |rs| == 1 && rs[0].id == id then [] else rs
  {
    if |rs| == 1 {
      assert rs[1..] == [];
      assert [rs[0]] == rs;
    }
  }
}
