/**
 Scene records as the imagery catalogue returns them, and the rule both entry
 points use to pick one: `min(items, key=cloud cover)`. Python's `min` scans
 left to right and replaces its running best only on a strictly smaller key,
 so among equally cloudy scenes the first in catalogue order wins.
 */
module Scenes {
  import opened Outcomes

  /** A named asset of a scene; only its href is used. */
  datatype Asset = Asset(href: string)

  /**
   One item of the sentinel-2-l2a collection. `datetime` is the capture time as
   `isoformat()` renders it, None for items that only carry a start/end range;
   `cloudCover` is the `eo:cloud_cover` property, which every item carries
   because the search filters on it.
   */
  datatype Scene = Scene(id: string, datetime: Option<string>, cloudCover: real, assets: map<string, Asset>)

  /** The asset role holding the true-colour GeoTIFF. */
  const VisualRole := "visual"

  /** Index `k` is the one `min` returns: no item is less cloudy, and every earlier item is strictly cloudier. */
  predicate IsFirstLeastCloudy(items: seq<Scene>, k: int) {
    && 0 <= k < |items|
    && (forall j :: 0 <= j < |items| ==> items[k].cloudCover <= items[j].cloudCover)
    && (forall j :: 0 <= j < k ==> items[k].cloudCover < items[j].cloudCover)
  }

  /**
   The left fold `min` performs over `items[..n]`: the running best index is
   replaced by the next item only when that item is strictly less cloudy.
   */
  function BestIndex(items: seq<Scene>, n: nat): (k: nat)
    requires 0 < n <= |items|
    ensures IsFirstLeastCloudy(items[..n], k)
  {
    if n == 1 then 0
    else
      var b := BestIndex(items, n - 1);
      assert IsFirstLeastCloudy(items[..n - 1], b);
      if items[n - 1].cloudCover < items[b].cloudCover then n - 1 else b
  }

  /** At most one index of a sequence is the first least-cloudy one. */
  lemma FirstLeastCloudyIsUnique(items: seq<Scene>, k1: int, k2: int)
    requires IsFirstLeastCloudy(items, k1) && IsFirstLeastCloudy(items, k2)
    ensures k1 == k2
  {
    assert items[k1].cloudCover <= items[k2].cloudCover;
    assert items[k2].cloudCover <= items[k1].cloudCover;
  }

  /** The fold over the whole sequence returns exactly the first least-cloudy index. */
  lemma FoldFindsFirstLeastCloudy(items: seq<Scene>, k: int)
    requires |items| > 0
    ensures BestIndex(items, |items|) == k <==> IsFirstLeastCloudy(items, k)
  {
    assert items[..|items|] == items;
    if IsFirstLeastCloudy(items, k) {
      FirstLeastCloudyIsUnique(items, k, BestIndex(items, |items|));
    }
  }

  /**
   The reference statement of the selection rule, with its emptiness check:
   None exactly when there is nothing to choose from, otherwise the item at
   the one first-least-cloudy index. Both entry points check for emptiness
   themselves and then take `items[BestIndex(items, |items|)]`, which
   `FoldFindsFirstLeastCloudy` ties to this rule.
   */
  function SelectBest(items: seq<Scene>): (r: Option<Scene>)
    ensures r.None? <==> |items| == 0
    ensures forall k :: IsFirstLeastCloudy(items, k) ==> r == Some(items[k])
    ensures r.Some? ==> r.value in items
  {
    if |items| == 0 then None
    else
      var k := BestIndex(items, |items|);
      assert items[..|items|] == items;
      forall k' | IsFirstLeastCloudy(items, k') {
        FirstLeastCloudyIsUnique(items, k, k');
      }
      Some(items[k])
  }

  /** A non-empty sequence always has a first least-cloudy index, and SelectBest returns the item there. */
  lemma SelectBestIsFirstLeastCloudy(items: seq<Scene>)
    requires |items| > 0
    ensures exists k :: IsFirstLeastCloudy(items, k) && SelectBest(items) == Some(items[k])
  {
    var k := BestIndex(items, |items|);
    assert items[..|items|] == items;
    assert IsFirstLeastCloudy(items, k);
  }

  /** Catalogue order decides ties: of two scenes at 12% cloud cover, the earlier one is chosen. */
  lemma TieGoesToFirstInCatalogueOrder()
    ensures SelectBest([Scene("A", None, 45.0, map[]), Scene("B", None, 12.0, map[]), Scene("C", None, 12.0, map[])]).value.id == "B"
  {
    var items := [Scene("A", None, 45.0, map[]), Scene("B", None, 12.0, map[]), Scene("C", None, 12.0, map[])];
    assert IsFirstLeastCloudy(items, 1);
  }
}
