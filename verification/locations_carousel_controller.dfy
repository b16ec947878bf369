/**
 * The carousel of search results under the main map: tapping a card issues a
 * select call on the map for every custom annotation whose map item bears the
 * card's name, then scrolls the carousel to the card.
 */
module Carousel {
  import opened MapKitModel
  import opened MainScreen

  /** The side effects of a tap, in the order they happen. */
  datatype CarouselAction =
    | SelectAnnotation(position: nat)  // `selectAnnotation` on the map's annotation at this position
    | ScrollToItem(item: nat)          // `scrollToItem` to this card

  /**
   * Whether a tap on a card named `tappedName` issues a select call for
   * annotation `a`: only a custom annotation qualifies, and its item's name is compared with Swift's
   * `Optional` equality, so a missing item or name matches a missing name.
   */
  predicate Matches(a: Annotation, tappedName: Option<string>)
  {
    a.CustomAnnotation? && ItemName(a.mapItem) == tappedName
  }

  /** The positions of the annotations a tap issues select calls for, collected in iteration order. */
  function MatchesIn(annotations: seq<Annotation>, tappedName: Option<string>): seq<nat>
  {
    if annotations == [] then []
    else
      var last := |annotations| - 1;
      MatchesIn(annotations[..last], tappedName) + (if Matches(annotations[last], tappedName) then [last] else [])
  }

  /** One select action per position, in order. */
  function Selects(positions: seq<nat>): seq<CarouselAction>
  {
    seq(|positions|, k requires 0 <= k < |positions| => SelectAnnotation(positions[k]))
  }

  /** Every position collected lies within the list. */
  lemma {:induction false} MatchesInBounded(annotations: seq<Annotation>, tappedName: Option<string>)
    ensures forall k :: 0 <= k < |MatchesIn(annotations, tappedName)| ==>
      MatchesIn(annotations, tappedName)[k] < |annotations|
  {
    if annotations != [] {
      MatchesInBounded(annotations[..|annotations| - 1], tappedName);
    }
  }

  /**
   * A position receives a select call if and only if the annotation there
   * matches: every match receives one (there is no early exit) and nothing
   * else does, so annotations that are not custom annotations never do.
   */
  lemma {:induction false} MatchesInExactly(annotations: seq<Annotation>, tappedName: Option<string>, p: nat)
    ensures p in MatchesIn(annotations, tappedName) <==> p < |annotations| && Matches(annotations[p], tappedName)
  {
    if annotations != [] {
      var last := |annotations| - 1;
      MatchesInExactly(annotations[..last], tappedName, p);
      if p < last {
        assert annotations[..last][p] == annotations[p];
      }
    }
  }

  /** Select calls follow iteration order: positions strictly increase, so none receives two. */
  lemma {:induction false} MatchesInIncreasing(annotations: seq<Annotation>, tappedName: Option<string>)
    ensures forall i, j :: 0 <= i < j < |MatchesIn(annotations, tappedName)| ==>
      MatchesIn(annotations, tappedName)[i] < MatchesIn(annotations, tappedName)[j]
  {
    if annotations != [] {
      var last := |annotations| - 1;
      MatchesInIncreasing(annotations[..last], tappedName);
      MatchesInBounded(annotations[..last], tappedName);
    }
  }

  /** A custom annotation with no item or no item name receives a select call exactly when the tapped card has no name. */
  lemma MissingNameMatchesMissingName(a: Annotation, tappedName: Option<string>)
    requires a.CustomAnnotation? && (a.mapItem.None? || a.mapItem.value.name.None?)
    ensures Matches(a, tappedName) <==> tappedName.None?
  {
  }

  /**
   * The point annotations that the main screen's search adds are never
   * the target of a carousel tap's select call: appending them leaves the
   * calls as they were.
   */
  lemma {:induction false} SearchPinsNeverSelected(annotations: seq<Annotation>, items: seq<MapItem>, tappedName: Option<string>)
    ensures MatchesIn(annotations + PointAnnotationsFor(items), tappedName) == MatchesIn(annotations, tappedName)
  {
    if items != [] {
      var shorter := items[..|items| - 1];
      SearchPinsNeverSelected(annotations, shorter, tappedName);
      var all := annotations + PointAnnotationsFor(items);
      assert all[..|all| - 1] == annotations + PointAnnotationsFor(shorter);
    } else {
      assert annotations + PointAnnotationsFor(items) == annotations;
    }
  }

  /** `LocationsCarouselController`: the carousel's items and a weak link to the main screen. */
  class LocationsCarouselController {
    var items: seq<MapItem>
    var mainController: MainViewController?

    constructor (items: seq<MapItem>)
      ensures this.items == items && mainController == null
    {
      this.items := items;
      mainController := null;
    }

    /** The annotations the tap walks: the main map's, or none when the main screen is gone. */
    function MapAnnotations(): seq<Annotation>
      reads this, if mainController == null then {} else {mainController.mapView}
    {
      if mainController == null then [] else mainController.mapView.annotations
    }

    /**
     * `collectionView(_:didSelectItemAt:)`: issues a select call for each
     * matching annotation in iteration order, then scrolls to the tapped card exactly once, whether
     * or not anything matched. Neither the items nor the map's annotations change.
     */
    method DidSelectItemAt(index: nat) returns (actions: seq<CarouselAction>)
      requires index < |items|
      ensures actions == Selects(MatchesIn(MapAnnotations(), items[index].name)) + [ScrollToItem(index)]
      ensures actions[|actions| - 1] == ScrollToItem(index)
      ensures forall k :: 0 <= k < |actions| - 1 ==> actions[k].SelectAnnotation?
      ensures mainController == null ==> actions == [ScrollToItem(index)]
    {
      var annotations := if mainController == null then [] else mainController.mapView.annotations;
      var tappedName := items[index].name;
      actions := [];
      var i := 0;
      while i < |annotations|
        invariant 0 <= i <= |annotations|
        invariant actions == Selects(MatchesIn(annotations[..i], tappedName))
      {
        assert annotations[..i + 1][..i] == annotations[..i];
        if Matches(annotations[i], tappedName) {
          actions := actions + [SelectAnnotation(i)];
        }
        i := i + 1;
      }
      assert annotations[..i] == annotations;
      actions := actions + [ScrollToItem(index)];
    }
  }
}
