/**
 * The directions screen: the shared environment holding the two endpoints and
 * the two "selecting" flags, the location picker that sets them, the map that
 * pins the chosen endpoints, and the endpoint labels.
 */
module Directions {
  import opened MapKitModel

  /** Placeholder shown for a missing source. */
  const SourcePlaceholder := "Source"

  /** Placeholder shown for a missing destination. */
  const DestinationPlaceholder := "Destination"

  /** `DirectionsEnvironment`: the observable state shared by the directions views. */
  class DirectionsEnvironment {
    var isSelectingSource: bool
    var isSelectingDestination: bool
    var sourceMapItem: Option<MapItem>
    var destinationMapItem: Option<MapItem>

    /** A new environment selects nothing and has no endpoints. */
    constructor ()
      ensures !isSelectingSource && !isSelectingDestination
      ensures sourceMapItem == None && destinationMapItem == None
    {
      isSelectingSource, isSelectingDestination := false, false;
      sourceMapItem, destinationMapItem := None, None;
    }
  }

  // ---------------------------------------------------------------------------
  // Endpoint labels
  // ---------------------------------------------------------------------------

  /** `endpoint?.name ?? placeholder`. */
  function EndpointLabel(endpoint: Option<MapItem>, placeholder: string): string
  {
    match ItemName(endpoint)
    case Some(n) => n
    case None => placeholder
  }

  /**
   * The label shows the placeholder exactly when the endpoint is missing or
   * nameless, or when its name happens to be the placeholder text itself; any
   * other label is the endpoint's own name.
   */
  lemma EndpointLabelFallback(endpoint: Option<MapItem>, placeholder: string)
    ensures EndpointLabel(endpoint, placeholder) == placeholder <==>
      endpoint.None? || endpoint.value.name.None? || endpoint.value.name == Some(placeholder)
    ensures EndpointLabel(endpoint, placeholder) != placeholder ==>
      endpoint.Some? && endpoint.value.name == Some(EndpointLabel(endpoint, placeholder))
  {
  }

  /** The source row's text: the source's name, or "Source" when there is no source or it has no name. */
  function SourceLabel(env: DirectionsEnvironment): (text: string)
    reads env
    ensures env.sourceMapItem.None? ==> text == "Source"
    ensures env.sourceMapItem.Some? && env.sourceMapItem.value.name.None? ==> text == "Source"
    ensures env.sourceMapItem.Some? && env.sourceMapItem.value.name.Some? ==>
      text == env.sourceMapItem.value.name.value
  {
    EndpointLabel(env.sourceMapItem, SourcePlaceholder)
  }

  /** The destination row's text: the destination's name, or "Destination" when absent or nameless. */
  function DestinationLabel(env: DirectionsEnvironment): (text: string)
    reads env
    ensures env.destinationMapItem.None? ==> text == "Destination"
    ensures env.destinationMapItem.Some? && env.destinationMapItem.value.name.None? ==> text == "Destination"
    ensures env.destinationMapItem.Some? && env.destinationMapItem.value.name.Some? ==>
      text == env.destinationMapItem.value.name.value
  {
    EndpointLabel(env.destinationMapItem, DestinationPlaceholder)
  }

  // ---------------------------------------------------------------------------
  // The endpoints on the map
  // ---------------------------------------------------------------------------

  /** Swift's `compactMap { $0 }`: the present values, in order. */
  function CompactMap<T>(s: seq<Option<T>>): seq<T>
  {
    if s == [] then []
    else (if s[0].Some? then [s[0].value] else []) + CompactMap(s[1..])
  }

  /** A value survives `compactMap` exactly when it was present in the input. */
  lemma {:induction false} CompactMapMembers<T>(s: seq<Option<T>>, x: T)
    ensures x in CompactMap(s) <==> Some(x) in s
  {
    if s != [] {
      CompactMapMembers(s[1..], x);
      assert s == [s[0]] + s[1..];
    }
  }

  /** The endpoints the directions map shows: source then destination, leaving out missing ones. */
  function Endpoints(source: Option<MapItem>, destination: Option<MapItem>): seq<MapItem>
  {
    CompactMap([source, destination])
  }

  /** Exactly one entry per present endpoint, the source first: between none and two entries. */
  lemma EndpointsCases(source: Option<MapItem>, destination: Option<MapItem>)
    ensures Endpoints(source, destination) ==
      if source.Some? && destination.Some? then [source.value, destination.value]
      else if source.Some? then [source.value]
      else if destination.Some? then [destination.value]
      else []
    ensures |Endpoints(source, destination)| <= 2
  {
    var s := [source, destination];
    assert s[1..] == [destination] && s[1..][1..] == [];
    assert CompactMap(s[1..]) == if destination.Some? then [destination.value] else [];
    assert CompactMap(s) == (if source.Some? then [source.value] else []) + CompactMap(s[1..]);
  }

  /** `DirectionsMapView`: the map that pins the environment's endpoints. */
  class DirectionsMapView {
    const env: DirectionsEnvironment

    constructor (env: DirectionsEnvironment)
      ensures this.env == env
    {
      this.env := env;
    }

    /**
     * `updateUIView`: removes every annotation on the map, then adds one point
     * annotation per present endpoint, source first, titled with its name. The
     * annotations that were on the map before are all gone afterwards.
     */
    method UpdateUIView(uiView: MapView)
      modifies uiView
      ensures uiView.annotations == PointAnnotationsFor(Endpoints(env.sourceMapItem, env.destinationMapItem))
    {
      uiView.RemoveAnnotations(uiView.annotations);
      WithoutCovered(old(uiView.annotations), old(uiView.annotations));
      var items := CompactMap([env.sourceMapItem, env.destinationMapItem]);
      var i := 0;
      while i < |items|
        invariant 0 <= i <= |items|
        invariant uiView.annotations == PointAnnotationsFor(items[..i])
      {
        uiView.AddAnnotation(PointAnnotation(items[i].name, items[i].placemark.coordinate));
        assert PointAnnotationsFor(items[..i + 1]) == PointAnnotationsFor(items[..i]) + [PointAnnotationFor(items[i])];
        i := i + 1;
      }
      assert items[..i] == items;
    }
  }

  /** After an update, the map shows exactly the present endpoints, source first, each titled with its name. */
  lemma UpdatedMapAnnotations(source: Option<MapItem>, destination: Option<MapItem>)
    ensures var pins := PointAnnotationsFor(Endpoints(source, destination));
      |pins| == (if source.Some? then 1 else 0) + (if destination.Some? then 1 else 0)
      && (source.Some? ==> pins[0] == PointAnnotation(source.value.name, source.value.placemark.coordinate))
      && (destination.Some? ==>
            pins[|pins| - 1] == PointAnnotation(destination.value.name, destination.value.placemark.coordinate))
  {
    EndpointsCases(source, destination);
  }

  // ---------------------------------------------------------------------------
  // The location picker
  // ---------------------------------------------------------------------------

  /** `SelectLocationView`: a search field, its results, and buttons that write into the environment. */
  class SelectLocationView {
    const envObj: DirectionsEnvironment
    var searchQuery: string
    var mapItems: seq<MapItem>

    constructor (envObj: DirectionsEnvironment)
      ensures this.envObj == envObj && searchQuery == "" && mapItems == []
    {
      this.envObj := envObj;
      searchQuery := "";
      mapItems := [];
    }

    /** The back button: stops selecting either endpoint and keeps both endpoints. */
    method BackTapped()
      modifies envObj
      ensures !envObj.isSelectingSource && !envObj.isSelectingDestination
      ensures envObj.sourceMapItem == old(envObj.sourceMapItem)
      ensures envObj.destinationMapItem == old(envObj.destinationMapItem)
    {
      envObj.isSelectingSource := false;
      envObj.isSelectingDestination := false;
    }

    /**
     * The button of result `index`: while a destination is being selected the
     * result becomes the destination and that selection ends (even if a source
     * is being selected too, which then stays so); otherwise it becomes the
     * source and the source selection ends. The other endpoint never changes.
     */
    method ResultTapped(index: nat)
      requires index < |mapItems|
      modifies envObj
      ensures old(envObj.isSelectingDestination) ==>
        envObj.destinationMapItem == Some(mapItems[index]) && !envObj.isSelectingDestination
        && envObj.sourceMapItem == old(envObj.sourceMapItem)
        && envObj.isSelectingSource == old(envObj.isSelectingSource)
      ensures !old(envObj.isSelectingDestination) ==>
        envObj.sourceMapItem == Some(mapItems[index]) && !envObj.isSelectingSource
        && envObj.destinationMapItem == old(envObj.destinationMapItem)
        && !envObj.isSelectingDestination
    {
      var item := mapItems[index];
      if envObj.isSelectingDestination {
        envObj.destinationMapItem := Some(item);
        envObj.isSelectingDestination := false;
      } else {
        envObj.sourceMapItem := Some(item);
        envObj.isSelectingSource := false;
      }
    }

    /**
     * The completion of a search for `searchQuery`: the results become the
     * response's items, or none when there is no response; the error is not
     * looked at.
     */
    method SearchCompleted(resp: Option<seq<MapItem>>, error: Option<SearchFailure>)
      modifies this`mapItems
      ensures mapItems == if resp.Some? then resp.value else []
    {
      mapItems := match resp case Some(items) => items case None => [];
    }

    /** The list of results is shown only when there is at least one result. */
    function ShowsResults(): (shown: bool)
      reads this
      ensures shown <==> mapItems != []
    {
      |mapItems| > 0
    }
  }
}
