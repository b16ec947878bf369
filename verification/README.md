# GooglePlacesMap — a Dafny model of its own logic

GooglePlacesMap is a small iOS demo: a map with place search, a carousel of
results under it, and a directions screen where the user picks a source and a
destination. Searching, routing and drawing are done by MapKit. This project
models the few pieces of logic the application itself contains. MapKit objects
are replaced by plain values (`MapKitModel`):

- an `MKPlacemark` is six optional postal fields and a coordinate;
- an `MKMapItem` is an optional name and a placemark;
- an annotation is one of three kinds: a point annotation (title, coordinate),
  a custom annotation carrying an optional map item, or any other annotation;
- an `MKMapView` is the list of annotations it shows, in the order they were added.

The pieces modelled:

1. **Main screen** (`MainScreen`, `main_view_controller.dfy`). `addressString`
   builds the postal-address line of a placemark. The search completion pins
   one point annotation per result on the map.
2. **Directions screen** (`Directions`, `direction_search_view.dfy`).
   - `DirectionsEnvironment` holds two "selecting" flags and two optional endpoints.
   - The location picker's back button and result buttons update that state in place.
   - The picker's search completion replaces its list of results.
   - The directions map rebuilds its annotations from the present endpoints.
   - The endpoint rows fall back to "Source" and "Destination".
3. **Carousel** (`Carousel`, `locations_carousel_controller.dfy`). Tapping a
   card issues a select call for every custom annotation whose item has the card's name, then
   scrolls to the card. The side effects are returned as a list of actions.

Imperative source code is modelled by classes whose methods change fields and
carry `modifies` clauses, with loops where the source iterates. Pure parts (the
address line as a value, `compactMap` over the endpoints, the label fallbacks,
the matching rule) are functions with lemmas about them.

## Model

| member | source | states |
|---|---|---|
| `MainScreen.MainViewController.AddressString` | GooglePlacesMap/Main/MainViewController.swift:77-98 | The step-by-step line, whose first step assigns rather than appends, equals `Address(p)`: the six present fields in the fixed order, each followed by its own separator. |
| `MainScreen.AddressAsConcatenation` | GooglePlacesMap/Main/MainViewController.swift:79-96 | The line is the street number + " ", street + ", ", postal code + " ", city + ", ", state + " ", country, in that order. An absent field contributes "". |
| `MainScreen.AddressAllAbsent` | GooglePlacesMap/Main/MainViewController.swift:78-97 | With all six fields absent, the line is empty. |
| `MainScreen.AddressLength` | GooglePlacesMap/Main/MainViewController.swift:79-96 | The line's length is the sum, over the present fields, of field length plus separator length. |
| `MainScreen.AddressFieldPlacement` | GooglePlacesMap/Main/MainViewController.swift:79-96 | A present field occurs exactly as itself followed by its separator, right after the parts before it. An absent field leaves its neighbours joined directly. |
| `MainScreen.AddressFieldsInOrder` | GooglePlacesMap/Main/MainViewController.swift:79-96 | A present field ends no later than any later field starts, so fields keep the fixed order. |
| `MainScreen.AddressEndsWithCountry` | GooglePlacesMap/Main/MainViewController.swift:94-96 | When the country is present, the line ends with it. |
| `MainScreen.JoinedSplit` | GooglePlacesMap/Main/MainViewController.swift:78-96 | Joining the parts is joining any prefix of them followed by the rest. |
| `MainScreen.ContributionAt` | GooglePlacesMap/Main/MainViewController.swift:78-96 | Each part's contribution sits between the parts before it and the parts after it. |
| `MainScreen.MainViewController.constructor` | GooglePlacesMap/Main/MainViewController.swift:23 | The controller owns a new map view with no annotations. |
| `MainScreen.MainViewController.AddAnnotation` | GooglePlacesMap/Main/MainViewController.swift:54-58 | One point annotation is appended, titled with the item's name and placed at its coordinate. The annotations already there are kept. |
| `MainScreen.MainViewController.SearchCompleted` | GooglePlacesMap/Main/MainViewController.swift:38-51 | On an error, or when there is no response, the annotations are unchanged. Otherwise exactly one point annotation per returned item is appended, in response order, and earlier annotations stay. |
| `MapKitModel.MapView.AddAnnotation` | GooglePlacesMap/Main/MainViewController.swift:58 | Adding an annotation appends it after the existing ones. |
| `MapKitModel.MapView.RemoveAnnotations` | GooglePlacesMap/SwiftUIComponent/DirectionSearchView.swift:20 | Exactly the listed annotations leave the map. The others stay, in order. |
| `MapKitModel.WithoutCovered` | GooglePlacesMap/SwiftUIComponent/DirectionSearchView.swift:20 | Removing a list that covers every annotation on the map leaves it empty. |
| `MapKitModel.WithoutMembers` | GooglePlacesMap/SwiftUIComponent/DirectionSearchView.swift:20 | After a removal, an annotation is on the map iff it was there before and was not listed. |
| `Directions.DirectionsEnvironment.constructor` | GooglePlacesMap/SwiftUIComponent/DirectionSearchView.swift:134-140 | A new environment has both flags false and no endpoints. |
| `Directions.SelectLocationView.BackTapped` | GooglePlacesMap/SwiftUIComponent/DirectionSearchView.swift:45-47 | Both selecting flags become false. Both endpoints are unchanged. |
| `Directions.SelectLocationView.ResultTapped` | GooglePlacesMap/SwiftUIComponent/DirectionSearchView.swift:64-72 | While selecting a destination, the result becomes the destination and `isSelectingDestination` clears; the source and `isSelectingSource` are unchanged, so destination wins when both flags are set. Otherwise the result becomes the source, `isSelectingSource` clears, and the destination is unchanged. |
| `Directions.SelectLocationView.constructor` | GooglePlacesMap/SwiftUIComponent/DirectionSearchView.swift:40-41 | The picker starts with an empty query and no results. |
| `Directions.SelectLocationView.SearchCompleted` | GooglePlacesMap/SwiftUIComponent/DirectionSearchView.swift:56-58 | The results become the response's items, or the empty list when there is no response. The error is ignored. |
| `Directions.SelectLocationView.ShowsResults` | GooglePlacesMap/SwiftUIComponent/DirectionSearchView.swift:62 | The results list is shown iff it is non-empty. |
| `Directions.SourceLabel` | GooglePlacesMap/SwiftUIComponent/DirectionSearchView.swift:105 | The source's name; "Source" when there is no source or it has no name. |
| `Directions.DestinationLabel` | GooglePlacesMap/SwiftUIComponent/DirectionSearchView.swift:116 | The destination's name; "Destination" when there is no destination or it has no name. |
| `Directions.EndpointLabelFallback` | GooglePlacesMap/SwiftUIComponent/DirectionSearchView.swift:105 | The placeholder is shown iff the endpoint is absent, nameless, or named exactly like the placeholder. Any other text is the endpoint's own name. |
| `Directions.CompactMapMembers` | GooglePlacesMap/SwiftUIComponent/DirectionSearchView.swift:22 | A value survives `compactMap` iff it was present in the input. |
| `Directions.EndpointsCases` | GooglePlacesMap/SwiftUIComponent/DirectionSearchView.swift:22 | The endpoints list is [source, destination], [source], [destination] or [], according to which are present. It has at most two entries. |
| `Directions.DirectionsMapView.UpdateUIView` | GooglePlacesMap/SwiftUIComponent/DirectionSearchView.swift:19-30 | Afterwards the map holds exactly one point annotation per present endpoint, source first, with none of the old ones left. |
| `Directions.UpdatedMapAnnotations` | GooglePlacesMap/SwiftUIComponent/DirectionSearchView.swift:22-27 | The rebuilt map has one annotation per present endpoint (0 to 2). The first is the source's and the last is the destination's, each titled with the endpoint's name. |
| `Carousel.MatchesInExactly` | GooglePlacesMap/Main/LocationsCarouselController.swift:45-50 | A position receives a select call iff the annotation there is a custom annotation whose item name equals the tapped name under `Optional` equality. Every match receives one (no early exit), and non-custom annotations never do. |
| `Carousel.MatchesInIncreasing` | GooglePlacesMap/Main/LocationsCarouselController.swift:45-50 | Select calls follow iteration order, and no position receives two. |
| `Carousel.MatchesInBounded` | GooglePlacesMap/Main/LocationsCarouselController.swift:45 | Every position that receives a select call is a position of the annotation list. |
| `Carousel.MissingNameMatchesMissingName` | GooglePlacesMap/Main/LocationsCarouselController.swift:47 | A custom annotation with no item, or an item with no name, matches exactly when the tapped item has no name. |
| `Carousel.SearchPinsNeverSelected` | GooglePlacesMap/Main/LocationsCarouselController.swift:46 | The point annotations the main screen's search adds never receive a select call from a carousel tap, because they are not custom annotations. |
| `Carousel.LocationsCarouselController.DidSelectItemAt` | GooglePlacesMap/Main/LocationsCarouselController.swift:42-53 | The actions are one select call per matching annotation, in order, then exactly one scroll to the tapped index, whether or not anything matched. With no main controller, only the scroll happens. The tapped index must be in range. The method modifies nothing, so neither the items nor the annotations change. |

## Left out

- MapKit's search, rendering and routing are not modelled. This covers the
  `MKLocalSearch` requests with their query and region, `showAnnotations`,
  and annotation-view styling. A search is modelled only by its completion,
  whose inputs are an optional list of items and an optional error.
- The `print` calls are not modelled. The main screen still computes each
  result's address line, as `performLocationSearch` does, but the line is not printed.
- The 500 ms debounce on the picker's text field is not modelled; it is Combine
  timing, not sequential logic. So is the binding of the text field to `searchQuery`.
- The `NavigationLink`s that set `isSelectingSource` / `isSelectingDestination`
  to true through their `isActive` bindings are not modelled. They are SwiftUI
  navigation, so the methods accept any starting flag values.
- Coordinates, the fixed search region, and layout sizes and insets are not
  modelled. They are floating point and UI-only; coordinates are carried but
  never computed on.
- `MKMapItem.address()` and `CustomAnnotation` are not part of this model
  because their definitions are not among the modelled files. Only a custom
  annotation's `mapItem` is used.
- `LocationCell`, previews, the status-bar spacer, and `MapSearchingView.swift`
  are view-layer code with no logic and are not modelled.
- The model keeps annotations in the order they were added. MapKit does not
  promise an order for `MKMapView.annotations`. The claims "source first" and
  "in iteration order" assume that order.
- The model treats annotations as values. A select action names the
  annotation's position in the list, which keeps MapKit's reference identity
  for the carousel. `RemoveAnnotations` removes by value, which only matters
  for the removal of all annotations, where it is the same.
- The weak `mainController` link being released in the middle of the carousel
  walk is not modelled: the link is read once, and each handler runs to
  completion before the next event.
- The map's selection state is not modelled. The carousel's select calls are
  recorded as actions; `MKMapView` keeps at most one selected annotation, so
  after a tap only the last select call has a lasting effect.
- `Carousel.MatchesInExactly` and `Carousel.LocationsCarouselController.DidSelectItemAt`
  compare names character by character, where a character is a Unicode scalar.
  Swift's `String` `==` compares by canonical equivalence, so names that differ
  only in Unicode normalisation (a precomposed "é" against "e" plus a combining
  accent) match in the app but not in the model.
- `MainScreen.AddressLength` counts the line's length in Unicode scalars, not in
  Swift `Character`s (grapheme clusters); a field starting with a combining mark
  merges with the separator before it into one `Character`, which the model
  counts as two.
