/**
 * The slice of MapKit that the application's own code touches, as plain values:
 * placemarks, map items, annotations, and a map view whose only modelled state
 * is its list of annotations.
 */
module MapKitModel {

  /** Swift's `Optional`. */
  datatype Option<+T> = None | Some(value: T)

  /** A geographic coordinate; the model never computes with it. */
  datatype Coordinate = Coordinate(latitude: real, longitude: real)

  /** The six postal fields of an `MKPlacemark` that the address line uses, and its coordinate. */
  datatype Placemark = Placemark(
    subThoroughfare: Option<string>,
    thoroughfare: Option<string>,
    postalCode: Option<string>,
    locality: Option<string>,
    administrativeArea: Option<string>,
    country: Option<string>,
    coordinate: Coordinate)

  /** An `MKMapItem`: an optional display name and the placemark it stands for. */
  datatype MapItem = MapItem(name: Option<string>, placemark: Placemark)

  /**
   * The annotations a map view can hold: the `MKPointAnnotation`s the
   * application creates, the `CustomAnnotation`s that carry a map item, and
   * anything else MapKit may put on the map (the user's location, say).
   */
  datatype Annotation =
    | PointAnnotation(title: Option<string>, coordinate: Coordinate)
    | CustomAnnotation(mapItem: Option<MapItem>)
    | OtherAnnotation

  /** The error a local search can report; only its presence matters. */
  datatype SearchFailure = SearchFailure(description: string)

  /** Optional chaining `item?.name`: absent when the item or its name is absent. */
  function ItemName(item: Option<MapItem>): Option<string>
  {
    match item
    case Some(m) => m.name
    case None => None
  }

  /** The point annotation built for a map item: titled with its name, placed at its coordinate. */
  function PointAnnotationFor(item: MapItem): Annotation
  {
    PointAnnotation(item.name, item.placemark.coordinate)
  }

  /** One point annotation per map item, in the items' order. */
  function PointAnnotationsFor(items: seq<MapItem>): seq<Annotation>
  {
    seq(|items|, k requires 0 <= k < |items| => PointAnnotationFor(items[k]))
  }

  /** `s` with every annotation that occurs in `doomed` taken out. */
  function Without(s: seq<Annotation>, doomed: seq<Annotation>): seq<Annotation>
  {
    if s == [] then []
    else (if s[0] in doomed then [] else [s[0]]) + Without(s[1..], doomed)
  }

  /** Removing a list of annotations removes every annotation it covers. */
  lemma {:induction false} WithoutCovered(s: seq<Annotation>, doomed: seq<Annotation>)
    requires forall a :: a in s ==> a in doomed
    ensures Without(s, doomed) == []
  {
    if s != [] {
      assert s[0] in s;
      WithoutCovered(s[1..], doomed);
    }
  }

  /** Removing annotations keeps each annotation not removed, and only those. */
  lemma {:induction false} WithoutMembers(s: seq<Annotation>, doomed: seq<Annotation>, a: Annotation)
    ensures a in Without(s, doomed) <==> a in s && a !in doomed
  {
    if s != [] {
      WithoutMembers(s[1..], doomed, a);
      assert s == [s[0]] + s[1..];
    }
  }

  /** An `MKMapView`, reduced to the annotations it currently shows, in the order they were added. */
  class MapView {
    var annotations: seq<Annotation>

    constructor ()
      ensures annotations == []
    {
      annotations := [];
    }

    /** `addAnnotation(_:)`: the annotation joins the map after those already there. */
    method AddAnnotation(a: Annotation)
      modifies this
      ensures annotations == old(annotations) + [a]
    {
      annotations := annotations + [a];
    }

    /** `removeAnnotations(_:)`: every listed annotation leaves the map; the others stay, in order. */
    method RemoveAnnotations(doomed: seq<Annotation>)
      modifies this
      ensures annotations == Without(old(annotations), doomed)
    {
      annotations := Without(annotations, doomed);
    }
  }
}
