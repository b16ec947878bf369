/**
 * The main screen: the postal-address line built from a placemark, and the
 * completion of the local search that pins every result on the map.
 */
module MainScreen {
  import opened MapKitModel

  // ---------------------------------------------------------------------------
  // The address line
  // ---------------------------------------------------------------------------

  /** One placemark field and the separator written after it when the field is present. */
  datatype AddressPart = AddressPart(field: Option<string>, separator: string)

  /**
   * The six fields in the order the address line lists them, each with its own
   * separator: " " after the street number, ", " after the street, " " after
   * the postal code, ", " after the city, " " after the state and nothing after
   * the country.
   */
  function AddressParts(p: Placemark): seq<AddressPart>
  {
    [ AddressPart(p.subThoroughfare, " "),
      AddressPart(p.thoroughfare, ", "),
      AddressPart(p.postalCode, " "),
      AddressPart(p.locality, ", "),
      AddressPart(p.administrativeArea, " "),
      AddressPart(p.country, "") ]
  }

  /** What one part adds to the line: the field and its separator, or nothing when the field is absent. */
  function Contribution(part: AddressPart): string
  {
    match part.field
    case Some(f) => f + part.separator
    case None => ""
  }

  /** The contributions of the parts, one after the other. */
  function Joined(parts: seq<AddressPart>): string
  {
    if parts == [] then "" else Contribution(parts[0]) + Joined(parts[1..])
  }

  /** The address line of a placemark. */
  function Address(p: Placemark): string
  {
    Joined(AddressParts(p))
  }

  /** Joining a list is joining any prefix and the rest, in that order. */
  lemma {:induction false} JoinedSplit(parts: seq<AddressPart>, i: nat)
    requires i <= |parts|
    ensures Joined(parts) == Joined(parts[..i]) + Joined(parts[i..])
  {
    if i > 0 {
      JoinedSplit(parts[1..], i - 1);
      assert parts[1..][..i - 1] == parts[..i][1..];
      assert parts[1..][i - 1..] == parts[i..];
    }
  }

  /** Part `i` of a list sits in the joined line right after the parts before it. */
  lemma ContributionAt(parts: seq<AddressPart>, i: nat)
    requires i < |parts|
    ensures Joined(parts[..i]) + Contribution(parts[i]) + Joined(parts[i + 1..]) == Joined(parts)
  {
    JoinedSplit(parts, i);
    assert parts[i..][1..] == parts[i + 1..];
  }

  /** The address line is the six contributions in their fixed order. */
  lemma AddressAsConcatenation(p: Placemark)
    ensures Address(p) ==
      Contribution(AddressPart(p.subThoroughfare, " "))
      + Contribution(AddressPart(p.thoroughfare, ", "))
      + Contribution(AddressPart(p.postalCode, " "))
      + Contribution(AddressPart(p.locality, ", "))
      + Contribution(AddressPart(p.administrativeArea, " "))
      + Contribution(AddressPart(p.country, ""))
  {
    var ps := AddressParts(p);
    assert Joined(ps[5..]) == Contribution(ps[5]) by { assert ps[5..][1..] == []; }
    assert Joined(ps[4..]) == Contribution(ps[4]) + Joined(ps[5..]) by { assert ps[4..][1..] == ps[5..]; }
    assert Joined(ps[3..]) == Contribution(ps[3]) + Joined(ps[4..]) by { assert ps[3..][1..] == ps[4..]; }
    assert Joined(ps[2..]) == Contribution(ps[2]) + Joined(ps[3..]) by { assert ps[2..][1..] == ps[3..]; }
    assert Joined(ps[1..]) == Contribution(ps[1]) + Joined(ps[2..]) by { assert ps[1..][1..] == ps[2..]; }
  }

  /** A placemark with none of the six fields gives the empty line. */
  lemma AddressAllAbsent(p: Placemark)
    requires p.subThoroughfare.None? && p.thoroughfare.None? && p.postalCode.None?
    requires p.locality.None? && p.administrativeArea.None? && p.country.None?
    ensures Address(p) == ""
  {
    AddressAsConcatenation(p);
  }

  /** The length a present field adds: its own length plus its separator's; an absent one adds none. */
  function PartLength(field: Option<string>, separator: string): nat
  {
    if field.Some? then |field.value| + |separator| else 0
  }

  /** The line's length is the sum, over the present fields, of field length plus separator length. */
  lemma AddressLength(p: Placemark)
    ensures |Address(p)| ==
      PartLength(p.subThoroughfare, " ") + PartLength(p.thoroughfare, ", ")
      + PartLength(p.postalCode, " ") + PartLength(p.locality, ", ")
      + PartLength(p.administrativeArea, " ") + PartLength(p.country, "")
  {
    AddressAsConcatenation(p);
  }

  /**
   * A present field appears in the line exactly as itself followed by its
   * separator, starting where the parts before it end; an absent field adds
   * nothing between its neighbours.
   */
  lemma AddressFieldPlacement(p: Placemark, i: nat)
    requires i < 6
    ensures var ps := AddressParts(p);
      var start := |Joined(ps[..i])|;
      if ps[i].field.Some? then
        start + |ps[i].field.value| + |ps[i].separator| <= |Address(p)|
        && Address(p)[start .. start + |ps[i].field.value| + |ps[i].separator|] == ps[i].field.value + ps[i].separator
      else
        Address(p) == Joined(ps[..i]) + Joined(ps[i + 1..])
  {
    ContributionAt(AddressParts(p), i);
  }

  /** Present fields appear in the fixed order: field `i` ends before field `j` starts whenever `i < j`. */
  lemma AddressFieldsInOrder(p: Placemark, i: nat, j: nat)
    requires i < j < 6
    requires AddressParts(p)[i].field.Some?
    ensures var ps := AddressParts(p);
      |Joined(ps[..i])| + |Contribution(ps[i])| <= |Joined(ps[..j])|
  {
    var ps := AddressParts(p);
    JoinedSplit(ps[..j], i);
    assert ps[..j][..i] == ps[..i];
    ContributionAt(ps[..j][i..], 0);
    assert ps[..j][i..][0] == ps[i];
    assert ps[..j][i..][..0] == [];
  }

  /** When the country is present the line ends with it: nothing is written after the country. */
  lemma AddressEndsWithCountry(p: Placemark)
    requires p.country.Some?
    ensures |p.country.value| <= |Address(p)|
    ensures Address(p)[|Address(p)| - |p.country.value|..] == p.country.value
  {
    AddressAsConcatenation(p);
  }

  // ---------------------------------------------------------------------------
  // The view controller
  // ---------------------------------------------------------------------------

  /** The main view controller; its only state that the application changes is its map view's annotations. */
  class MainViewController {
    const mapView: MapView

    constructor ()
      ensures fresh(mapView) && mapView.annotations == []
    {
      mapView := new MapView();
    }

    /**
     * `addressString(_:)`: starts from the empty line, assigns (rather than
     * appends) the street number, then appends each further present field
     * with its separator. Since the line is still empty when the first field
     * is assigned, the result is the line `Address` describes.
     */
    method AddressString(placemark: Placemark) returns (addressString: string)
      ensures addressString == Address(placemark)
    {
      addressString := "";
      if placemark.subThoroughfare.Some? {
        addressString := placemark.subThoroughfare.value + " ";
      }
      ghost var line := Contribution(AddressPart(placemark.subThoroughfare, " "));
      assert addressString == line;
      if placemark.thoroughfare.Some? {
        addressString := addressString + placemark.thoroughfare.value + ", ";
      }
      line := line + Contribution(AddressPart(placemark.thoroughfare, ", "));
      assert addressString == line;
      if placemark.postalCode.Some? {
        addressString := addressString + placemark.postalCode.value + " ";
      }
      line := line + Contribution(AddressPart(placemark.postalCode, " "));
      assert addressString == line;
      if placemark.locality.Some? {
        addressString := addressString + placemark.locality.value + ", ";
      }
      line := line + Contribution(AddressPart(placemark.locality, ", "));
      assert addressString == line;
      if placemark.administrativeArea.Some? {
        addressString := addressString + placemark.administrativeArea.value + " ";
      }
      line := line + Contribution(AddressPart(placemark.administrativeArea, " "));
      assert addressString == line;
      if placemark.country.Some? {
        addressString := addressString + placemark.country.value;
      }
      line := line + Contribution(AddressPart(placemark.country, ""));
      assert addressString == line;
      AddressAsConcatenation(placemark);
    }

    /** `addAnnotation(mapItem:)`: pins the item on the map, titled with its name. */
    method AddAnnotation(mapItem: MapItem)
      modifies mapView
      ensures mapView.annotations == old(mapView.annotations) + [PointAnnotationFor(mapItem)]
    {
      mapView.AddAnnotation(PointAnnotation(mapItem.name, mapItem.placemark.coordinate));
    }

    /**
     * The completion handler of the local search started by
     * `performLocationSearch`: on an error nothing is added; otherwise one
     * point annotation per returned item is appended, in the response's
     * order, and the annotations already on the map stay.
     */
    method SearchCompleted(res: Option<seq<MapItem>>, err: Option<SearchFailure>)
      modifies mapView
      ensures err.Some? || res.None? ==> mapView.annotations == old(mapView.annotations)
      ensures err.None? && res.Some? ==>
        mapView.annotations == old(mapView.annotations) + PointAnnotationsFor(res.value)
    {
      if err.Some? {
        return;
      }
      if res.Some? {
        var items := res.value;
        var i := 0;
        while i < |items|
          invariant 0 <= i <= |items|
          invariant mapView.annotations == old(mapView.annotations) + PointAnnotationsFor(items[..i])
        {
          // `performLocationSearch` prints this line; printing is not modelled
          var line := AddressString(items[i].placemark);
          AddAnnotation(items[i]);
          assert PointAnnotationsFor(items[..i + 1]) == PointAnnotationsFor(items[..i]) + [PointAnnotationFor(items[i])];
          i := i + 1;
        }
        assert items[..i] == items;
      }
    }
  }
}
