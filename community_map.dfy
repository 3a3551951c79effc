/** The simplified community map: coordinates projected around Tunis, and the selected marker. */
module CommunityMap {

  import opened Wrappers

  const CenterLat: real := 36.8065
  const CenterLng: real := 10.1815
  const Scale: real := 200.0

  datatype Point = Point(x: real, y: real)

  datatype MapItem = MapItem(id: string, title: string, itemType: string, latitude: real, longitude: real,
                             address: string, distance: Option<real>, userId: string, userName: string)

  /** `Math.min(Math.max(v, 0), 100)`. */
  function ClampPercent(v: real): (r: real)
    ensures 0.0 <= r <= 100.0
    ensures 0.0 <= v <= 100.0 ==> r == v
    ensures v < 0.0 ==> r == 0.0
    ensures v > 100.0 ==> r == 100.0
  {
    var atLeast := if v < 0.0 then 0.0 else v;
    if atLeast < 100.0 then atLeast else 100.0
  }

  /** `normalizeCoordinates`: east is right, north is up, 200 percent per degree, clamped to the map. */
  function NormalizeCoordinates(lat: real, lng: real): (p: Point)
    ensures 0.0 <= p.x <= 100.0 && 0.0 <= p.y <= 100.0
    ensures p.x == ClampPercent((lng - CenterLng) * Scale + 50.0)
    ensures p.y == ClampPercent((CenterLat - lat) * Scale + 50.0)
  {
    var x := (lng - CenterLng) * Scale + 50.0;
    var y := (CenterLat - lat) * Scale + 50.0;
    Point(ClampPercent(x), ClampPercent(y))
  }

  /** The centre of Tunis sits in the middle of the map. */
  lemma CentreIsMiddle()
    ensures NormalizeCoordinates(CenterLat, CenterLng) == Point(50.0, 50.0)
  {
  }

  /** Within a quarter degree of the centre nothing is clamped. */
  lemma NearCentreIsUnclamped(lat: real, lng: real)
    requires -0.25 <= lat - CenterLat <= 0.25 && -0.25 <= lng - CenterLng <= 0.25
    ensures NormalizeCoordinates(lat, lng).x == (lng - CenterLng) * Scale + 50.0
    ensures NormalizeCoordinates(lat, lng).y == (CenterLat - lat) * Scale + 50.0
  {
  }

  /** Further east is never further left; further north is never lower on the map. */
  lemma ProjectionMonotone(lat1: real, lng1: real, lat2: real, lng2: real)
    requires lng1 <= lng2 && lat1 <= lat2
    ensures NormalizeCoordinates(lat1, lng1).x <= NormalizeCoordinates(lat2, lng2).x
    ensures NormalizeCoordinates(lat1, lng1).y >= NormalizeCoordinates(lat2, lng2).y
  {
  }

  class Map {
    var selectedItem: Option<MapItem>

    constructor()
      ensures selectedItem == None
    {
      selectedItem := None;
    }

    /** `handleMarkerClick`: the clicked item becomes the selection. */
    method MarkerClick(item: MapItem)
      modifies this
      ensures selectedItem == Some(item)
    {
      selectedItem := Some(item);
    }

    /** The info card is drawn exactly when an item is selected, and shows that item. */
    function InfoCard(): (card: Option<MapItem>)
      reads this
      ensures card.Some? <==> selectedItem.Some?
      ensures card.Some? ==> card == selectedItem
    {
      selectedItem
    }

    /** A marker wears the highlight ring when its id is the selected item's. */
    function IsHighlighted(item: MapItem): (b: bool)
      reads this
      ensures b <==> selectedItem.Some? && selectedItem.value.id == item.id
    {
      match selectedItem
      case Some(s) => s.id == item.id
      case None => false
    }
  }
}
