/** The client-side event store of frontend/stores/eventStore.js.

    The store is an object whose actions assign its fields. Numbers the
    store only passes on (coordinates) are kept as the text JavaScript prints
    for them, since the one thing done with them is to write them into a URL. */
module ClientEvents {
  import opened Common

  datatype Category = Category(id: Id, name: string)

  datatype Coordinates = Coordinates(lat: string, lng: string)

  datatype AddressComponent = AddressComponent(longName: string, types: seq<string>)

  /** The place object of the maps autocomplete, reduced to what is read. */
  datatype Place = Place(
    formattedAddress: string,
    lat: string,
    lng: string,
    addressComponents: seq<AddressComponent>,
    website: Option<string>)

  datatype EventLocation = EventLocation(
    address: string,
    coordinates: Option<Coordinates>,   // `{ lat: null, lng: null }` until a place is chosen
    postalCode: string,
    mapImageUrl: string)

  /** An event as the API returns it. */
  type EventRecord = map<string, string>

  // ---------------------------------------------------------------------------
  // Category selection

  predicate HasId(s: seq<Category>, id: Id)
  {
    exists k :: 0 <= k < |s| && s[k].id == id
  }

  predicate UniqueIds(s: seq<Category>)
  {
    forall i, j :: 0 <= i < |s| && 0 <= j < |s| && s[i].id == s[j].id ==> i == j
  }

  /** `findIndex(c => c._id === id)`: the first position holding the id, or
      -1 when there is none. */
  function IndexOfId(s: seq<Category>, id: Id): (i: int)
    ensures -1 <= i < |s|
    ensures i == -1 <==> !HasId(s, id)
    ensures i >= 0 ==> s[i].id == id && forall k :: 0 <= k < i ==> s[k].id != id
  {
    if |s| == 0 then -1
    else if s[0].id == id then 0
    else
      var j := IndexOfId(s[1..], id);
      if j == -1 then
        assert forall k :: 1 <= k < |s| ==> s[k] == s[1..][k - 1];
        -1
      else j + 1
  }

  /** The selection after toggling `c`: appended when no element has its id,
      otherwise the first element with its id is removed. */
  function Toggled(s: seq<Category>, c: Category): (r: seq<Category>)
    ensures !HasId(s, c.id) ==> r == s + [c]
    ensures HasId(s, c.id) ==> |r| == |s| - 1
  {
    var i := IndexOfId(s, c.id);
    if i == -1 then s + [c] else s[..i] + s[i + 1..]
  }

  /** The elements of `s` whose id is not `id`, in order. */
  function Others(s: seq<Category>, id: Id): (r: seq<Category>)
    ensures |r| <= |s|
  {
    if |s| == 0 then []
    else if s[0].id == id then Others(s[1..], id)
    else [s[0]] + Others(s[1..], id)
  }

  lemma {:induction false} OthersAppend(a: seq<Category>, b: seq<Category>, id: Id)
    ensures Others(a + b, id) == Others(a, id) + Others(b, id)
  {
    if |a| == 0 {
      assert a + b == b;
    } else {
      assert (a + b)[1..] == a[1..] + b;
      OthersAppend(a[1..], b, id);
    }
  }

  /** Toggling an absent category appends it and changes nothing else. */
  lemma ToggleAbsentAppends(s: seq<Category>, c: Category)
    requires !HasId(s, c.id)
    ensures Toggled(s, c) == s + [c]
  {
  }

  /** Toggling a present category removes its first occurrence; every other
      element keeps its relative order. */
  lemma {:induction false} TogglePresentRemovesFirst(s: seq<Category>, c: Category)
    requires HasId(s, c.id)
    ensures |Toggled(s, c)| == |s| - 1
    ensures Others(Toggled(s, c), c.id) == Others(s, c.id)
    ensures exists i :: 0 <= i < |s| && s[i].id == c.id && (forall k :: 0 <= k < i ==> s[k].id != c.id)
                        && Toggled(s, c) == s[..i] + s[i + 1..]
  {
    var i := IndexOfId(s, c.id);
    assert s == s[..i] + [s[i]] + s[i + 1..];
    OthersAppend(s[..i] + [s[i]], s[i + 1..], c.id);
    OthersAppend(s[..i], [s[i]], c.id);
    OthersAppend(s[..i], s[i + 1..], c.id);
    assert Others([s[i]], c.id) == [];
  }

  /** Whatever the case, the elements with other ids keep their order. */
  lemma {:induction false} ToggleKeepsOthers(s: seq<Category>, c: Category)
    ensures Others(Toggled(s, c), c.id) == Others(s, c.id)
  {
    if HasId(s, c.id) {
      TogglePresentRemovesFirst(s, c);
    } else {
      OthersAppend(s, [c], c.id);
      assert Others([c], c.id) == [];
    }
  }

  /** Toggling an absent category twice restores the selection. */
  lemma {:induction false} ToggleTwiceRestores(s: seq<Category>, c: Category)
    requires !HasId(s, c.id)
    ensures Toggled(Toggled(s, c), c) == s
  {
    var t := s + [c];
    assert IndexOfId(s, c.id) == -1;
    assert forall k :: 0 <= k < |s| ==> t[k].id != c.id;
    assert t[|s|].id == c.id;
    assert IndexOfId(t, c.id) == |s|;
    assert t[..|s|] == s;
  }

  /** With unique ids, membership of the toggled id flips and ids stay
      unique. */
  lemma {:induction false} ToggleFlipsMembership(s: seq<Category>, c: Category)
    requires UniqueIds(s)
    ensures HasId(Toggled(s, c), c.id) <==> !HasId(s, c.id)
    ensures UniqueIds(Toggled(s, c))
  {
    var i := IndexOfId(s, c.id);
    var t := Toggled(s, c);
    if i == -1 {
      assert t == s + [c];
      assert t[|s|].id == c.id;
    } else {
      assert t == s[..i] + s[i + 1..];
      forall k | 0 <= k < |t|
        ensures t[k].id != c.id
      {
        if k < i {
          assert t[k] == s[k];
        } else {
          assert t[k] == s[k + 1];
        }
      }
      forall a, b | 0 <= a < |t| && 0 <= b < |t| && t[a].id == t[b].id
        ensures a == b
      {
        var a' := if a < i then a else a + 1;
        var b' := if b < i then b else b + 1;
        assert t[a] == s[a'] && t[b] == s[b'];
      }
    }
  }

  /** `findIndex` as the loop it is. */
  method FindIndex(s: seq<Category>, id: Id) returns (i: int)
    ensures i == IndexOfId(s, id)
  {
    i := 0;
    while i < |s|
      invariant 0 <= i <= |s|
      invariant forall k :: 0 <= k < i ==> s[k].id != id
    {
      if s[i].id == id {
        return;
      }
      i := i + 1;
    }
    i := -1;
  }

  // ---------------------------------------------------------------------------
  // Place details and the static map

  /** The `long_name` of the first address component typed `postal_code`,
      or `''` when there is none. */
  function PostalCode(components: seq<AddressComponent>): (r: string)
    ensures (forall k :: 0 <= k < |components| ==> "postal_code" !in components[k].types) ==> r == ""
    ensures forall k :: 0 <= k < |components| && "postal_code" in components[k].types
                        && (forall j :: 0 <= j < k ==> "postal_code" !in components[j].types)
                        ==> r == components[k].longName
  {
    if |components| == 0 then ""
    else if "postal_code" in components[0].types then components[0].longName
    else
      var r := PostalCode(components[1..]);
      assert forall k :: 1 <= k < |components| ==> components[k] == components[1..][k - 1];
      r
  }

  const StaticMapBase := "https://maps.googleapis.com/maps/api/staticmap?center="
  const MapOptions := "&zoom=15&size=600x300&maptype=roadmap&markers=color:red%7C"

  /** A key that was never set prints as `null`. */
  function KeyText(key: Option<string>): (t: string)
  {
    if key.Some? then key.value else "null"
  }

  /** `generateMapImageUrl`: the static map centred on the point, with one
      red marker on it, signed with the stored key. */
  function MapImageUrl(lat: string, lng: string, key: Option<string>): (url: string)
    ensures var point := lat + "," + lng;
            && |url| == |StaticMapBase| + 2 * |point| + |MapOptions| + |"&key="| + |KeyText(key)|
            && url[..|StaticMapBase| + |point|] == StaticMapBase + point
            && url[|StaticMapBase| + |point| ..][..|MapOptions| + |point|] == MapOptions + point
            && url[|StaticMapBase| + 2 * |point| + |MapOptions| ..] == "&key=" + KeyText(key)
  {
    var point := lat + "," + lng;
    var url := StaticMapBase + point + MapOptions + point + "&key=" + KeyText(key);
    assert url == (StaticMapBase + point) + ((MapOptions + point) + ("&key=" + KeyText(key)));
    url
  }

  // ---------------------------------------------------------------------------
  // The store

  class EventStore {
    var event: Option<EventRecord>
    var selectedCategories: seq<Category>
    var events: seq<EventRecord>
    var eventLocation: EventLocation
    var externalUrl: Option<string>
    var mapCenter: Coordinates
    var hasTriedSubmit: bool
    var googleMapsApiKey: Option<string>

    /** The initial state. */
    constructor ()
      ensures event == None && selectedCategories == [] && events == []
      ensures eventLocation == EventLocation("", None, "", "")
      ensures externalUrl == Some("")
      ensures mapCenter == Coordinates("51.09", "6.84")
      ensures !hasTriedSubmit && googleMapsApiKey == None
    {
      event := None;
      selectedCategories := [];
      events := [];
      eventLocation := EventLocation("", None, "", "");
      externalUrl := Some("");
      mapCenter := Coordinates("51.09", "6.84");
      hasTriedSubmit := false;
      googleMapsApiKey := None;
    }

    method SetEvent(eventData: Option<EventRecord>)
      modifies this`event
      ensures event == eventData
    {
      event := eventData;
    }

    /** `toggleCategory`: push the category when its id is not selected,
        otherwise splice out the first element with that id. */
    method ToggleCategory(category: Category)
      modifies this`selectedCategories
      ensures selectedCategories == Toggled(old(selectedCategories), category)
    {
      var index := FindIndex(selectedCategories, category.id);
      if index == -1 {
        selectedCategories := selectedCategories + [category];
      } else {
        selectedCategories := selectedCategories[..index] + selectedCategories[index + 1..];
      }
    }

    /** `setPlaceDetails`: the address, coordinates, postal code and map
        image of the chosen place, and its website. */
    method SetPlaceDetails(place: Place)
      modifies this`eventLocation, this`externalUrl
      ensures eventLocation == EventLocation(
                place.formattedAddress,
                Some(Coordinates(place.lat, place.lng)),
                PostalCode(place.addressComponents),
                MapImageUrl(place.lat, place.lng, googleMapsApiKey))
      ensures externalUrl == place.website
    {
      eventLocation := EventLocation(
        place.formattedAddress,
        Some(Coordinates(place.lat, place.lng)),
        PostalCode(place.addressComponents),
        MapImageUrl(place.lat, place.lng, googleMapsApiKey));
      externalUrl := place.website;
    }

    method SetMapCenter(lat: string, lng: string)
      modifies this`mapCenter
      ensures mapCenter == Coordinates(lat, lng)
    {
      mapCenter := Coordinates(lat, lng);
    }

    method SetMapImageUrl(lat: string, lng: string)
      modifies this`eventLocation
      ensures eventLocation == old(eventLocation).(mapImageUrl := MapImageUrl(lat, lng, googleMapsApiKey))
    {
      eventLocation := eventLocation.(mapImageUrl := MapImageUrl(lat, lng, googleMapsApiKey));
    }

    method SetHasTriedSubmit(value: bool)
      modifies this`hasTriedSubmit
      ensures hasTriedSubmit == value
    {
      hasTriedSubmit := value;
    }

    method SetEvents(newEvents: seq<EventRecord>)
      modifies this`events
      ensures events == newEvents
    {
      events := newEvents;
    }

    method SetGoogleMapsApiKey(key: Option<string>)
      modifies this`googleMapsApiKey
      ensures googleMapsApiKey == key
    {
      googleMapsApiKey := key;
    }
  }
}
