/**
 * The address input (`src/components/ui/address-picker.tsx`): the text shown
 * for a selected place, the coordinates forwarded while the user types, and
 * when the input is disabled.
 *
 * Coordinates are only passed through. Every call of the `onChange` prop is
 * logged in `emitted`. The Autocomplete widget is reduced to the place
 * `getPlace()` returns; `geometry.location` is either present, with its
 * `lat()`/`lng()` values, or absent.
 */
module AddressPicker {
  import opened Wrappers
  import JsText

  datatype Coordinates = Coordinates(latitude: real, longitude: real)

  /** The `coordinates` state: both components are `null` until a place is selected. */
  datatype StoredCoordinates = StoredCoordinates(latitude: Option<real>, longitude: Option<real>)

  datatype Place = Place(
    location: Option<Coordinates>,
    formattedAddress: string,
    name: Option<string>,
    types: Option<seq<string>>)

  /** One call of `onChange(address, coordinates)`. */
  datatype Emission = Emission(address: string, coordinates: Coordinates)

  /** The place is a venue with a name: its types list "establishment" or "point_of_interest" and `name` is non-empty. */
  predicate NamesVenue(place: Place)
  {
    && place.types.Some?
    && ("establishment" in place.types.value || "point_of_interest" in place.types.value)
    && JsText.Truthy(place.name)
  }

  /** The text the `place_changed` handler emits for a place. */
  function LocationText(place: Place): string
  {
    if NamesVenue(place) then place.name.value + ", " + place.formattedAddress else place.formattedAddress
  }

  /**
   * The formatted address always ends the text; a named venue prefixes it
   * with its name and ", ", and the text is the bare address exactly when the
   * place is not a named venue.
   */
  lemma LocationTextShape(place: Place)
    ensures var t, a := LocationText(place), place.formattedAddress;
      |a| <= |t| && t[|t| - |a|..] == a
    ensures NamesVenue(place) ==> LocationText(place)[..|place.name.value| + 2] == place.name.value + ", "
    ensures LocationText(place) == place.formattedAddress <==> !NamesVenue(place)
  {
    var t, a := LocationText(place), place.formattedAddress;
    if NamesVenue(place) {
      var prefix := place.name.value + ", ";
      assert t == prefix + a;
      assert t[..|prefix|] == prefix;
      assert t[|t| - |a|..] == a;
      assert |t| > |a|;
    } else {
      assert t[|t| - |a|..] == a;
    }
  }

  /** `!googleMapsApiKey || googleMapsApiKey === ""`. */
  predicate ApiKeyMissing(apiKey: Option<string>)
  {
    !JsText.Truthy(apiKey) || apiKey == Some("")
  }

  class Picker {
    /** The `disabled` prop. */
    const disabled: bool
    /** `NEXT_PUBLIC_GOOGLE_MAPS_API_KEY`, undefined when not set. */
    const apiKey: Option<string>
    var coordinates: StoredCoordinates
    var emitted: seq<Emission>

    /** The component's first render: nothing selected, nothing emitted. */
    constructor (disabled: bool, apiKey: Option<string>)
      ensures this.disabled == disabled && this.apiKey == apiKey
      ensures coordinates == StoredCoordinates(None, None) && emitted == []
    {
      this.disabled := disabled;
      this.apiKey := apiKey;
      coordinates := StoredCoordinates(None, None);
      emitted := [];
    }

    /** The input's `disabled` attribute: set by the prop, or when the key is undefined or empty. */
    function InputDisabled(): (r: bool)
      reads this
      ensures r <==> disabled || apiKey.None? || apiKey.value == ""
    {
      disabled || ApiKeyMissing(apiKey)
    }

    /**
     * The `place_changed` listener. Without a location nothing is stored and
     * nothing emitted. With one, its coordinates are stored and then emitted
     * together with the place's text.
     */
    method PlaceChanged(place: Option<Place>)
      modifies this
      ensures place.None? || place.value.location.None? ==>
        coordinates == old(coordinates) && emitted == old(emitted)
      ensures place.Some? && place.value.location.Some? ==>
        var c := place.value.location.value;
        && coordinates == StoredCoordinates(Some(c.latitude), Some(c.longitude))
        && emitted == old(emitted) + [Emission(LocationText(place.value), c)]
    {
      if place.Some? && place.value.location.Some? {
        var latitude := place.value.location.value.latitude;
        var longitude := place.value.location.value.longitude;
        var newCoordinates := Coordinates(latitude, longitude);
        coordinates := StoredCoordinates(Some(latitude), Some(longitude));
        var locationText := place.value.formattedAddress;
        if NamesVenue(place.value) {
          locationText := place.value.name.value + ", " + place.value.formattedAddress;
        }
        emitted := emitted + [Emission(locationText, newCoordinates)];
      }
    }

    /**
     * `handleInputChange`: the typed text is always emitted, with the stored
     * coordinates when both are set and with (0, 0) otherwise.
     */
    method HandleInputChange(text: string)
      modifies this
      ensures coordinates == old(coordinates)
      ensures old(coordinates.latitude.Some? && coordinates.longitude.Some?) ==>
        emitted == old(emitted) + [Emission(text, Coordinates(coordinates.latitude.value, coordinates.longitude.value))]
      ensures !old(coordinates.latitude.Some? && coordinates.longitude.Some?) ==>
        emitted == old(emitted) + [Emission(text, Coordinates(0.0, 0.0))]
    {
      if coordinates.latitude.Some? && coordinates.longitude.Some? {
        emitted := emitted + [Emission(text, Coordinates(coordinates.latitude.value, coordinates.longitude.value))];
      } else {
        emitted := emitted + [Emission(text, Coordinates(0.0, 0.0))];
      }
    }
  }

  /**
   * Typing after a selection forwards exactly the selected place's
   * coordinates with the typed text; typing before any selection forwards (0, 0).
   */
  method SelectThenType(picker: Picker, place: Place, text: string)
    requires place.location.Some?
    modifies picker
    ensures |picker.emitted| == |old(picker.emitted)| + 2
    ensures picker.emitted[|picker.emitted| - 2] == Emission(LocationText(place), place.location.value)
    ensures picker.emitted[|picker.emitted| - 1] == Emission(text, place.location.value)
  {
    picker.PlaceChanged(Some(place));
    picker.HandleInputChange(text);
  }

  method TypeBeforeSelecting(disabled: bool, apiKey: Option<string>, text: string) returns (picker: Picker)
    ensures picker.emitted == [Emission(text, Coordinates(0.0, 0.0))]
  {
    picker := new Picker(disabled, apiKey);
    picker.HandleInputChange(text);
  }
}
