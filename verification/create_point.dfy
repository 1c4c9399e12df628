/**
 * The state of the "create collection point" page: the form fields, the
 * selected state, city, map position and items, the option lists loaded
 * from the address service, and the payload the page submits.
 * Each handler of the page replaces exactly one piece of this state.
 */
module CreatePointForm {

  import opened Selection
  import opened Regions

  /**
   * A clicked map coordinate. Coordinates are only stored and copied, never
   * computed with, so exact reals stand for the page's floating-point numbers.
   */
  datatype Position = Position(lat: real, lng: real)

  /** The body of the `POST points` request. */
  datatype Payload = Payload(
    name: string,
    email: string,
    whatsapp: string,
    uf: string,
    city: string,
    latitude: real,
    longitude: real,
    items: seq<int>)

  /** Every piece of page state that the handlers and the effects update. */
  datatype FormView = FormView(
    ufs: seq<string>,
    selectedUf: string,
    cities: seq<string>,
    selectedCity: string,
    selectedMapPosition: Position,
    selectedItems: seq<int>,
    formData: map<string, string>)

  /** The keys of the text inputs (their `name` attributes). */
  const FormKeys: set<string> := {"name", "email", "whatsapp"}

  const InitialFormData: map<string, string> := map["name" := "", "email" := "", "whatsapp" := ""]

  predicate HasFormKeys(formData: map<string, string>) {
    FormKeys <= formData.Keys
  }

  /**
   * `{ ...formData, [name]: value }`: the key `name` is set to `value`,
   * every other key keeps its value, and no key is lost.
   */
  function UpdateField(formData: map<string, string>, name: string, value: string): (r: map<string, string>)
    ensures r.Keys == formData.Keys + {name}
    ensures r[name] == value
    ensures forall k :: k in formData && k != name ==> r[k] == formData[k]
    ensures HasFormKeys(formData) ==> HasFormKeys(r)
  {
    formData[name := value]
  }

  class CreatePoint {
    var ufs: seq<string>
    var selectedUf: string
    var cities: seq<string>
    var selectedCity: string
    var selectedMapPosition: Position
    var selectedItems: seq<int>
    var formData: map<string, string>

    /** The three text fields are always present and no item is selected twice. */
    ghost predicate Valid()
      reads this
    {
      HasFormKeys(formData) && NoDuplicates(selectedItems)
    }

    ghost function View(): FormView
      reads this
    {
      FormView(ufs, selectedUf, cities, selectedCity, selectedMapPosition, selectedItems, formData)
    }

    /** The page as first rendered. */
    constructor ()
      ensures Valid()
      ensures View() == FormView([], NoUf, [], NoCity, Position(0.0, 0.0), [], InitialFormData)
    {
      ufs := [];
      selectedUf := NoUf;
      cities := [];
      selectedCity := NoCity;
      selectedMapPosition := Position(0.0, 0.0);
      selectedItems := [];
      formData := InitialFormData;
    }

    /** The state select changed; the selected city is not reset. */
    method HandleSelectedUf(value: string)
      requires Valid()
      modifies this
      ensures Valid()
      ensures View() == old(View()).(selectedUf := value)
      ensures selectedCity == old(selectedCity) && cities == old(cities)
    {
      selectedUf := value;
    }

    /** The city select changed. */
    method HandleSelectedCity(value: string)
      requires Valid()
      modifies this
      ensures Valid()
      ensures View() == old(View()).(selectedCity := value)
    {
      selectedCity := value;
    }

    /** The map was clicked at (`lat`, `lng`). */
    method HandleMapClick(lat: real, lng: real)
      requires Valid()
      modifies this
      ensures Valid()
      ensures selectedMapPosition.lat == lat && selectedMapPosition.lng == lng
      ensures View() == old(View()).(selectedMapPosition := Position(lat, lng))
    {
      selectedMapPosition := Position(lat, lng);
    }

    /** The text input called `name` now holds `value`. */
    method HandleInputChange(name: string, value: string)
      requires Valid()
      modifies this
      ensures Valid()
      ensures name in formData && formData[name] == value
      ensures forall k :: k in old(formData) && k != name ==> k in formData && formData[k] == old(formData)[k]
      ensures name in FormKeys ==> formData.Keys == old(formData).Keys
      ensures View() == old(View()).(formData := UpdateField(old(formData), name, value))
    {
      formData := UpdateField(formData, name, value);
    }

    /** The item `id` of the grid was clicked. */
    method HandleSelectedItems(id: int)
      requires Valid()
      modifies this
      ensures Valid()
      ensures id in selectedItems <==> id !in old(selectedItems)
      ensures View() == old(View()).(selectedItems := Toggle(old(selectedItems), id))
    {
      ToggleKeepsNoDuplicates(selectedItems, id);
      var index := FindIndex(selectedItems, id);
      if index >= 0 {
        selectedItems := Without(selectedItems, id);
      } else {
        selectedItems := selectedItems + [id];
      }
    }

    /**
     * The mount effect that loads the states: `respond` gives the service's
     * answer to a request for a URL; the list of states is replaced by the
     * `sigla` of each record, in the response's order.
     */
    method LoadUfs(respond: string -> seq<UfRecord>)
      requires Valid()
      modifies this
      ensures Valid()
      ensures |ufs| == |respond(UfsUrl)|
      ensures View() == old(View()).(ufs := UfCodes(respond(UfsUrl)))
    {
      ufs := UfCodes(respond(UfsUrl));
    }

    /**
     * The effect that runs when the selected state changes. With the sentinel
     * selected it requests nothing and changes nothing; otherwise it requests
     * the municipalities of the selected state and replaces the city list by
     * their names, whatever the list held before.
     */
    method ReloadCities(respond: string -> seq<CityRecord>) returns (request: Option<string>)
      requires Valid()
      modifies this
      ensures Valid()
      ensures request.None? <==> selectedUf == NoUf
      ensures request == CitiesUrl(selectedUf)
      ensures request.None? ==> View() == old(View())
      ensures request.Some? ==> View() == old(View()).(cities := CityNames(respond(request.value)))
    {
      request := CitiesUrl(selectedUf);
      if request.Some? {
        cities := CityNames(respond(request.value));
      }
    }

    /**
     * The submit handler: a snapshot of the state, field for field, with no
     * validation; sentinels, empty strings and an empty selection go out as
     * they are.
     */
    method HandleSubmit() returns (data: Payload)
      requires Valid()
      ensures data.name == formData["name"]
      ensures data.email == formData["email"]
      ensures data.whatsapp == formData["whatsapp"]
      ensures data.uf == selectedUf && data.city == selectedCity
      ensures data.latitude == selectedMapPosition.lat
      ensures data.longitude == selectedMapPosition.lng
      ensures data.items == selectedItems
    {
      var name, email, whatsapp := formData["name"], formData["email"], formData["whatsapp"];
      var Position(latitude, longitude) := selectedMapPosition;
      data := Payload(name, email, whatsapp, selectedUf, selectedCity, latitude, longitude, selectedItems);
    }
  }

  /** Submitting the untouched page sends the initial values as they are. */
  method SubmitUntouched() returns (data: Payload)
    ensures data == Payload("", "", "", NoUf, NoCity, 0.0, 0.0, [])
  {
    var page := new CreatePoint();
    data := page.HandleSubmit();
  }

  /**
   * Picking Minas Gerais requests the municipalities of "MG" and offers
   * exactly the names in the answer.
   */
  method PickState() returns (request: Option<string>, cities: seq<string>)
    ensures request == Some(UfsUrl + "/" + "MG" + CitiesSuffix)
    ensures cities == ["Juiz de Fora"]
  {
    var page := new CreatePoint();
    page.HandleSelectedUf("MG");
    request := page.ReloadCities(url => [CityRecord("Juiz de Fora")]);
    cities := page.cities;
  }

  /**
   * A user fills in the form, picks Minas Gerais and Juiz de Fora, clicks the
   * map, selects item 1, clicks item 2 twice and submits.
   */
  method SubmitFilledIn() returns (data: Payload)
    ensures data == Payload("Ecoponto", "contato@ecoponto.org", "32999990000",
                            "MG", "Juiz de Fora", -21.0, -43.0, [1])
  {
    var page := new CreatePoint();
    page.HandleInputChange("name", "Ecoponto");
    page.HandleInputChange("email", "contato@ecoponto.org");
    page.HandleInputChange("whatsapp", "32999990000");
    assert page.formData["name"] == "Ecoponto" by { assert "email" != "name" && "whatsapp" != "name"; }
    assert page.formData["email"] == "contato@ecoponto.org" by { assert "whatsapp" != "email"; }
    page.HandleSelectedUf("MG");
    page.HandleSelectedCity("Juiz de Fora");
    page.HandleMapClick(-21.0, -43.0);
    page.HandleSelectedItems(1);
    assert page.selectedItems == [1];
    page.HandleSelectedItems(2);
    assert page.selectedItems == [1, 2];
    page.HandleSelectedItems(2);
    DoubleToggleAbsent([1], 2);
    data := page.HandleSubmit();
  }
}
