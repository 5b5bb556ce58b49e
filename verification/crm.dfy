/**
 * Customers and vehicles: the edit schemas, the update of a vehicle, the
 * deletion guards (no deletion while invoices, quotes or repair orders refer
 * to the row) and the label of a customer in the customer picker.
 */
module Crm {
  import opened Wrappers
  import opened Strings

  datatype Customer = Customer(
    firstName: string,
    lastName: string,
    companyName: Option<string>,
    email: Option<string>,
    phone: Option<string>,
    addressLine1: Option<string>,
    postalCode: Option<string>,
    city: Option<string>,
    siret: Option<string>,
    vatNumber: Option<string>)

  datatype Vehicle = Vehicle(
    registrationPlate: string,
    customerId: string,
    make: Option<string>,
    model: Option<string>,
    vin: Option<string>,
    year: Option<int>,
    mileageKm: int)

  /** What a quote, an invoice or a repair order points at. */
  datatype Link = Link(customerId: string, vehicleId: Option<string>)

  datatype CrmStore = CrmStore(
    customers: map<string, Customer>,
    vehicles: map<string, Vehicle>,
    invoices: map<string, Link>,
    quotes: map<string, Link>,
    repairOrders: map<string, Link>)

  datatype CrmError =
    | InvalidData       // the schema refuses the form
    | NotFound          // "Client non trouvé" / "Véhicule non trouvé", or no row to update
    | HasDocuments      // "Impossible de supprimer ..."
    | UnknownCustomer   // the database refuses a customerId naming no customer

  /* ------------------------------- Customers ------------------------------ */

  /** The posted customer form; every field arrives as a string, "" when left blank. */
  datatype CustomerForm = CustomerForm(
    firstName: string, lastName: string, companyName: string, email: string, phone: string,
    addressLine1: string, postalCode: string, city: string, siret: string, vatNumber: string)

  /** `customerSchema`: both names non-empty, the e-mail empty or an address `isEmail` accepts. */
  predicate ValidCustomer(f: CustomerForm, isEmail: string -> bool) {
    |f.firstName| >= 1 && |f.lastName| >= 1 && (f.email == "" || isEmail(f.email))
  }

  /** The row an accepted form writes: the strings as posted, blanks included. */
  function CustomerFromForm(f: CustomerForm): (c: Customer)
    ensures c.firstName == f.firstName && c.lastName == f.lastName
    ensures c.companyName == Some(f.companyName) && c.email == Some(f.email)
  {
    Customer(f.firstName, f.lastName, Some(f.companyName), Some(f.email), Some(f.phone),
             Some(f.addressLine1), Some(f.postalCode), Some(f.city), Some(f.siret), Some(f.vatNumber))
  }

  /** `updateCustomerAction`: the schema first, then the update of an existing row. */
  function UpdateCustomer(st: CrmStore, id: string, f: CustomerForm, isEmail: string -> bool): (r: Result<CrmStore, CrmError>)
    ensures !ValidCustomer(f, isEmail) <==> r == Err(InvalidData)
    ensures ValidCustomer(f, isEmail) ==> (r.Ok? <==> id in st.customers)
    ensures r.Ok? ==> r.value == st.(customers := st.customers[id := CustomerFromForm(f)])
  {
    if !ValidCustomer(f, isEmail) then Err(InvalidData)
    else if id !in st.customers then Err(NotFound)
    else Ok(st.(customers := st.customers[id := CustomerFromForm(f)]))
  }

  /** Some invoice or quote belongs to the customer. */
  predicate CustomerHasDocuments(st: CrmStore, id: string) {
    || (exists d :: d in st.invoices && st.invoices[d].customerId == id)
    || (exists d :: d in st.quotes && st.quotes[d].customerId == id)
  }

  /** `deleteMany({ where: { customerId } })` on vehicles. */
  function VehiclesNotOf(vehicles: map<string, Vehicle>, customerId: string): (r: map<string, Vehicle>)
    ensures forall v :: v in r <==> v in vehicles && vehicles[v].customerId != customerId
    ensures forall v :: v in r ==> r[v] == vehicles[v]
  {
    map v | v in vehicles && vehicles[v].customerId != customerId :: vehicles[v]
  }

  /**
   * `deleteCustomerAction`: an unknown customer, or one with invoices or
   * quotes, is refused; otherwise the customer's vehicles go, then the customer.
   */
  function DeleteCustomer(st: CrmStore, id: string): (r: Result<CrmStore, CrmError>)
    ensures id !in st.customers <==> r == Err(NotFound)
    ensures r == Err(HasDocuments) <==> id in st.customers && CustomerHasDocuments(st, id)
    ensures r.Ok? ==>
      && r.value.customers == st.customers - {id}
      && (forall v :: v in r.value.vehicles <==> v in st.vehicles && st.vehicles[v].customerId != id)
      && (forall v :: v in r.value.vehicles ==> r.value.vehicles[v] == st.vehicles[v])
      && r.value.invoices == st.invoices && r.value.quotes == st.quotes
      && r.value.repairOrders == st.repairOrders
  {
    if id !in st.customers then Err(NotFound)
    else if CustomerHasDocuments(st, id) then Err(HasDocuments)
    else Ok(st.(customers := st.customers - {id}, vehicles := VehiclesNotOf(st.vehicles, id)))
  }

  /** Owning vehicles does not block the deletion of a customer. */
  lemma VehiclesDoNotBlockDeletion(st: CrmStore, id: string)
    requires id in st.customers && !CustomerHasDocuments(st, id)
    ensures DeleteCustomer(st, id).Ok?
    ensures forall v :: v in DeleteCustomer(st, id).value.vehicles ==> DeleteCustomer(st, id).value.vehicles[v].customerId != id
  {
  }

  /* -------------------------------- Vehicles ------------------------------ */

  /** The posted vehicle form. */
  datatype VehicleForm = VehicleForm(
    licensePlate: string, customerId: string, brand: string, model: string,
    vin: string, year: string, mileageKm: string)

  /** `vehicleSchema`: a plate and a customer are required. */
  predicate ValidVehicle(f: VehicleForm) {
    |f.licensePlate| >= 1 && |f.customerId| >= 1
  }

  /**
   * The update's field mapping. `parseInt` is a parameter, `None` standing for
   * NaN, which the integer columns refuse.
   */
  function VehicleFromForm(f: VehicleForm, parseInt: string -> Option<int>): (r: Option<Vehicle>)
    ensures r.None? <==> (f.year != "" && parseInt(f.year).None?) || (f.mileageKm != "" && parseInt(f.mileageKm).None?)
    ensures r.Some? ==>
      && r.value.registrationPlate == f.licensePlate
      && r.value.customerId == f.customerId
      && r.value.make == Some(f.brand)
      && r.value.model == Some(f.model)
      && r.value.vin == (if f.vin == "" then None else Some(f.vin))
      && r.value.year == (if f.year == "" then None else parseInt(f.year))
      && r.value.mileageKm == (if f.mileageKm == "" then 0 else parseInt(f.mileageKm).value)
  {
    var year := if f.year == "" then Some(None) else if parseInt(f.year).Some? then Some(parseInt(f.year)) else None;
    var mileage := if f.mileageKm == "" then Some(0) else parseInt(f.mileageKm);
    if year.None? || mileage.None? then None
    else Some(Vehicle(f.licensePlate, f.customerId, Some(f.brand), Some(f.model),
                      OrNull(Some(f.vin)), year.value, mileage.value))
  }

  /** `updateVehicleAction`: schema, then an update of an existing row pointing at an existing customer. */
  function UpdateVehicle(st: CrmStore, id: string, f: VehicleForm, parseInt: string -> Option<int>)
    : (r: Result<CrmStore, CrmError>)
    ensures !ValidVehicle(f) ==> r == Err(InvalidData)
    ensures r.Ok? <==> && ValidVehicle(f) && VehicleFromForm(f, parseInt).Some?
                       && id in st.vehicles && f.customerId in st.customers
    ensures r.Ok? ==> r.value == st.(vehicles := st.vehicles[id := VehicleFromForm(f, parseInt).value])
  {
    if !ValidVehicle(f) then Err(InvalidData)
    else match VehicleFromForm(f, parseInt)
      case None => Err(InvalidData)
      case Some(v) =>
        if id !in st.vehicles then Err(NotFound)
        else if f.customerId !in st.customers then Err(UnknownCustomer)
        else Ok(st.(vehicles := st.vehicles[id := v]))
  }

  /** Blank optional fields store null for the VIN and year and 0 for the mileage. */
  lemma BlankVehicleFields(plate: string, customerId: string, parseInt: string -> Option<int>)
    ensures var v := VehicleFromForm(VehicleForm(plate, customerId, "", "", "", "", ""), parseInt);
      v.Some? && v.value.vin.None? && v.value.year.None? && v.value.mileageKm == 0
  {
  }

  /** Some invoice, quote or repair order refers to the vehicle. */
  predicate VehicleHasDocuments(st: CrmStore, id: string) {
    || (exists d :: d in st.invoices && st.invoices[d].vehicleId == Some(id))
    || (exists d :: d in st.quotes && st.quotes[d].vehicleId == Some(id))
    || (exists d :: d in st.repairOrders && st.repairOrders[d].vehicleId == Some(id))
  }

  /** `deleteVehicleAction`: refused for an unknown vehicle or one with documents; else only it goes. */
  function DeleteVehicle(st: CrmStore, id: string): (r: Result<CrmStore, CrmError>)
    ensures id !in st.vehicles <==> r == Err(NotFound)
    ensures r == Err(HasDocuments) <==> id in st.vehicles && VehicleHasDocuments(st, id)
    ensures r.Ok? ==> r.value == st.(vehicles := st.vehicles - {id})
  {
    if id !in st.vehicles then Err(NotFound)
    else if VehicleHasDocuments(st, id) then Err(HasDocuments)
    else Ok(st.(vehicles := st.vehicles - {id}))
  }

  /** Every vehicle's customer exists. */
  predicate VehiclesResolve(st: CrmStore) {
    forall v :: v in st.vehicles ==> st.vehicles[v].customerId in st.customers
  }

  /** Deleting a customer takes their vehicles along, so no vehicle is left pointing at nobody. */
  lemma DeletesKeepVehiclesResolving(st: CrmStore, id: string)
    requires VehiclesResolve(st)
    ensures DeleteCustomer(st, id).Ok? ==> VehiclesResolve(DeleteCustomer(st, id).value)
    ensures DeleteVehicle(st, id).Ok? ==> VehiclesResolve(DeleteVehicle(st, id).value)
  {
  }

  /** The edit actions keep every vehicle's owner known: a vehicle can only be moved to an existing customer. */
  lemma UpdatesKeepVehiclesResolving(st: CrmStore, id: string, cf: CustomerForm, isEmail: string -> bool,
                                     vf: VehicleForm, parseInt: string -> Option<int>)
    requires VehiclesResolve(st)
    ensures UpdateCustomer(st, id, cf, isEmail).Ok? ==> VehiclesResolve(UpdateCustomer(st, id, cf, isEmail).value)
    ensures UpdateVehicle(st, id, vf, parseInt).Ok? ==> VehiclesResolve(UpdateVehicle(st, id, vf, parseInt).value)
  {
  }

  /**
   * The two deletion guards disagree on repair orders: a customer whose only
   * documents are repair orders is deleted with its vehicles, and the orders
   * are left naming a missing customer and vehicle, while deleting that
   * vehicle on its own is refused.
   */
  lemma RepairOrdersOutliveCustomer(st: CrmStore, id: string, ro: string, vid: string)
    requires id in st.customers && !CustomerHasDocuments(st, id)
    requires ro in st.repairOrders && st.repairOrders[ro] == Link(id, Some(vid))
    requires vid in st.vehicles && st.vehicles[vid].customerId == id
    ensures DeleteVehicle(st, vid) == Err(HasDocuments)
    ensures DeleteCustomer(st, id).Ok?
    ensures var after := DeleteCustomer(st, id).value;
      && ro in after.repairOrders
      && after.repairOrders[ro].customerId !in after.customers
      && vid !in after.vehicles
  {
    var after := DeleteCustomer(st, id).value;
    assert vid in st.vehicles && st.vehicles[vid].customerId == id;
  }

  /* ----------------------------- Customer label --------------------------- */

  /** `[firstName, lastName].filter(Boolean).join(" ")` */
  function JoinNames(firstName: string, lastName: string): (r: string)
    ensures firstName != "" && lastName != "" ==> r == firstName + " " + lastName
    ensures firstName == "" ==> r == lastName
    ensures lastName == "" ==> r == firstName
  {
    var kept := (if firstName != "" then [firstName] else []) + (if lastName != "" then [lastName] else []);
    if firstName != "" && lastName != "" then
      assert kept == [firstName, lastName] && kept[1..] == [lastName];
      assert Join(kept[1..], " ") == lastName;
      Join(kept, " ")
    else Join(kept, " ")
  }

  /** An entry of the customer picker. */
  datatype CustomerOption = CustomerOption(id: string, text: string)

  /**
   * The label as the customer list endpoint computes it: the company name
   * whenever it is not null, even when empty; the "—" fallback is never
   * reached, because the join always yields a string.
   */
  function LabelAsWritten(c: Customer): (r: string)
    ensures c.companyName.Some? ==> r == c.companyName.value
    ensures c.companyName.None? ==> r == JoinNames(c.firstName, c.lastName)
    ensures r != "\U{2014}" || c.companyName == Some("\U{2014}") || JoinNames(c.firstName, c.lastName) == "\U{2014}"
  {
    match c.companyName
    case Some(name) => name
    case None => JoinNames(c.firstName, c.lastName)
  }

  /**
   * A customer saved through the edit form with the company left blank is
   * listed under the empty label, though both names are present.
   */
  lemma BlankCompanyGivesEmptyLabel(st: CrmStore, id: string, f: CustomerForm, isEmail: string -> bool)
    requires UpdateCustomer(st, id, f, isEmail).Ok? && f.companyName == ""
    ensures LabelAsWritten(UpdateCustomer(st, id, f, isEmail).value.customers[id]) == ""
    ensures UpdateCustomer(st, id, f, isEmail).value.customers[id].firstName != ""
  {
  }

  /**
   * The label with the evidently intended falsy test, as the invoice PDF does
   * for the same customer: the company name when non-empty, else the names,
   * else "—".
   */
  function Label(c: Customer): (r: string)
    ensures r != ""
    ensures Truthy(c.companyName) ==> r == c.companyName.value
    ensures !Truthy(c.companyName) && (c.firstName != "" || c.lastName != "") ==> r == JoinNames(c.firstName, c.lastName)
    ensures !Truthy(c.companyName) && c.firstName == "" && c.lastName == "" ==> r == "\U{2014}"
  {
    if Truthy(c.companyName) then c.companyName.value
    else
      var names := JoinNames(c.firstName, c.lastName);
      if names != "" then names else "\U{2014}"
  }

  /** Wherever the endpoint's label is non-empty and not a bare company name, the two labels agree. */
  lemma LabelsAgreeOffTheEmptyCompany(c: Customer)
    requires c.companyName != Some("")
    requires c.firstName != "" || c.lastName != ""
    ensures Label(c) == LabelAsWritten(c)
  {
  }

  /** A customer saved through the edit form always gets a non-empty label from the corrected rule. */
  lemma SavedCustomerHasLabel(st: CrmStore, id: string, f: CustomerForm, isEmail: string -> bool)
    requires UpdateCustomer(st, id, f, isEmail).Ok?
    ensures var c := UpdateCustomer(st, id, f, isEmail).value.customers[id];
      Label(c) != "" && (f.companyName == "" ==> Label(c) == f.firstName + " " + f.lastName)
  {
  }

  /** The customer picker: one entry per customer row, in the same order, id kept. */
  function CustomerOptions(rows: seq<(string, Customer)>): (r: seq<CustomerOption>)
    ensures |r| == |rows|
    ensures forall i :: 0 <= i < |rows| ==> r[i].id == rows[i].0 && r[i].text == Label(rows[i].1)
    ensures forall i :: 0 <= i < |r| ==> r[i].text != ""
  {
    seq(|rows|, i requires 0 <= i < |rows| => CustomerOption(rows[i].0, Label(rows[i].1)))
  }
}
