/** The records the job moves (dto/vestro.go), the payload it delivers and
    its emptiness rule (dto/agriwin.go). */
module Dto {

  datatype Supply = Supply(id: int, fuel: string, date: string, volume: string,
                           plate: string, mileage: string, company: string,
                           employee: string, driver: string,
                           employeeEnrollment: string, driverEnrollment: string)

  datatype ProductSale = ProductSale(id: int, serialNumber: string, date: string,
                                     name: string, amount: string, driver: string,
                                     driverEnrollment: string, plate: string,
                                     company: string, employee: string,
                                     employeeEnrollment: string)

  datatype Product = Product(id: int, name: string, code: string)

  datatype FuelType = FuelType(id: int, name: string)

  datatype Vehicle = Vehicle(id: int, plate: string, brand: string, model: string,
                             company: string, isActive: bool)

  datatype Driver = Driver(id: int, name: string, enrollment: string, isActive: bool)

  datatype Employee = Employee(id: int, name: string, enrollment: string, isActive: bool)

  /** A producer awaiting integration: its id, the identity that filters its
      remote records, and the checkpoint of its last integration (in
      nanoseconds on the same clock as the job's `now`). */
  datatype Subject = Subject(id: int, identity: string, checkpoint: int)

  /** One producer's payload: an id, a fetch timestamp and exactly seven
      record sequences, two transactional and five of reference data. */
  datatype IntegrationPayload = IntegrationPayload(
    producerId: int,
    fetchedAt: int,
    supplies: seq<Supply>,
    productSales: seq<ProductSale>,
    products: seq<Product>,
    fuelTypes: seq<FuelType>,
    vehicles: seq<Vehicle>,
    drivers: seq<Driver>,
    employees: seq<Employee>)

  /** `&dto.IntegrationPayload{}`: every field at its zero value. */
  const EmptyPayload: IntegrationPayload := IntegrationPayload(0, 0, [], [], [], [], [], [], [])

  /** `IsEmpty`: nothing transactional to deliver. */
  predicate IsEmpty(p: IntegrationPayload)
    ensures IsEmpty(p) <==> forall c :: IsTransactional(c) ==> RecordCount(Slot(p, c)) == 0
  {
    assert IsTransactional(Supplies) && IsTransactional(ProductSales);
    |p.supplies| == 0 && |p.productSales| == 0
  }

  /** The number of transactional records in a payload. */
  function TransactionalCount(p: IntegrationPayload): nat {
    |p.supplies| + |p.productSales|
  }

  /** The seven record categories. */
  datatype Category = Supplies | ProductSales | Products | FuelTypes | Vehicles | Drivers | Employees

  predicate IsTransactional(c: Category) {
    c == Supplies || c == ProductSales
  }

  /** The records of one category, tagged with that category. */
  datatype Records =
    | SupplyRecords(supplies: seq<Supply>)
    | ProductSaleRecords(productSales: seq<ProductSale>)
    | ProductRecords(products: seq<Product>)
    | FuelTypeRecords(fuelTypes: seq<FuelType>)
    | VehicleRecords(vehicles: seq<Vehicle>)
    | DriverRecords(drivers: seq<Driver>)
    | EmployeeRecords(employees: seq<Employee>)

  function KindOf(r: Records): Category {
    match r
    case SupplyRecords(_) => Supplies
    case ProductSaleRecords(_) => ProductSales
    case ProductRecords(_) => Products
    case FuelTypeRecords(_) => FuelTypes
    case VehicleRecords(_) => Vehicles
    case DriverRecords(_) => Drivers
    case EmployeeRecords(_) => Employees
  }

  function RecordCount(r: Records): nat {
    match r
    case SupplyRecords(s) => |s|
    case ProductSaleRecords(s) => |s|
    case ProductRecords(s) => |s|
    case FuelTypeRecords(s) => |s|
    case VehicleRecords(s) => |s|
    case DriverRecords(s) => |s|
    case EmployeeRecords(s) => |s|
  }

  /** The contents of one slot of a payload. */
  function Slot(p: IntegrationPayload, c: Category): (r: Records)
    ensures KindOf(r) == c
  {
    match c
    case Supplies => SupplyRecords(p.supplies)
    case ProductSales => ProductSaleRecords(p.productSales)
    case Products => ProductRecords(p.products)
    case FuelTypes => FuelTypeRecords(p.fuelTypes)
    case Vehicles => VehicleRecords(p.vehicles)
    case Drivers => DriverRecords(p.drivers)
    case Employees => EmployeeRecords(p.employees)
  }

  /** Writing records into the slot of their category (the type switch of
      `fetchData`): that slot now holds them, every other slot, the id and
      the timestamp are as before. */
  function Store(p: IntegrationPayload, r: Records): (q: IntegrationPayload)
    ensures Slot(q, KindOf(r)) == r
    ensures forall c :: c != KindOf(r) ==> Slot(q, c) == Slot(p, c)
    ensures q.producerId == p.producerId && q.fetchedAt == p.fetchedAt
  {
    match r
    case SupplyRecords(s) => p.(supplies := s)
    case ProductSaleRecords(s) => p.(productSales := s)
    case ProductRecords(s) => p.(products := s)
    case FuelTypeRecords(s) => p.(fuelTypes := s)
    case VehicleRecords(s) => p.(vehicles := s)
    case DriverRecords(s) => p.(drivers := s)
    case EmployeeRecords(s) => p.(employees := s)
  }

  /** A payload is determined by its id, its timestamp and its seven slots. */
  lemma PayloadExtensionality(p: IntegrationPayload, q: IntegrationPayload)
    requires p.producerId == q.producerId && p.fetchedAt == q.fetchedAt
    requires forall c :: Slot(p, c) == Slot(q, c)
    ensures p == q
  {
    assert Slot(p, Supplies) == Slot(q, Supplies);
    assert Slot(p, ProductSales) == Slot(q, ProductSales);
    assert Slot(p, Products) == Slot(q, Products);
    assert Slot(p, FuelTypes) == Slot(q, FuelTypes);
    assert Slot(p, Vehicles) == Slot(q, Vehicles);
    assert Slot(p, Drivers) == Slot(q, Drivers);
    assert Slot(p, Employees) == Slot(q, Employees);
  }

  /** IsEmpty holds exactly when both transactional sequences are empty,
      that is, when the transactional slots hold no record at all. */
  lemma IsEmptyIffNoTransactionalRecords(p: IntegrationPayload)
    ensures IsEmpty(p) <==> TransactionalCount(p) == 0
    ensures IsEmpty(p) <==> forall c :: IsTransactional(c) ==> RecordCount(Slot(p, c)) == 0
  {
    assert IsTransactional(Supplies) && IsTransactional(ProductSales);
  }

  /** The five reference slots never affect IsEmpty. */
  lemma ReferenceDataIgnored(p: IntegrationPayload, r: Records)
    requires !IsTransactional(KindOf(r))
    ensures IsEmpty(Store(p, r)) == IsEmpty(p)
  {
    assert Slot(Store(p, r), Supplies) == Slot(p, Supplies);
    assert Slot(Store(p, r), ProductSales) == Slot(p, ProductSales);
  }

  /** A payload with reference data only is still empty. */
  lemma ReferenceOnlyIsEmpty(id: int, at: int, products: seq<Product>, fuelTypes: seq<FuelType>,
                             vehicles: seq<Vehicle>, drivers: seq<Driver>, employees: seq<Employee>)
    ensures IsEmpty(IntegrationPayload(id, at, [], [], products, fuelTypes, vehicles, drivers, employees))
  {
  }

  /** Adding any supply or product sale makes a payload non-empty. */
  lemma AddingTransactionMakesNonEmpty(p: IntegrationPayload, s: Supply, sale: ProductSale)
    ensures !IsEmpty(p.(supplies := p.supplies + [s]))
    ensures !IsEmpty(p.(productSales := p.productSales + [sale]))
  {
  }
}
