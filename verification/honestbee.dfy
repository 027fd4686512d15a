/** The commerce catalog client (honestbee/controller.go): its record types,
    the action-kind constants that action tokens carry, and the five catalog
    queries. The HTTP exchange itself is an oracle (`CatalogApi`); what is
    modelled is which request each query would send, and the guards it
    applies before sending anything. */
module Honestbee {
  import opened Wrappers

  /** Action kinds carried in the first field of a postback token. */
  const BRANDS := "brands"
  const DEPARTMENTS := "departments"
  const PRODUCTS := "products"
  const BUY_PRODUCT := "buy_product"
  const SEARCH := "search"

  const LOGIN_URL := "https://tranquil-anglerfish.glitch.me/login"
  const STATUS_AVAILABLE := "status_available"

  /** The error every location-dependent query returns without a location. */
  const NO_LOCATION := "No location provided"

  /** A float32 carried as its 32-bit pattern: coordinates are passed around,
      never computed with. */
  newtype Float32 = x: int | 0 <= x < 0x1_0000_0000

  datatype Location = Location(latitude: Float32, longitude: Float32)

  datatype Service = Service(serviceType: string, available: bool)

  datatype Meta = Meta(currentPage: int, totalPages: int, totalCount: int)

  /** The fields of a brand that routing and composing can observe. */
  datatype Brand = Brand(id: int, name: string, serviceType: string, storeId: int, imageUrl: string, closed: bool)

  datatype Brands = Brands(brands: seq<Brand>, meta: Meta, id: string, variant: string)

  datatype Category = Category(id: int, title: string, slug: string, imageUrl: string, productsCount: int)

  datatype Department = Department(id: int, name: string, description: string, imageUrl: string,
                                   productsCount: int, categories: Option<seq<Category>>)

  datatype Departments = Departments(departments: seq<Department>)

  datatype Product = Product(id: int, title: string, imageUrlBasename: string, size: string,
                             status: string, price: string, productBrand: string)

  /** The decoded product listing; the Go field is a pointer to a slice. */
  datatype Products = Products(products: Option<seq<Product>>)

  datatype SearchQuery = SearchQuery(page: int, pageSize: int, platform: string, q: string, userId: string, uuid: string)

  /** One request sent to the catalog API. */
  datatype CatalogCall =
    | ServicesCall(countryCode: string, location: Location)
    | BrandsCall(countryCode: string, page: string, service: string, location: Location)
    | DepartmentsCall(storeId: string, location: Location)
    | ProductsCall(departmentId: string)
    | SearchCall(storeId: string, query: SearchQuery)

  /** What the catalog API answers to each request: a decoded body or the
      text of the transport or decoding error. */
  datatype CatalogApi = CatalogApi(
    services: (string, Location) -> Result<seq<Service>, string>,
    brands: (string, string, string, Location) -> Result<Brands, string>,
    departments: (string, Location) -> Result<Departments, string>,
    products: string -> Result<Products, string>,
    search: (string, SearchQuery) -> Result<Products, string>)

  /** A query's outcome together with the requests it sent. */
  datatype Fetch<T> = Fetch(result: Result<T, string>, calls: seq<CatalogCall>)

  /** The body `SearchProducts` sends: first page of ten, the user's text
      verbatim. */
  function SearchQueryFor(text: string): (q: SearchQuery)
    ensures q.page == 1 && q.pageSize == 10
    ensures q.q == text
  {
    SearchQuery(1, 10, "iOS", text, "", "508786e0-57b8-4252-87d6-13295a81733a")
  }

  /** Product search in one store: always one request, no location needed. */
  function SearchProducts(api: CatalogApi, storeId: string, query: string): (f: Fetch<Products>)
    ensures f.calls == [SearchCall(storeId, SearchQueryFor(query))]
    ensures f.result == api.search(storeId, SearchQueryFor(query))
  {
    var q := SearchQueryFor(query);
    Fetch(api.search(storeId, q), [SearchCall(storeId, q)])
  }

  /** Services near a location; without a location it fails before sending
      anything. */
  function GetServices(api: CatalogApi, countryCode: string, location: Option<Location>): (f: Fetch<seq<Service>>)
    ensures location.None? <==> f.calls == []
    ensures location.None? ==> f.result == Err(NO_LOCATION)
    ensures location.Some? ==> f.calls == [ServicesCall(countryCode, location.value)]
    ensures location.Some? ==> f.result == api.services(countryCode, location.value)
  {
    match location
    case None => Fetch(Err(NO_LOCATION), [])
    case Some(loc) => Fetch(api.services(countryCode, loc), [ServicesCall(countryCode, loc)])
  }

  /** One page of brands of a service near a location; without a location it
      fails before sending anything. */
  function GetBrands(api: CatalogApi, countryCode: string, page: string, service: string,
                     location: Option<Location>): (f: Fetch<Brands>)
    ensures location.None? <==> f.calls == []
    ensures location.None? ==> f.result == Err(NO_LOCATION)
    ensures location.Some? ==> f.calls == [BrandsCall(countryCode, page, service, location.value)]
    ensures location.Some? ==> f.result == api.brands(countryCode, page, service, location.value)
  {
    match location
    case None => Fetch(Err(NO_LOCATION), [])
    case Some(loc) => Fetch(api.brands(countryCode, page, service, loc), [BrandsCall(countryCode, page, service, loc)])
  }

  /** The department directory of a store; without a location it fails before
      sending anything. */
  function GetDepartments(api: CatalogApi, storeId: string, location: Option<Location>): (f: Fetch<Departments>)
    ensures location.None? <==> f.calls == []
    ensures location.None? ==> f.result == Err(NO_LOCATION)
    ensures location.Some? ==> f.calls == [DepartmentsCall(storeId, location.value)]
    ensures location.Some? ==> f.result == api.departments(storeId, location.value)
  {
    match location
    case None => Fetch(Err(NO_LOCATION), [])
    case Some(loc) => Fetch(api.departments(storeId, loc), [DepartmentsCall(storeId, loc)])
  }

  /** The products of a department: no location guard, always one request. */
  function GetProducts(api: CatalogApi, departmentId: string): (f: Fetch<Products>)
    ensures f.calls == [ProductsCall(departmentId)]
    ensures f.result == api.products(departmentId)
  {
    Fetch(api.products(departmentId), [ProductsCall(departmentId)])
  }
}
