/**
 * The rows of the hosted backend's `cars` and `user_roles` tables.
 * Columns that may be null are `Option`s; the string-literal unions of the
 * schema are enumerations, each with the text the backend stores for it.
 */
module DatabaseTypes {
  import opened Wrappers

  datatype FuelType = Petrol | Diesel | Hybrid | Electric | CNG | LPG
  datatype Transmission = Automatic | Manual
  datatype Assembly = Local | Imported
  datatype BodyType = Sedan | Hatchback | SUV | Crossover | Coupe | Convertible | Wagon | Van | Pickup

  /** One vehicle listing. Prices and years are whole numbers. */
  datatype Car = Car(
    id: string,
    title: string,
    mainImage: Option<string>,
    price: int,
    description: Option<string>,
    shortDescription: Option<string>,
    isSold: bool,
    year: int,
    mileage: Option<string>,
    fuelType: FuelType,
    transmission: Transmission,
    city: Option<string>,
    province: Option<string>,
    color: Option<string>,
    assembly: Option<Assembly>,
    engineCapacity: Option<string>,
    bodyType: Option<BodyType>,
    adReference: Option<string>,
    createdBy: Option<string>,
    createdAt: string,
    updatedAt: string)

  datatype Role = Admin | User

  datatype UserRole = UserRole(id: string, userId: string, role: Role, createdAt: string)

  /** `is_sold`, and its negation used by the home page and the dashboard. */
  predicate Sold(c: Car) {
    c.isSold
  }

  predicate Unsold(c: Car) {
    !c.isSold
  }

  function FuelTypeName(f: FuelType): string {
    match f
    case Petrol => "Petrol"
    case Diesel => "Diesel"
    case Hybrid => "Hybrid"
    case Electric => "Electric"
    case CNG => "CNG"
    case LPG => "LPG"
  }

  /** The `fuel_type` column holds exactly one of the six names. */
  function ParseFuelType(s: string): (r: Option<FuelType>)
    ensures r.Some? ==> FuelTypeName(r.value) == s
    ensures r.None? ==> forall f :: FuelTypeName(f) != s
  {
    match s
    case "Petrol" => Some(Petrol)
    case "Diesel" => Some(Diesel)
    case "Hybrid" => Some(Hybrid)
    case "Electric" => Some(Electric)
    case "CNG" => Some(CNG)
    case "LPG" => Some(LPG)
    case _ => None
  }

  function TransmissionName(t: Transmission): string {
    match t
    case Automatic => "Automatic"
    case Manual => "Manual"
  }

  /** The `transmission` column holds "Automatic" or "Manual" and nothing else. */
  function ParseTransmission(s: string): (r: Option<Transmission>)
    ensures r.Some? ==> TransmissionName(r.value) == s
    ensures r.None? ==> forall t :: TransmissionName(t) != s
  {
    match s
    case "Automatic" => Some(Automatic)
    case "Manual" => Some(Manual)
    case _ => None
  }

  function AssemblyName(a: Assembly): string {
    match a
    case Local => "Local"
    case Imported => "Imported"
  }

  /** The `assembly` column, when not null, holds "Local" or "Imported". */
  function ParseAssembly(s: string): (r: Option<Assembly>)
    ensures r.Some? ==> AssemblyName(r.value) == s
    ensures r.None? ==> forall a :: AssemblyName(a) != s
  {
    match s
    case "Local" => Some(Local)
    case "Imported" => Some(Imported)
    case _ => None
  }

  function BodyTypeName(b: BodyType): string {
    match b
    case Sedan => "Sedan"
    case Hatchback => "Hatchback"
    case SUV => "SUV"
    case Crossover => "Crossover"
    case Coupe => "Coupe"
    case Convertible => "Convertible"
    case Wagon => "Wagon"
    case Van => "Van"
    case Pickup => "Pickup"
  }

  /** The `body_type` column, when not null, holds one of the nine names. */
  function ParseBodyType(s: string): (r: Option<BodyType>)
    ensures r.Some? ==> BodyTypeName(r.value) == s
    ensures r.None? ==> forall b :: BodyTypeName(b) != s
  {
    match s
    case "Sedan" => Some(Sedan)
    case "Hatchback" => Some(Hatchback)
    case "SUV" => Some(SUV)
    case "Crossover" => Some(Crossover)
    case "Coupe" => Some(Coupe)
    case "Convertible" => Some(Convertible)
    case "Wagon" => Some(Wagon)
    case "Van" => Some(Van)
    case "Pickup" => Some(Pickup)
    case _ => None
  }

  function RoleName(r: Role): string {
    match r
    case Admin => "admin"
    case User => "user"
  }

  /** A `user_roles.role` is 'admin' or 'user'. */
  function ParseRole(s: string): (r: Option<Role>)
    ensures r.Some? ==> RoleName(r.value) == s
    ensures r.None? ==> forall x :: RoleName(x) != s
  {
    match s
    case "admin" => Some(Admin)
    case "user" => Some(User)
    case _ => None
  }
}
