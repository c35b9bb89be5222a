/** The records of the storefront, shaped after types.ts.
    Money and counts are integers; ids, names and dates are strings. */
module Types {

  /** An optional value: `T | null` and the optional (`?`) fields of the records. */
  datatype Option<+T> = None | Some(value: T)

  /** A rejected or resolved operation; `Err` carries the error message. */
  datatype Result<+T> = Ok(value: T) | Err(message: string)

  datatype Category = Freshwater | Marine | Exotic | Tanks | Food | Accessories

  datatype Product = Product(
    id: string,
    name: string,
    scientificName: Option<string>,
    category: Category,
    price: int,
    offerPrice: Option<int>,
    stock: int,
    origin: string,
    description: string,
    image: string,
    isNew: Option<bool>)

  /** A product before it has been given an id (`Omit<Product, 'id'>`). */
  datatype ProductDraft = ProductDraft(
    name: string,
    scientificName: Option<string>,
    category: Category,
    price: int,
    offerPrice: Option<int>,
    stock: int,
    origin: string,
    description: string,
    image: string,
    isNew: Option<bool>)

  /** A cart line: the product's fields spread out, plus a quantity. */
  datatype CartItem = CartItem(product: Product, quantity: int)

  datatype Role = Admin | Customer

  datatype User = User(id: string, name: string, phone: string, role: Role, address: string)

  datatype OrderStatus = Pending | Paid | Delivered

  datatype Order = Order(
    id: string,
    userId: string,
    userName: string,
    userPhone: string,
    items: seq<CartItem>,
    totalAmount: int,
    status: OrderStatus,
    date: string)

  datatype AuthState = AuthState(user: Option<User>, isAuthenticated: bool)

  /** Gives a draft the id it is stored under. */
  function WithId(d: ProductDraft, id: string): (p: Product)
    ensures p.id == id && Draft(p) == d
  {
    Product(id, d.name, d.scientificName, d.category, d.price, d.offerPrice,
            d.stock, d.origin, d.description, d.image, d.isNew)
  }

  /** All fields of a product but its id. */
  function Draft(p: Product): ProductDraft
  {
    ProductDraft(p.name, p.scientificName, p.category, p.price, p.offerPrice,
                 p.stock, p.origin, p.description, p.image, p.isNew)
  }
}
