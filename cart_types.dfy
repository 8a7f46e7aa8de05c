/** Values shared by the three layers of the cart service: the operation
    status codes of the cart API, a line of a cart, and the triple a cart
    read produces. */
module CartTypes {

  datatype Option<+T> = None | Some(value: T)

  /** The cart API's OperationStatus values that this core produces. */
  datatype OperationStatus = StatusOk | StatusInvalidUser | StatusInternalError

  /** The (status, message) pair every mutating operation returns. */
  datatype Reply = Reply(status: OperationStatus, message: string)

  /** data.CartItem: a toy id and a quantity. Nothing in the type forbids zero
      or negative values; only the transport's validation rejects zeros. */
  datatype CartItem = CartItem(toyId: int, quantity: int)

  /** A Go slice of *CartItem, which may be nil. A nil slice and an empty
      non-nil slice are different values to the service layer. */
  datatype ItemList = Nil | Items(items: seq<CartItem>)

  /** The (list, total_items, total_qty) triple of a cart read. */
  datatype CartRead = CartRead(list: ItemList, totalItems: int, totalQty: int)

  const Int32Min: int := -0x8000_0000
  const Int32Max: int := 0x7fff_ffff

  /** Whether a value fits a Go int32, the type of both cart totals. */
  predicate IsInt32(x: int)
  {
    Int32Min <= x <= Int32Max
  }

  /** The empty result every failing cart read reports. */
  const EmptyRead: CartRead := CartRead(Items([]), 0, 0)

  /** A set with a positive size has an element. */
  lemma NonEmpty<T>(s: set<T>)
    requires |s| > 0
    ensures exists x :: x in s
  {
    if forall x :: x !in s {
      assert false;
    }
  }

  /** Some element of a non-empty set; the loops that take rows or
      validator keys one at a time pick from such a set. */
  ghost function Pick<T>(s: set<T>): (x: T)
    requires |s| > 0
    ensures x in s
  {
    NonEmpty(s);
    var x :| x in s; x
  }
}
