/** The Postgres cart store. The two tables become two fields of a class:
    `carts` holds the user ids that have a cart row (the table is unique on
    user_id) and `items` maps a (user_id, toy_id) pair to that row's
    quantity (the table is unique on the pair, so a map key is exactly one
    row). Every database error or timeout of a statement is an explicit
    fault parameter saying which statement fails. */
module PostgresStore {
  import opened CartTypes
  import V = Validator

  const EmptyValue: int := 0

  /** Adds the two field checks of a cart item to `v`: a zero toy id and a
      zero quantity are errors, every other value (negative ones too) is
      accepted. Both checks record under the same key "text". */
  function ValidateToy(v: V.Validator, toy: CartItem): (r: V.Validator)
    ensures V.Valid(r) <==> V.Valid(v) && toy.toyId != 0 && toy.quantity != 0
    ensures r.errors.Keys == v.errors.Keys + (if toy.toyId == 0 || toy.quantity == 0 then {"text"} else {})
    ensures "text" !in v.errors && toy.toyId == 0 ==> r.errors["text"] == "toy id must be provided"
    ensures "text" !in v.errors && toy.toyId != 0 && toy.quantity == 0 ==> r.errors["text"] == "quantity must be provided"
    ensures forall k :: k in v.errors ==> r.errors[k] == v.errors[k]
  {
    var checked := V.Check(v, toy.toyId != EmptyValue, "text", "toy id must be provided");
    V.Check(checked, toy.quantity != EmptyValue, "text", "quantity must be provided")
  }

  /** A cart_items key: (user_id, toy_id). */
  type Key = (int, int)

  /** Which statement of AddToCart fails, if any. */
  datatype AddFault = NoAddFault | EnsureCartFails | UpsertFails
  /** Which step of DelFromCart fails, if any. */
  datatype DelFault = NoDelFault | ExecFails | RowsAffectedFails
  /** Which step of GetCart fails, if any: the row query, the scan of the
      row with the given index, the final rows.Err(), the COUNT query or the
      SUM query. */
  datatype ReadFault = NoReadFault | QueryFails | ScanFailsAt(row: nat) | RowsErrFails | CountFails | SumFails

  /** The value of an aggregate column. */
  datatype SqlValue = SqlNull | SqlInt(n: int)

  /** Scanning an aggregate into a Go int32 fails on NULL and on a value
      outside the int32 range. */
  function ScanInt32(v: SqlValue): (r: Option<int>)
    ensures r.Some? <==> v.SqlInt? && IsInt32(v.n)
    ensures r.Some? ==> r.value == v.n
  {
    if v.SqlInt? && IsInt32(v.n) then Some(v.n) else None
  }

  /** The quantity stored for (user, toy), or 0 when there is no such row. */
  function StoredQuantity(items: map<Key, int>, user: int, toyId: int): int
  {
    if (user, toyId) in items then items[(user, toyId)] else 0
  }

  /** The effect of `INSERT ... ON CONFLICT (user_id, toy_id) DO UPDATE SET
      quantity = cart_items.quantity + EXCLUDED.quantity` on the table. */
  function Upsert(items: map<Key, int>, user: int, toy: CartItem): (r: map<Key, int>)
    ensures (user, toy.toyId) in r
    ensures r[(user, toy.toyId)] == StoredQuantity(items, user, toy.toyId) + toy.quantity
    ensures forall k :: k != (user, toy.toyId) ==> (k in r <==> k in items)
    ensures forall k :: k in items && k != (user, toy.toyId) ==> r[k] == items[k]
  {
    var key := (user, toy.toyId);
    items[key := if key in items then items[key] + toy.quantity else toy.quantity]
  }

  /** The effect of `DELETE FROM cart_items WHERE user_id = $1 AND toy_id = $2`. */
  function Remove(items: map<Key, int>, user: int, toyId: int): (r: map<Key, int>)
    ensures (user, toyId) !in r
    ensures forall k :: k != (user, toyId) ==> (k in r <==> k in items)
    ensures forall k :: k in r ==> r[k] == items[k]
  {
    items - {(user, toyId)}
  }

  /** The toy ids in the user's cart. */
  function ToysOf(items: map<Key, int>, user: int): set<int>
  {
    set k | k in items && k.0 == user :: k.1
  }

  /** The user's rows of cart_items, as a map from toy id to quantity. */
  function CartOf(items: map<Key, int>, user: int): (cart: map<int, int>)
    ensures forall t :: t in cart <==> (user, t) in items
    ensures forall t :: t in cart ==> cart[t] == items[(user, t)]
  {
    map t | t in ToysOf(items, user) :: items[(user, t)]
  }

  /** The sum of the quantities of a cart, whatever order it is taken in. */
  ghost function Total(cart: map<int, int>): int
    decreases cart.Keys
  {
    if |cart| == 0 then 0
    else
      var t := Pick(cart.Keys); cart[t] + Total(cart - {t})
  }

  /** The sum of the quantities of a list of cart lines. */
  function SumQty(toys: seq<CartItem>): int
  {
    if toys == [] then 0 else toys[0].quantity + SumQty(toys[1..])
  }

  /** `toys` lists the rows of `cart`, each once, in some order. */
  ghost predicate Lists(toys: seq<CartItem>, cart: map<int, int>)
  {
    && (forall i :: 0 <= i < |toys| ==> toys[i].toyId in cart && toys[i].quantity == cart[toys[i].toyId])
    && (forall i, j :: 0 <= i < j < |toys| ==> toys[i].toyId != toys[j].toyId)
    && (forall t :: t in cart ==> exists i :: 0 <= i < |toys| && toys[i].toyId == t)
  }

  /** Total does not depend on the row Total happens to take first. */
  lemma {:induction false} TotalRemove(cart: map<int, int>, t: int)
    requires t in cart
    ensures Total(cart) == cart[t] + Total(cart - {t})
    decreases cart.Keys
  {
    var s := Pick(cart.Keys);
    if s != t {
      var withoutS, withoutT := cart - {s}, cart - {t};
      var rest := withoutS - {t};
      assert rest == withoutT - {s};
      TotalRemove(withoutS, t);
      TotalRemove(withoutT, s);
      assert withoutS[t] == cart[t];
      assert withoutT[s] == cart[s];
      calc {
        Total(cart);
        cart[s] + Total(withoutS);
        cart[s] + (withoutS[t] + Total(rest));
        cart[t] + (withoutT[s] + Total(rest));
        cart[t] + Total(withoutT);
      }
    }
  }

  /** Inserting a row adds its quantity to the total. */
  lemma TotalInsert(cart: map<int, int>, t: int, v: int)
    requires t !in cart
    ensures Total(cart[t := v]) == Total(cart) + v
  {
    var updated := cart[t := v];
    assert updated - {t} == cart;
    TotalRemove(updated, t);
  }

  /** Changing a row's quantity changes the total by the difference. */
  lemma TotalReplace(cart: map<int, int>, t: int, v: int)
    requires t in cart
    ensures Total(cart[t := v]) == Total(cart) - cart[t] + v
  {
    var updated := cart[t := v];
    assert updated - {t} == cart - {t};
    TotalRemove(updated, t);
    TotalRemove(cart, t);
  }

  /** Dropping the first line of a listing lists the cart without that
      line's row. */
  lemma ListsTail(toys: seq<CartItem>, cart: map<int, int>)
    requires Lists(toys, cart) && toys != []
    ensures Lists(toys[1..], cart - {toys[0].toyId})
  {
  }

  /** Scanning one more row of a cart extends a listing of the rows
      scanned so far to a listing of those rows and the new one. */
  lemma ListsAppend(toys: seq<CartItem>, cart: map<int, int>, remaining: set<int>, t: int)
    requires remaining <= cart.Keys && t in remaining
    requires Lists(toys, cart - remaining)
    ensures Lists(toys + [CartItem(t, cart[t])], cart - (remaining - {t}))
  {
    var extended := toys + [CartItem(t, cart[t])];
    forall u | u in cart - (remaining - {t})
      ensures exists i :: 0 <= i < |extended| && extended[i].toyId == u
    {
      if u != t {
        assert u in cart - remaining;
        var i :| 0 <= i < |toys| && toys[i].toyId == u;
        assert extended[i] == toys[i];
      } else {
        assert extended[|toys|].toyId == u;
      }
    }
  }

  /** A listing of a cart has one line per row, and its quantities add up
      to the cart's total. */
  lemma {:induction false} ListingMeasures(toys: seq<CartItem>, cart: map<int, int>)
    requires Lists(toys, cart)
    ensures |toys| == |cart| && SumQty(toys) == Total(cart)
    decreases |toys|
  {
    if toys == [] {
      assert forall t :: t !in cart;
      assert cart == map[];
    } else {
      var first := toys[0].toyId;
      ListsTail(toys, cart);
      ListingMeasures(toys[1..], cart - {first});
      RemoveSize(cart, first);
      RemoveTotal(cart, first);
    }
  }

  /** Repeated adds of one toy accumulate into one row: two upserts are
      the upsert of the summed quantity. */
  lemma RepeatedAddsAccumulate(items: map<Key, int>, user: int, toyId: int, first: int, second: int)
    ensures Upsert(Upsert(items, user, CartItem(toyId, first)), user, CartItem(toyId, second))
         == Upsert(items, user, CartItem(toyId, first + second))
  {
  }

  /** Deleting a toy that an add has just put into the cart for the first
      time gives back the table as it was before the add. */
  lemma DeleteUndoesFirstAdd(items: map<Key, int>, user: int, toy: CartItem)
    requires (user, toy.toyId) !in items
    ensures Remove(Upsert(items, user, toy), user, toy.toyId) == items
  {
  }

  /** The user's cart after an add is the cart before it with the toy's
      row set to the merged quantity. */
  lemma CartAfterAdd(items: map<Key, int>, user: int, toy: CartItem)
    ensures CartOf(Upsert(items, user, toy), user)
         == CartOf(items, user)[toy.toyId := StoredQuantity(items, user, toy.toyId) + toy.quantity]
  {
  }

  /** An add for one user leaves every other user's cart as it was. */
  lemma OtherCartAfterAdd(items: map<Key, int>, user: int, toy: CartItem, other: int)
    requires other != user
    ensures CartOf(Upsert(items, user, toy), other) == CartOf(items, other)
  {
  }

  /** The user's cart after a delete is the cart before it without the toy. */
  lemma CartAfterDelete(items: map<Key, int>, user: int, toyId: int)
    ensures CartOf(Remove(items, user, toyId), user) == CartOf(items, user) - {toyId}
  {
  }

  /** A delete for one user leaves every other user's cart as it was. */
  lemma OtherCartAfterDelete(items: map<Key, int>, user: int, toyId: int, other: int)
    requires other != user
    ensures CartOf(Remove(items, user, toyId), other) == CartOf(items, other)
  {
  }

  /** Setting a key of a map grows it by one exactly when the key is new. */
  lemma UpdateSize(m: map<int, int>, k: int, v: int)
    ensures |m[k := v]| == |m| + (if k in m then 0 else 1)
  {
  }

  /** What an add does to the totals a read reports: the row count grows by
      one exactly when the toy is new, and the quantity sum grows by the
      added quantity. */
  lemma AddEffectOnTotals(items: map<Key, int>, user: int, toy: CartItem)
    ensures |CartOf(Upsert(items, user, toy), user)|
         == |CartOf(items, user)| + (if (user, toy.toyId) in items then 0 else 1)
    ensures Total(CartOf(Upsert(items, user, toy), user)) == Total(CartOf(items, user)) + toy.quantity
  {
    var before := CartOf(items, user);
    var merged := StoredQuantity(items, user, toy.toyId) + toy.quantity;
    var after := before[toy.toyId := merged];
    CartAfterAdd(items, user, toy);
    UpdateSize(before, toy.toyId, merged);
    if toy.toyId in before {
      TotalReplace(before, toy.toyId, merged);
      assert Total(after) == Total(before) + toy.quantity;
    } else {
      TotalInsert(before, toy.toyId, merged);
      assert Total(after) == Total(before) + toy.quantity;
    }
  }

  /** Removing a key from a map shrinks it by one exactly when the key was
      there. */
  lemma RemoveSize(m: map<int, int>, k: int)
    ensures |m - {k}| == |m| - (if k in m then 1 else 0)
  {
  }

  /** Removing a key from a map lowers its total by the key's value. */
  lemma RemoveTotal(m: map<int, int>, k: int)
    ensures Total(m - {k}) == Total(m) - (if k in m then m[k] else 0)
  {
    if k in m {
      TotalRemove(m, k);
    } else {
      assert m - {k} == m;
    }
  }

  /** What a delete does to the totals a read reports: the row count drops
      by one exactly when the row existed, and the quantity sum drops by its
      quantity. */
  lemma DeleteEffectOnTotals(items: map<Key, int>, user: int, toyId: int)
    ensures |CartOf(Remove(items, user, toyId), user)|
         == |CartOf(items, user)| - (if (user, toyId) in items then 1 else 0)
    ensures Total(CartOf(Remove(items, user, toyId), user)) == Total(CartOf(items, user)) - StoredQuantity(items, user, toyId)
  {
    CartAfterDelete(items, user, toyId);
    RemoveSize(CartOf(items, user), toyId);
    RemoveTotal(CartOf(items, user), toyId);
  }

  /** A read succeeds when no step of it fails: the scan fault, if any,
      names a row past the last one; the SUM of a cart with no rows is NULL,
      which the int32 scan refuses; and both totals must fit an int32. */
  ghost predicate ReadSucceeds(cart: map<int, int>, fault: ReadFault)
  {
    && (fault == NoReadFault || (fault.ScanFailsAt? && fault.row >= |cart|))
    && cart != map[]
    && IsInt32(|cart|)
    && IsInt32(Total(cart))
  }

  class Storage {
    /** Rows of `carts`: the users that have a cart. */
    var carts: set<int>
    /** Rows of `cart_items`: (user_id, toy_id) to quantity. */
    var items: map<Key, int>

    /** Every item row belongs to a user with a cart row. */
    ghost predicate Valid()
      reads this
    {
      forall k :: k in items ==> k.0 in carts
    }

    /** Empty tables: no cart rows and no item rows. */
    constructor()
      ensures Valid() && carts == {} && items == map[]
    {
      carts, items := {}, map[];
    }

    /** Ensures the user's cart row, then merges the item into cart_items. The
        two statements are independent: when the upsert fails the cart row
        created by the first one stays. */
    method AddToCart(toy: CartItem, user: int, fault: AddFault) returns (reply: Reply)
      requires Valid()
      modifies this
      ensures Valid()
      ensures fault == EnsureCartFails ==>
        reply == Reply(StatusInternalError, "failed to get user cart") && carts == old(carts) && items == old(items)
      ensures fault != EnsureCartFails ==> carts == old(carts) + {user}
      ensures fault == UpsertFails ==>
        reply == Reply(StatusInternalError, "failed to add toy") && items == old(items)
      ensures fault == NoAddFault ==>
        reply == Reply(StatusOk, "Toy added to a cart!") && items == Upsert(old(items), user, toy)
    {
      if fault == EnsureCartFails {
        return Reply(StatusInternalError, "failed to get user cart");
      }
      carts := carts + {user};
      if fault == UpsertFails {
        return Reply(StatusInternalError, "failed to add toy");
      }
      items := Upsert(items, user, toy);
      reply := Reply(StatusOk, "Toy added to a cart!");
    }

    /** Deletes the (user, toy) row. Only a delete that affected a row is a
        success; a failure of the statement leaves the table as it was. */
    method DelFromCart(toyId: int, user: int, fault: DelFault) returns (reply: Reply)
      requires Valid()
      modifies this
      ensures Valid() && carts == old(carts)
      ensures reply.status == StatusOk ==> user in carts
      ensures reply.status == StatusOk <==> fault == NoDelFault && (user, toyId) in old(items)
      ensures reply == if reply.status == StatusOk then Reply(StatusOk, "deleted successfully")
                       else Reply(StatusInternalError, "failed to delete toy!")
      ensures items == if fault == ExecFails then old(items) else Remove(old(items), user, toyId)
      ensures reply.status != StatusOk && fault != RowsAffectedFails ==> items == old(items)
    {
      if fault == ExecFails {
        return Reply(StatusInternalError, "failed to delete toy!");
      }
      var key := (user, toyId);
      var rowsAffected := if key in items then 1 else 0;
      items := Remove(items, user, toyId);
      if fault == RowsAffectedFails {
        return Reply(StatusInternalError, "failed to delete toy!");
      }
      if rowsAffected == 0 {
        assert items == old(items);
        return Reply(StatusInternalError, "failed to delete toy!");
      }
      reply := Reply(StatusOk, "deleted successfully");
    }

    /** `SELECT COUNT(*) FROM cart_items WHERE user_id = $1`. */
    method CountQuery(user: int) returns (v: SqlValue)
      ensures v == SqlInt(|CartOf(items, user)|)
    {
      var cart := CartOf(items, user);
      var count := 0;
      var left := cart;
      while |left| > 0
        invariant count + |left| == |cart|
        decreases left.Keys
      {
        // some row is left, so the next one can be taken
        ghost var chosen := Pick(left.Keys);
        var t :| t in left;
        RemoveSize(left, t);
        count := count + 1;
        left := left - {t};
      }
      v := SqlInt(count);
    }

    /** `SELECT SUM(quantity) FROM cart_items WHERE user_id = $1`: NULL when
        the user has no rows. */
    method SumQuery(user: int) returns (v: SqlValue)
      ensures v == if CartOf(items, user) == map[] then SqlNull else SqlInt(Total(CartOf(items, user)))
    {
      var cart := CartOf(items, user);
      if cart == map[] {
        return SqlNull;
      }
      var sum := 0;
      var left := cart;
      while |left| > 0
        invariant sum + Total(left) == Total(cart)
        decreases left.Keys
      {
        // some row is left, so the next one can be taken
        ghost var chosen := Pick(left.Keys);
        var t :| t in left;
        TotalRemove(left, t);
        sum := sum + left[t];
        left := left - {t};
      }
      v := SqlInt(sum);
    }

    /** The `rows.Next()` loop of GetCart over the user's rows, taken in the
        order the query yields them; it stops at the row whose scan fails. */
    static method ScanRows(cart: map<int, int>, fault: ReadFault) returns (toys: seq<CartItem>, failed: bool)
      ensures failed <==> fault.ScanFailsAt? && fault.row < |cart|
      ensures !failed ==> Lists(toys, cart) && |toys| == |cart|
    {
      toys := [];
      var remaining := cart.Keys;
      while |remaining| > 0
        invariant remaining <= cart.Keys
        invariant |toys| + |remaining| == |cart|
        invariant Lists(toys, cart - remaining)
        invariant fault.ScanFailsAt? ==> fault.row >= |toys|
        decreases remaining
      {
        // some row is left, so the next one can be taken
        ghost var chosen := Pick(remaining);
        var t :| t in remaining;
        if fault == ScanFailsAt(|toys|) {
          return [], true;
        }
        ListsAppend(toys, cart, remaining, t);
        toys := toys + [CartItem(t, cart[t])];
        remaining := remaining - {t};
      }
      assert cart - remaining == cart;
      failed := false;
    }

    /** Reads the user's rows, then the row count and the quantity sum. Any
        failure gives an empty list and zero totals, never a nil list. */
    method GetCart(user: int, fault: ReadFault) returns (toys: seq<CartItem>, totalItems: int, totalQty: int)
      requires Valid()
      ensures ReadSucceeds(CartOf(items, user), fault) ==> user in carts
      ensures ReadSucceeds(CartOf(items, user), fault) ==>
        && Lists(toys, CartOf(items, user))
        && totalItems == |toys| == |CartOf(items, user)|
        && totalQty == SumQty(toys) == Total(CartOf(items, user))
      ensures !ReadSucceeds(CartOf(items, user), fault) ==> toys == [] && totalItems == 0 && totalQty == 0
    {
      var cart := CartOf(items, user);
      if cart != map[] {
        // a row of the cart is a row of `user`, who therefore has a cart row
        ghost var t := Pick(cart.Keys);
        assert (user, t) in items;
      }
      if fault == QueryFails {
        return [], 0, 0;
      }
      var failed;
      toys, failed := ScanRows(cart, fault);
      if failed || fault == RowsErrFails {
        return [], 0, 0;
      }
      ListingMeasures(toys, cart);
      var count := CountQuery(user);
      var scannedCount := ScanInt32(count);
      if fault == CountFails || scannedCount.None? {
        return [], 0, 0;
      }
      var sum := SumQuery(user);
      var scannedSum := ScanInt32(sum);
      if fault == SumFails || scannedSum.None? {
        return [], 0, 0;
      }
      totalItems, totalQty := scannedCount.value, scannedSum.value;
    }
  }
}
