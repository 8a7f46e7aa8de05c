/** The gRPC transport adapter of the cart service: request validation,
    forwarding to the cart service (an oracle here, one function per
    operation of its interface) and the mapping of results onto response
    messages. */
module GrpcServer {
  import opened CartTypes
  import V = Validator
  import PostgresStore

  const EmptyValue: int := 0

  /** The only gRPC status code this adapter produces itself. */
  datatype Code = InvalidArgument

  /** A gRPC status error. */
  datatype StatusError = StatusError(code: Code, message: string)

  /** The cart.CartItem message: a toy id and a quantity. */
  datatype ProtoItem = ProtoItem(toyId: int, quantity: int)

  /** An AddToCart request; its toy field may be unset (a nil message). */
  datatype AddToCartRequest = AddToCartRequest(toy: Option<ProtoItem>)

  datatype AddToCartResponse = AddToCartResponse(opStatus: OperationStatus, message: string)
  datatype DelFromCartResponse = DelFromCartResponse(opStatus: OperationStatus, message: string)
  datatype GetCartResponse = GetCartResponse(items: seq<ProtoItem>, totalItems: int, totalQuantity: int)

  /** What a handler gives back to gRPC: a (response, error) pair, either
      of which may be nil, or a nil pointer dereference. */
  datatype HandlerResult<T> = Return(response: Option<T>, err: Option<StatusError>) | NilDereference

  /** A handler's result and the arguments it forwarded to the service. */
  datatype Handled<T, A> = Handled(result: HandlerResult<T>, forwarded: seq<A>)

  /** The text one validator error contributes to the error message. */
  function Segment(field: string, message: string): string
  {
    field + ":" + message + "; "
  }

  /** The message for the validator errors written in the key order `order`. */
  function Render(errors: map<string, string>, order: seq<string>): string
    requires forall i :: 0 <= i < |order| ==> order[i] in errors
  {
    if order == [] then ""
    else Render(errors, order[..|order| - 1]) + Segment(order[|order| - 1], errors[order[|order| - 1]])
  }

  /** `order` names every key of `keys` exactly once. */
  ghost predicate Enumerates(order: seq<string>, keys: set<string>)
  {
    && (forall i :: 0 <= i < |order| ==> order[i] in keys)
    && (forall i, j :: 0 <= i < j < |order| ==> order[i] != order[j])
    && (forall k :: k in keys ==> k in order)
  }

  /** A key order without repeats is no longer than the set it draws from. */
  lemma {:induction false} DistinctBound(order: seq<string>, keys: set<string>)
    requires forall i :: 0 <= i < |order| ==> order[i] in keys
    requires forall i, j :: 0 <= i < j < |order| ==> order[i] != order[j]
    ensures |order| <= |keys|
  {
    if order != [] {
      var last := order[|order| - 1];
      DistinctBound(order[..|order| - 1], keys - {last});
    }
  }

  /** An enumeration of a single key is that key alone. */
  lemma EnumerateSingle(order: seq<string>, key: string)
    requires Enumerates(order, {key})
    ensures order == [key]
  {
    DistinctBound(order, {key});
    assert key in order;
  }

  /** Builds the InvalidArgument error that lists every validator error as
      a "field:message; " segment, one per error, in map iteration order
      (which Go leaves unspecified; `order` is the order taken). */
  method CollectErrors(v: V.Validator) returns (err: StatusError, ghost order: seq<string>)
    ensures err.code == InvalidArgument
    ensures Enumerates(order, v.errors.Keys)
    ensures err.message == Render(v.errors, order)
    ensures err.message == "" <==> v.errors == map[]
    ensures forall k :: v.errors.Keys == {k} ==> err.message == Segment(k, v.errors[k])
  {
    var b := "";
    order := [];
    var remaining := v.errors.Keys;
    while |remaining| > 0
      invariant remaining <= v.errors.Keys
      invariant Enumerates(order, v.errors.Keys - remaining)
      invariant b == Render(v.errors, order)
      invariant b == "" <==> order == []
      decreases remaining
    {
      // some key is left, so the next one can be taken
      ghost var chosen := Pick(remaining);
      var field :| field in remaining;
      b := b + Segment(field, v.errors[field]);
      order := order + [field];
      remaining := remaining - {field};
    }
    err := StatusError(InvalidArgument, b);
    if v.errors != map[] {
      var k :| k in v.errors;
      assert k in order;
    }
    forall k | v.errors.Keys == {k}
      ensures err.message == Segment(k, v.errors[k])
    {
      EnumerateSingle(order, k);
      assert order[..0] == [];
    }
  }

  /** Validates the toy of the request and forwards it to the service. An
      unset toy field is dereferenced; a zero toy id or quantity gives an
      InvalidArgument error naming the first failed check and nothing is
      forwarded; otherwise the service's status and message are the
      response. */
  method AddToCart(service: CartItem -> Reply, r: AddToCartRequest)
    returns (h: Handled<AddToCartResponse, CartItem>)
    ensures r.toy.None? ==> h == Handled(NilDereference, [])
    ensures r.toy.Some? && r.toy.value.toyId == 0 ==>
      h == Handled(Return(None, Some(StatusError(InvalidArgument, Segment("text", "toy id must be provided")))), [])
    ensures r.toy.Some? && r.toy.value.toyId != 0 && r.toy.value.quantity == 0 ==>
      h == Handled(Return(None, Some(StatusError(InvalidArgument, Segment("text", "quantity must be provided")))), [])
    ensures r.toy.Some? && r.toy.value.toyId != 0 && r.toy.value.quantity != 0 ==>
      var item := CartItem(r.toy.value.toyId, r.toy.value.quantity);
      h == Handled(Return(Some(AddToCartResponse(service(item).status, service(item).message)), None), [item])
  {
    if r.toy.None? {
      return Handled(NilDereference, []);
    }
    var toy := r.toy.value;
    var inputToy := CartItem(toy.toyId, toy.quantity);
    var v := PostgresStore.ValidateToy(V.Empty, inputToy);
    if !V.Valid(v) {
      assert v.errors.Keys == {"text"};
      var err, _ := CollectErrors(v);
      return Handled(Return(None, Some(err)), []);
    }
    var reply := service(inputToy);
    h := Handled(Return(Some(AddToCartResponse(reply.status, reply.message)), None), [inputToy]);
  }

  /** Forwards a delete unless the toy id is zero, in which case the
      handler returns neither a response nor an error. */
  function DelFromCart(service: int -> Reply, toyId: int): (h: Handled<DelFromCartResponse, int>)
    ensures toyId == 0 <==> h.result == Return(None, None)
    ensures toyId == 0 <==> h.forwarded == []
    ensures toyId != 0 ==>
      h.forwarded == [toyId]
      && h.result == Return(Some(DelFromCartResponse(service(toyId).status, service(toyId).message)), None)
  {
    if toyId == EmptyValue then
      Handled(Return(None, None), [])
    else
      var reply := service(toyId);
      Handled(Return(Some(DelFromCartResponse(reply.status, reply.message)), None), [toyId])
  }

  /** The lines of a Go slice; a nil slice has none. */
  function Lines(list: ItemList): seq<CartItem>
  {
    if list.Nil? then [] else list.items
  }

  /** The response lines for a list of cart lines, built one line at a time. */
  function ToDomain(toys: seq<CartItem>): seq<ProtoItem>
  {
    if toys == [] then []
    else ToDomain(toys[..|toys| - 1]) + [ProtoItem(toys[|toys| - 1].toyId, toys[|toys| - 1].quantity)]
  }

  /** Mapping keeps the length and order of the lines and their fields. */
  lemma {:induction false} ToDomainPointwise(toys: seq<CartItem>)
    ensures |ToDomain(toys)| == |toys|
    ensures forall i :: 0 <= i < |toys| ==> ToDomain(toys)[i] == ProtoItem(toys[i].toyId, toys[i].quantity)
  {
    if toys != [] {
      ToDomainPointwise(toys[..|toys| - 1]);
    }
  }

  /** Converts the service's cart lines to response lines: one per input
      line, in the same order, with the same toy id and quantity; a nil
      list converts to no lines. */
  method ToDomainOrder(toys: ItemList) returns (domainToys: seq<ProtoItem>)
    ensures domainToys == ToDomain(Lines(toys))
    ensures |domainToys| == |Lines(toys)|
    ensures forall i :: 0 <= i < |domainToys| ==>
      domainToys[i] == ProtoItem(Lines(toys)[i].toyId, Lines(toys)[i].quantity)
  {
    var lines := Lines(toys);
    domainToys := [];
    for i := 0 to |lines|
      invariant domainToys == ToDomain(lines[..i])
    {
      assert lines[..i + 1][..i] == lines[..i];
      domainToys := domainToys + [ProtoItem(lines[i].toyId, lines[i].quantity)];
    }
    assert lines[..|lines|] == lines;
    ToDomainPointwise(lines);
  }

  /** Answers a cart read with the service's lines converted and its two
      totals as they are. */
  method GetCart(read: CartRead) returns (h: HandlerResult<GetCartResponse>)
    ensures h.Return? && h.err.None? && h.response.Some?
    ensures h.response.value.totalItems == read.totalItems
    ensures h.response.value.totalQuantity == read.totalQty
    ensures h.response.value.items == ToDomain(Lines(read.list))
    ensures |h.response.value.items| == |Lines(read.list)|
  {
    var items := ToDomainOrder(read.list);
    h := Return(Some(GetCartResponse(items, read.totalItems, read.totalQty)), None);
  }
}
