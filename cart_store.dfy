/** The cart store: the signed-in user's cart lines, their derived totals, the
    four mutations, and the per-user copy kept in browser storage under
    `styleaura_cart_<userId>`. */
module CartStore {
  import opened Seqs
  import opened Catalog

  type UserId = string

  /** A cart line. Its identity is the product id together with the size,
      where "no size" and the empty size are the same. */
  datatype Line = Line(product: Product, quantity: int, selectedSize: Option<string>)

  /** What browser storage holds for one user: a cart that parses, or text that does not. */
  datatype Record = Saved(lines: seq<Line>) | Corrupt

  // ---------------------------------------------------------------- totals

  function LineQuantity(): Line -> int { (l: Line) => l.quantity }

  function LineCharge(): Line -> int { (l: Line) => ChargedPrice(l.product) * l.quantity }

  /** `totalItems`: the sum of the line quantities. */
  function ItemCount(lines: seq<Line>): int {
    SumOf(lines, LineQuantity())
  }

  /** `totalPrice`: the sum over the lines of `(salePrice ?? price) * quantity`. */
  function PriceTotal(lines: seq<Line>): int {
    SumOf(lines, LineCharge())
  }

  /** Both totals of an empty cart are zero, and a cart of non-negative
      quantities has a non-negative item count. */
  lemma {:induction false} TotalsOfEmptyAndNonNegative(lines: seq<Line>)
    ensures ItemCount([]) == 0 && PriceTotal([]) == 0
    ensures (forall i :: 0 <= i < |lines| ==> lines[i].quantity >= 0) ==> ItemCount(lines) >= 0
  {
    if lines != [] && forall i :: 0 <= i < |lines| ==> lines[i].quantity >= 0 {
      TotalsOfEmptyAndNonNegative(lines[..|lines| - 1]);
    }
  }

  // ---------------------------------------------------------- line identity

  /** `(!a && !b) || a === b`: two sizes name the same variant. */
  predicate SameSize(a: Option<string>, b: Option<string>) {
    (!TruthyText(a) && !TruthyText(b)) || a == b
  }

  /** The size a line is filed under: the empty string stands for "none". */
  function SizeKey(s: Option<string>): string {
    if TruthyText(s) then s.value else ""
  }

  /** The size test is equality of the normalised size, so it is an equivalence. */
  lemma SameSizeIsKeyEquality(a: Option<string>, b: Option<string>)
    ensures SameSize(a, b) <==> SizeKey(a) == SizeKey(b)
  {
  }

  /** The line is for product `id` in the variant `size`. */
  predicate SameLine(l: Line, id: string, size: Option<string>) {
    l.product.id == id && SameSize(l.selectedSize, size)
  }

  /** At most one line per (product id, size) identity. */
  predicate UniqueKeys(lines: seq<Line>) {
    forall i, j :: 0 <= i < j < |lines| ==> !SameLine(lines[j], lines[i].product.id, lines[i].selectedSize)
  }

  /** `findIndex` of the first line with this identity, or -1. */
  function FindLine(lines: seq<Line>, id: string, size: Option<string>): (r: int)
    ensures -1 <= r < |lines|
    ensures r == -1 <==> forall i :: 0 <= i < |lines| ==> !SameLine(lines[i], id, size)
    ensures r >= 0 ==> SameLine(lines[r], id, size)
    ensures r >= 0 ==> forall i :: 0 <= i < r ==> !SameLine(lines[i], id, size)
  {
    if lines == [] then -1
    else if SameLine(lines[0], id, size) then 0
    else
      var k := FindLine(lines[1..], id, size);
      if k == -1 then -1 else k + 1
  }

  // -------------------------------------------------------------- mutations

  /** `addToCart` for a signed-in user: add to the line with the same identity,
      or append a new line when there is none. */
  function Added(lines: seq<Line>, p: Product, q: int, size: Option<string>): (r: seq<Line>)
    ensures |r| == |lines| || |r| == |lines| + 1
    ensures exists k :: 0 <= k < |r| && SameLine(r[k], p.id, size)
    ensures ItemCount(r) == ItemCount(lines) + q
    ensures UniqueKeys(lines) ==> UniqueKeys(r)
  {
    var i := FindLine(lines, p.id, size);
    if i == -1 then
      var r := lines + [Line(p, q, size)];
      assert SameLine(r[|lines|], p.id, size);
      SumOfAppend(lines, [Line(p, q, size)], LineQuantity());
      assert SumOf([Line(p, q, size)], LineQuantity()) == q by {
        assert [Line(p, q, size)][..0] == [];
      }
      r
    else
      var r := lines[i := lines[i].(quantity := lines[i].quantity + q)];
      assert SameLine(r[i], p.id, size);
      SumOfUpdate(lines, i, r[i], LineQuantity());
      r
  }

  /** `removeFromCart`: drop every line of the product, whatever its size. */
  function Removed(lines: seq<Line>, id: string): (r: seq<Line>)
    ensures forall k :: 0 <= k < |r| ==> r[k].product.id != id
    ensures forall l: Line :: l.product.id != id ==> multiset(r)[l] == multiset(lines)[l]
    ensures UniqueKeys(lines) ==> UniqueKeys(r)
  {
    var r := Filter(lines, OtherProduct(id));
    assert UniqueKeys(lines) ==> UniqueKeys(r) by {
      if UniqueKeys(lines) {
        FilterPreservesUnique(lines, OtherProduct(id));
      }
    }
    r
  }

  /** Removing keeps the other lines in their order: it acts on each line
      alone and the pieces are joined in place. */
  lemma RemovedKeepsOrder(a: seq<Line>, b: seq<Line>, l: Line, id: string)
    ensures Removed(a + b, id) == Removed(a, id) + Removed(b, id)
    ensures Removed([l], id) == if l.product.id == id then [] else [l]
  {
    FilterAppend(a, b, OtherProduct(id));
    assert [l][1..] == [];
  }

  function OtherProduct(id: string): Line -> bool { (l: Line) => l.product.id != id }

  function ForProduct(id: string): Line -> bool { (l: Line) => l.product.id == id }

  function WithQuantity(q: int): Line -> Line { (l: Line) => l.(quantity := q) }

  /** `updateQuantity`: a quantity of zero or less removes the product; any
      other quantity is set on every line of the product, whatever its size. */
  function Updated(lines: seq<Line>, id: string, q: int): (r: seq<Line>)
    ensures q <= 0 ==> r == Removed(lines, id)
    ensures q > 0 ==> |r| == |lines|
    ensures q > 0 ==> forall i :: 0 <= i < |lines| ==>
      r[i].product == lines[i].product && r[i].selectedSize == lines[i].selectedSize &&
      r[i].quantity == if lines[i].product.id == id then q else lines[i].quantity
    ensures UniqueKeys(lines) ==> UniqueKeys(r)
  {
    if q <= 0 then Removed(lines, id) else MapWhere(lines, ForProduct(id), WithQuantity(q))
  }

  /** A filter keeps the identity of the lines it keeps, and the order. */
  lemma {:induction false} FilterPreservesUnique(lines: seq<Line>, keep: Line -> bool)
    requires UniqueKeys(lines)
    ensures UniqueKeys(Filter(lines, keep))
  {
    if lines != [] {
      var x, tail := lines[0], lines[1..];
      SplitUnique(lines);
      FilterPreservesUnique(tail, keep);
      var rest := Filter(tail, keep);
      if keep(x) {
        assert forall y :: y in rest ==> y in tail;
        ConsUnique(x, rest);
        assert Filter(lines, keep) == [x] + rest;
      } else {
        assert Filter(lines, keep) == rest;
      }
    }
  }

  /** A cart with unique identities: its tail is one too, and no line of the
      tail shares the head's identity. */
  lemma SplitUnique(lines: seq<Line>)
    requires lines != [] && UniqueKeys(lines)
    ensures UniqueKeys(lines[1..])
    ensures forall y :: y in lines[1..] ==> !SameLine(y, lines[0].product.id, lines[0].selectedSize)
  {
    var tail := lines[1..];
    forall i, j | 0 <= i < j < |tail|
      ensures !SameLine(tail[j], tail[i].product.id, tail[i].selectedSize)
    {
      assert tail[i] == lines[i + 1] && tail[j] == lines[j + 1];
    }
    forall y | y in tail ensures !SameLine(y, lines[0].product.id, lines[0].selectedSize) {
      var k :| 0 <= k < |tail| && tail[k] == y;
      assert lines[k + 1] == y;
    }
  }

  /** A line put in front of a unique cart without its identity keeps it unique. */
  lemma ConsUnique(x: Line, rest: seq<Line>)
    requires UniqueKeys(rest)
    requires forall y :: y in rest ==> !SameLine(y, x.product.id, x.selectedSize)
    ensures UniqueKeys([x] + rest)
  {
    var r := [x] + rest;
    forall i, j | 0 <= i < j < |r|
      ensures !SameLine(r[j], r[i].product.id, r[i].selectedSize)
    {
      assert r[j] == rest[j - 1];
      if i == 0 {
        assert rest[j - 1] in rest;
      } else {
        assert r[i] == rest[i - 1];
      }
    }
  }

  // -------------------------------------------------- properties of the mutations

  /** When the cart has a line with the identity, adding puts the quantity on
      the first such line only; nothing else changes. */
  lemma AddToExistingLine(lines: seq<Line>, p: Product, q: int, size: Option<string>, k: nat)
    requires k < |lines| && SameLine(lines[k], p.id, size)
    requires forall i :: 0 <= i < k ==> !SameLine(lines[i], p.id, size)
    ensures |Added(lines, p, q, size)| == |lines|
    ensures Added(lines, p, q, size)[k] == lines[k].(quantity := lines[k].quantity + q)
    ensures forall i :: 0 <= i < |lines| && i != k ==> Added(lines, p, q, size)[i] == lines[i]
  {
  }

  /** When the cart has no line with the identity, adding appends exactly one line. */
  lemma AddNewLine(lines: seq<Line>, p: Product, q: int, size: Option<string>)
    requires forall i :: 0 <= i < |lines| ==> !SameLine(lines[i], p.id, size)
    ensures Added(lines, p, q, size) == lines + [Line(p, q, size)]
  {
  }

  /** The number of lines filed under an identity, and their total quantity. */
  function KeyedCount(id: string, size: Option<string>): Line -> int {
    (l: Line) => if SameLine(l, id, size) then 1 else 0
  }

  function KeyedQuantity(id: string, size: Option<string>): Line -> int {
    (l: Line) => if SameLine(l, id, size) then l.quantity else 0
  }

  /** Adding under one identity adds `q` to that identity's quantity, files at
      most one line under it, and leaves every other identity as it was. */
  lemma AddedByIdentity(lines: seq<Line>, p: Product, q: int, size: Option<string>,
                        id2: string, size2: Option<string>)
    ensures var r := Added(lines, p, q, size);
      if id2 == p.id && SameSize(size2, size) then
        SumOf(r, KeyedQuantity(id2, size2)) == SumOf(lines, KeyedQuantity(id2, size2)) + q &&
        SumOf(r, KeyedCount(id2, size2)) ==
          if SumOf(lines, KeyedCount(id2, size2)) == 0 then 1 else SumOf(lines, KeyedCount(id2, size2))
      else
        SumOf(r, KeyedQuantity(id2, size2)) == SumOf(lines, KeyedQuantity(id2, size2)) &&
        SumOf(r, KeyedCount(id2, size2)) == SumOf(lines, KeyedCount(id2, size2))
  {
    var i := FindLine(lines, p.id, size);
    var line := Line(p, q, size);
    if i == -1 {
      SumOfAppend(lines, [line], KeyedQuantity(id2, size2));
      SumOfAppend(lines, [line], KeyedCount(id2, size2));
      assert [line][..0] == [];
      if id2 == p.id && SameSize(size2, size) {
        NoLineNoCount(lines, id2, size2, p.id, size);
      }
    } else {
      var r := Added(lines, p, q, size);
      SumOfUpdate(lines, i, r[i], KeyedQuantity(id2, size2));
      SumOfUpdate(lines, i, r[i], KeyedCount(id2, size2));
      if id2 == p.id && SameSize(size2, size) {
        assert SameLine(lines[i], id2, size2);
        SomeLineSomeCount(lines, i, id2, size2);
      }
    }
  }

  lemma {:induction false} NoLineNoCount(lines: seq<Line>, id: string, size: Option<string>,
                                          id0: string, size0: Option<string>)
    requires forall i :: 0 <= i < |lines| ==> !SameLine(lines[i], id0, size0)
    requires id == id0 && SameSize(size, size0)
    ensures SumOf(lines, KeyedCount(id, size)) == 0
  {
    if lines != [] {
      NoLineNoCount(lines[..|lines| - 1], id, size, id0, size0);
    }
  }

  lemma {:induction false} SomeLineSomeCount(lines: seq<Line>, k: nat, id: string, size: Option<string>)
    requires k < |lines| && SameLine(lines[k], id, size)
    ensures SumOf(lines, KeyedCount(id, size)) >= 1
  {
    var n := |lines| - 1;
    CountNonNegative(lines[..n], id, size);
    if k < n {
      SomeLineSomeCount(lines[..n], k, id, size);
    }
  }

  lemma {:induction false} CountNonNegative(lines: seq<Line>, id: string, size: Option<string>)
    ensures SumOf(lines, KeyedCount(id, size)) >= 0
  {
    if lines != [] {
      CountNonNegative(lines[..|lines| - 1], id, size);
    }
  }

  /** Adds of one identity, in order. */
  function AddedAll(lines: seq<Line>, p: Product, qs: seq<int>, size: Option<string>): seq<Line>
    decreases |qs|
  {
    if qs == [] then lines else AddedAll(Added(lines, p, qs[0], size), p, qs[1..], size)
  }

  function Total(qs: seq<int>): int {
    if qs == [] then 0 else qs[0] + Total(qs[1..])
  }

  /** Any non-empty run of adds for one identity into a cart that has no line
      for it leaves exactly one line for it, holding the sum of the quantities. */
  lemma {:induction false} RepeatedAddsMerge(lines: seq<Line>, p: Product, qs: seq<int>, size: Option<string>)
    requires SumOf(lines, KeyedCount(p.id, size)) == 0
    requires qs != []
    ensures SumOf(AddedAll(lines, p, qs, size), KeyedCount(p.id, size)) == 1
    ensures SumOf(AddedAll(lines, p, qs, size), KeyedQuantity(p.id, size)) ==
            SumOf(lines, KeyedQuantity(p.id, size)) + Total(qs)
  {
    var first := Added(lines, p, qs[0], size);
    AddedByIdentity(lines, p, qs[0], size, p.id, size);
    if |qs| > 1 {
      RepeatedAddsStay(first, p, qs[1..], size);
    }
  }

  lemma {:induction false} RepeatedAddsStay(lines: seq<Line>, p: Product, qs: seq<int>, size: Option<string>)
    requires SumOf(lines, KeyedCount(p.id, size)) == 1
    ensures SumOf(AddedAll(lines, p, qs, size), KeyedCount(p.id, size)) == 1
    ensures SumOf(AddedAll(lines, p, qs, size), KeyedQuantity(p.id, size)) ==
            SumOf(lines, KeyedQuantity(p.id, size)) + Total(qs)
    decreases |qs|
  {
    if qs != [] {
      AddedByIdentity(lines, p, qs[0], size, p.id, size);
      RepeatedAddsStay(Added(lines, p, qs[0], size), p, qs[1..], size);
    }
  }

  /** Removing a product and adding it again leaves exactly one line for it,
      at the end, with the new quantity. */
  lemma RemoveThenAdd(lines: seq<Line>, p: Product, q: int, size: Option<string>)
    ensures Added(Removed(lines, p.id), p, q, size) == Removed(lines, p.id) + [Line(p, q, size)]
  {
    var r := Removed(lines, p.id);
    assert forall i :: 0 <= i < |r| ==> !SameLine(r[i], p.id, size);
  }

  /** Removing twice removes nothing more. */
  lemma RemoveIdempotent(lines: seq<Line>, id: string)
    ensures Removed(Removed(lines, id), id) == Removed(lines, id)
  {
    FilterIdempotent(lines, OtherProduct(id));
  }

  // ---------------------------------------------------------------- storage

  /** The cart the load effect adopts for a user: the stored cart when it
      parses, otherwise (nothing stored, corrupt, nobody signed in) empty. */
  function Loaded(storage: map<UserId, Record>, u: Option<UserId>): seq<Line> {
    if u.Some? && u.value in storage && storage[u.value].Saved? then storage[u.value].lines else []
  }

  /** The save effect: the signed-in user's record becomes the current cart. */
  function Persisted(storage: map<UserId, Record>, u: Option<UserId>, items: seq<Line>): map<UserId, Record> {
    if u.Some? then storage[u.value := Saved(items)] else storage
  }

  class Cart {
    var user: Option<UserId>
    var items: seq<Line>
    var storage: map<UserId, Record>

    /** Nobody signed in means an empty cart; otherwise storage echoes the cart. */
    ghost predicate Valid()
      reads this
    {
      (user.None? ==> items == []) &&
      (user.Some? ==> user.value in storage && storage[user.value] == Saved(items))
    }

    constructor (stored: map<UserId, Record>)
      ensures Valid() && user == None && items == [] && storage == stored
    {
      user := None;
      items := [];
      storage := stored;
    }

    method Save()
      modifies this`storage
      ensures storage == Persisted(old(storage), user, items)
    {
      if user.Some? {
        storage := storage[user.value := Saved(items)];
      }
    }

    /** The load and save effects that run when the signed-in user changes. */
    method SwitchUser(u: Option<UserId>)
      modifies this
      ensures Valid() && user == u
      ensures items == Loaded(old(storage), u)
      ensures storage == Persisted(old(storage), u, items)
    {
      user := u;
      items := Loaded(storage, u);
      Save();
    }

    method AddToCart(p: Product, q: int, size: Option<string>)
      requires Valid()
      modifies this
      ensures Valid() && user == old(user)
      ensures items == if user.Some? then Added(old(items), p, q, size) else old(items)
      ensures storage == Persisted(old(storage), user, items)
    {
      if user.None? {
        return;
      }
      items := Added(items, p, q, size);
      Save();
    }

    method RemoveFromCart(id: string)
      requires Valid()
      modifies this
      ensures Valid() && user == old(user)
      ensures items == Removed(old(items), id)
      ensures storage == Persisted(old(storage), user, items)
    {
      items := Removed(items, id);
      Save();
    }

    method UpdateQuantity(id: string, q: int)
      requires Valid()
      modifies this
      ensures Valid() && user == old(user)
      ensures items == Updated(old(items), id, q)
      ensures storage == Persisted(old(storage), user, items)
    {
      if q <= 0 {
        RemoveFromCart(id);
        return;
      }
      items := MapWhere(items, ForProduct(id), WithQuantity(q));
      Save();
    }

    method ClearCart()
      requires Valid()
      modifies this
      ensures Valid() && user == old(user)
      ensures items == []
      ensures storage == Persisted(old(storage), user, items)
    {
      items := [];
      Save();
    }
  }

  /** A user's saved cart survives another user's session: switch from `a`
      to `b`, change `b`'s cart, switch back, and `a`'s cart is as it was. */
  method SwitchAwayAndBack(cart: Cart, a: UserId, b: UserId, p: Product, q: int)
    requires cart.Valid() && cart.user == Some(a) && a != b
    modifies cart
    ensures cart.Valid() && cart.user == Some(a) && cart.items == old(cart.items)
  {
    ghost var saved := cart.items;
    cart.SwitchUser(Some(b));
    assert cart.storage[a] == Saved(saved);
    cart.AddToCart(p, q, None);
    assert cart.storage[a] == Saved(saved);
    cart.RemoveFromCart(p.id);
    assert cart.storage[a] == Saved(saved);
    cart.SwitchUser(Some(a));
  }
}
