/** What the three MongoDB update operators the cart resolvers use do to one
    user's `cart` array: `$addToSet` (append unless an equal line is there),
    `$pull` with a `{productId}` condition (drop every matching line) and the
    positional `$set` on `cart.$.quantity` (overwrite the first matching line). */
module CartUpdates {
  import opened Common
  import opened UserModel

  predicate HasProduct(cart: seq<CartLine>, pid: ObjectId) {
    exists k | 0 <= k < |cart| :: cart[k].productId == pid
  }

  /** No two lines of the cart are equal: what `$addToSet` maintains. */
  predicate DistinctLines(cart: seq<CartLine>) {
    forall i, j | 0 <= i < j < |cart| :: cart[i] != cart[j]
  }

  /** Every line satisfies the schema's `min: 1` on quantity. */
  predicate QuantitiesValid(cart: seq<CartLine>) {
    forall k | 0 <= k < |cart| :: cart[k].quantity >= MinQuantity
  }

  // ---------------------------------------------------------------------------
  // $addToSet

  /** Set insertion on an array: the old lines keep their places, the new line
      is present afterwards, nothing else is added, and at most one element is. */
  function AddToSet(cart: seq<CartLine>, line: CartLine): (r: seq<CartLine>)
    ensures cart <= r && |r| <= |cart| + 1
    ensures forall x :: x in r <==> x in cart || x == line
    ensures line in cart <==> r == cart
  {
    if line in cart then cart else cart + [line]
  }

  lemma AddToSetIdempotent(cart: seq<CartLine>, line: CartLine)
    ensures AddToSet(AddToSet(cart, line), line) == AddToSet(cart, line)
  {
  }

  lemma AddToSetKeepsDistinct(cart: seq<CartLine>, line: CartLine)
    requires DistinctLines(cart)
    ensures DistinctLines(AddToSet(cart, line))
  {
  }

  lemma AddToSetKeepsQuantitiesValid(cart: seq<CartLine>, line: CartLine)
    requires QuantitiesValid(cart) && line.quantity >= MinQuantity
    ensures QuantitiesValid(AddToSet(cart, line))
  {
  }

  // ---------------------------------------------------------------------------
  // Selecting lines by product

  /** The lines for one product, in cart order. */
  function LinesFor(cart: seq<CartLine>, pid: ObjectId): (r: seq<CartLine>)
    ensures |r| <= |cart|
    ensures forall x :: x in r <==> x in cart && x.productId == pid
  {
    if cart == [] then []
    else (if cart[0].productId == pid then [cart[0]] else []) + LinesFor(cart[1..], pid)
  }

  lemma {:induction false} LinesForConcat(a: seq<CartLine>, b: seq<CartLine>, pid: ObjectId)
    ensures LinesFor(a + b, pid) == LinesFor(a, pid) + LinesFor(b, pid)
  {
    if a != [] {
      assert (a + b)[1..] == a[1..] + b;
      LinesForConcat(a[1..], b, pid);
    } else {
      assert a + b == b;
    }
  }

  lemma {:induction false} LinesForAbsent(cart: seq<CartLine>, pid: ObjectId)
    requires !HasProduct(cart, pid)
    ensures LinesFor(cart, pid) == []
  {
    if cart != [] {
      assert cart[0].productId != pid;
      LinesForAbsent(cart[1..], pid);
    }
  }

  /** `$addToSet` compares whole lines, so adding a product the cart lacks with
      one quantity and then again with another leaves two lines for it. */
  lemma SameProductTwice(cart: seq<CartLine>, pid: ObjectId, q1: int, q2: int)
    requires !HasProduct(cart, pid) && q1 != q2
    ensures LinesFor(AddToSet(AddToSet(cart, CartLine(pid, q1)), CartLine(pid, q2)), pid)
          == [CartLine(pid, q1), CartLine(pid, q2)]
  {
    var first := CartLine(pid, q1);
    var second := CartLine(pid, q2);
    assert first !in cart;
    var c1 := cart + [first];
    assert AddToSet(cart, first) == c1;
    assert second !in c1;
    assert AddToSet(c1, second) == cart + ([first] + [second]);
    LinesForConcat(cart, [first] + [second], pid);
    LinesForAbsent(cart, pid);
    LinesForConcat([first], [second], pid);
  }

  // ---------------------------------------------------------------------------
  // $pull: {cart: {productId}}

  /** The cart with every line for the product dropped, the others in order. */
  function Pull(cart: seq<CartLine>, pid: ObjectId): (r: seq<CartLine>)
    ensures |r| <= |cart|
    ensures forall x :: x in r <==> x in cart && x.productId != pid
  {
    if cart == [] then []
    else (if cart[0].productId == pid then [] else [cart[0]]) + Pull(cart[1..], pid)
  }

  /** Pulling is a filter, so it distributes over concatenation: the lines that
      stay keep their relative order. */
  lemma {:induction false} PullConcat(a: seq<CartLine>, b: seq<CartLine>, pid: ObjectId)
    ensures Pull(a + b, pid) == Pull(a, pid) + Pull(b, pid)
  {
    if a != [] {
      assert (a + b)[1..] == a[1..] + b;
      PullConcat(a[1..], b, pid);
    } else {
      assert a + b == b;
    }
  }

  /** Every line either stays or is one of the product's lines. */
  lemma {:induction false} PullPartition(cart: seq<CartLine>, pid: ObjectId)
    ensures |Pull(cart, pid)| + |LinesFor(cart, pid)| == |cart|
  {
    if cart != [] {
      PullPartition(cart[1..], pid);
    }
  }

  /** Pulling a product the cart does not hold is a no-op, and that is the only
      way a pull leaves the cart as it is. */
  lemma {:induction false} PullNoOpIff(cart: seq<CartLine>, pid: ObjectId)
    ensures Pull(cart, pid) == cart <==> !HasProduct(cart, pid)
  {
    if cart != [] {
      PullNoOpIff(cart[1..], pid);
      if cart[0].productId == pid {
        assert cart[0] !in Pull(cart, pid);
        assert HasProduct(cart, pid);
      } else {
        assert Pull(cart, pid) == [cart[0]] + Pull(cart[1..], pid);
        if HasProduct(cart, pid) {
          var k :| 0 <= k < |cart| && cart[k].productId == pid;
          assert cart[1..][k - 1].productId == pid;
        }
        if HasProduct(cart[1..], pid) {
          var k :| 0 <= k < |cart[1..]| && cart[1..][k].productId == pid;
          assert cart[k + 1].productId == pid;
        }
      }
    }
  }

  /** Calling `$pull` twice equals calling it once. */
  lemma PullIdempotent(cart: seq<CartLine>, pid: ObjectId)
    ensures Pull(Pull(cart, pid), pid) == Pull(cart, pid)
  {
    var r := Pull(cart, pid);
    forall k | 0 <= k < |r| ensures r[k].productId != pid {
      assert r[k] in r;
    }
    PullNoOpIff(r, pid);
  }

  /** Pulls of two products can be done in either order. */
  lemma {:induction false} PullCommutes(cart: seq<CartLine>, p: ObjectId, q: ObjectId)
    ensures Pull(Pull(cart, p), q) == Pull(Pull(cart, q), p)
  {
    if cart != [] {
      var head, tail := cart[0], cart[1..];
      PullCommutes(tail, p, q);
      assert cart == [head] + tail;
      PullConcat([head], tail, p);
      PullConcat([head], tail, q);
      PullConcat(Pull([head], p), Pull(tail, p), q);
      PullConcat(Pull([head], q), Pull(tail, q), p);
      assert [head][1..] == [];
    }
  }

  lemma PullKeepsQuantitiesValid(cart: seq<CartLine>, pid: ObjectId)
    requires QuantitiesValid(cart)
    ensures QuantitiesValid(Pull(cart, pid))
  {
    var r := Pull(cart, pid);
    forall k | 0 <= k < |r| ensures r[k].quantity >= MinQuantity {
      assert r[k] in r;
    }
  }

  // ---------------------------------------------------------------------------
  // $set: {"cart.$.quantity": q}

  /** Where the positional operator `$` points: the first line for the product. */
  function FirstLine(cart: seq<CartLine>, pid: ObjectId): (r: Option<nat>)
    ensures r.Some? ==> r.value < |cart| && cart[r.value].productId == pid
    ensures r.Some? ==> forall j :: 0 <= j < r.value ==> cart[j].productId != pid
    ensures r.None? <==> !HasProduct(cart, pid)
  {
    FindOne(cart, (line: CartLine) => line.productId == pid)
  }

  /** The first line for the product gets quantity `q`; all other lines,
      including later lines for the same product, stay as they are. */
  function SetFirstQuantity(cart: seq<CartLine>, pid: ObjectId, q: int): (r: seq<CartLine>)
    ensures |r| == |cart|
    ensures forall k :: 0 <= k < |cart| ==> r[k].productId == cart[k].productId
  {
    match FirstLine(cart, pid)
    case None => cart
    case Some(k) => cart[k := cart[k].(quantity := q)]
  }

  /** Exactly one line changes, the first for the product; a cart without the
      product is returned as it is. */
  lemma SetFirstQuantityChangesFirstLine(cart: seq<CartLine>, pid: ObjectId, q: int)
    ensures !HasProduct(cart, pid) ==> SetFirstQuantity(cart, pid, q) == cart
    ensures HasProduct(cart, pid) ==>
      exists k :: 0 <= k < |cart| && cart[k].productId == pid
        && (forall j :: 0 <= j < k ==> cart[j].productId != pid)
        && SetFirstQuantity(cart, pid, q) == cart[k := CartLine(pid, q)]
  {
    match FirstLine(cart, pid)
    case None =>
    case Some(k) =>
      assert cart[k].(quantity := q) == CartLine(pid, q);
  }

  /** Without validators the positional `$set` stores any quantity: a quantity
      below one leaves a line that the schema's `min: 1` forbids. */
  lemma SetQuantityBelowMinimum(cart: seq<CartLine>, pid: ObjectId, q: int)
    requires HasProduct(cart, pid) && q < MinQuantity
    ensures !QuantitiesValid(SetFirstQuantity(cart, pid, q))
  {
    var k := FirstLine(cart, pid).value;
    assert SetFirstQuantity(cart, pid, q)[k].quantity == q;
  }

  lemma SetQuantityKeepsQuantitiesValid(cart: seq<CartLine>, pid: ObjectId, q: int)
    requires QuantitiesValid(cart) && q >= MinQuantity
    ensures QuantitiesValid(SetFirstQuantity(cart, pid, q))
  {
  }

  /** Setting the quantity of a product held on two lines can make two equal
      lines, which `$addToSet` alone would never produce. */
  lemma SetQuantityCanDuplicateLines(pid: ObjectId)
    ensures var cart := [CartLine(pid, 2), CartLine(pid, 3)];
            DistinctLines(cart) && !DistinctLines(SetFirstQuantity(cart, pid, 3))
  {
    var cart := [CartLine(pid, 2), CartLine(pid, 3)];
    assert FirstLine(cart, pid) == Some(0);
    var r := SetFirstQuantity(cart, pid, 3);
    assert r == [CartLine(pid, 3), CartLine(pid, 3)];
    assert r[0] == r[1];
  }
}
