/** The response checks and the re-ordering step of embed/openai.go. The library
    sort is a parameter: some ordered permutation of the response. */
module OpenAI {
  import opened Outcome
  import opened Database

  datatype Item = Item(index: int, embedding: Vector)

  datatype ResponseError = WrongCount(got: nat, want: nat) | WrongDimension(got: nat)

  predicate Ordered(items: seq<Item>) {
    forall i, j | 0 <= i < j < |items| :: items[i].index <= items[j].index
  }

  /** What sort.Slice may leave of the response: ordered by index, nothing else said. */
  predicate SortedForm(data: seq<Item>, sorted: seq<Item>) {
    multiset(sorted) == multiset(data) && Ordered(sorted)
  }

  function Vectors(items: seq<Item>): seq<Vector> {
    seq(|items|, i requires 0 <= i < |items| => items[i].embedding)
  }

  method ReadResponse(dim: int, inputs: nat, data: seq<Item>, sorted: seq<Item>)
    returns (r: Result<seq<Vector>, ResponseError>)
    requires SortedForm(data, sorted)
    ensures r.Ok? <==> |data| == inputs && forall item | item in data :: |item.embedding| == dim
    ensures r.Ok? ==> r.value == Vectors(sorted)
    ensures |data| != inputs ==> r == Err(WrongCount(|data|, inputs))
    ensures r.Err? && |data| == inputs
            ==> exists item :: item in data && |item.embedding| != dim && r.error == WrongDimension(|item.embedding|)
  {
    if |data| != inputs {
      return Err(WrongCount(|data|, inputs));
    }
    SameItems(data, sorted);
    var out: seq<Vector> := [];
    for i := 0 to |sorted|
      invariant out == Vectors(sorted[..i])
      invariant forall j | 0 <= j < i :: |sorted[j].embedding| == dim
    {
      var d := sorted[i];
      if |d.embedding| != dim {
        assert d in data;
        return Err(WrongDimension(|d.embedding|));
      }
      out := out + [d.embedding];
    }
    assert sorted[..|sorted|] == sorted;
    assert forall item | item in data :: item in sorted;
    return Ok(out);
  }

  lemma SameItems(data: seq<Item>, sorted: seq<Item>)
    requires SortedForm(data, sorted)
    ensures |data| == |sorted| && forall item :: item in data <==> item in sorted
  {
    assert |multiset(data)| == |data| && |multiset(sorted)| == |sorted|;
    assert forall item :: item in data <==> item in multiset(data);
    assert forall item :: item in sorted <==> item in multiset(sorted);
  }

  /** The indices are 0..n-1, each once, in whatever order they arrived. */
  predicate IndicesPermuted(data: seq<Item>) {
    && (forall i | 0 <= i < |data| :: 0 <= data[i].index < |data|)
    && (forall i, j | 0 <= i < j < |data| :: data[i].index != data[j].index)
  }

  lemma {:induction false} CountOne(data: seq<Item>, x: Item)
    requires forall i, j | 0 <= i < j < |data| :: data[i].index != data[j].index
    ensures multiset(data)[x] <= 1
  {
    if data != [] {
      var k := |data| - 1;
      CountOne(data[..k], x);
      assert data == data[..k] + [data[k]];
      if data[k] == x {
        assert forall i | 0 <= i < k :: data[..k][i] != x;
        assert x !in data[..k];
      }
    }
  }

  lemma CountTwo(s: seq<Item>, i: nat, j: nat)
    requires i < j < |s| && s[i] == s[j]
    ensures multiset(s)[s[i]] >= 2
  {
    assert s == s[..j] + s[j..];
    assert s[i] in s[..j] && s[j] in s[j..];
  }

  lemma SortedDistinct(data: seq<Item>, sorted: seq<Item>, i: nat, j: nat)
    requires SortedForm(data, sorted) && IndicesPermuted(data) && i < j < |sorted|
    ensures sorted[i].index < sorted[j].index
  {
    SameItems(data, sorted);
    if sorted[i].index == sorted[j].index {
      assert sorted[i] in data && sorted[j] in data;
      var p :| 0 <= p < |data| && data[p] == sorted[i];
      var q :| 0 <= q < |data| && data[q] == sorted[j];
      CountOne(data, sorted[i]);
      if p == q {
        CountTwo(sorted, i, j);
      }
    }
  }

  lemma {:induction false} AtLeast(sorted: seq<Item>, i: nat)
    requires i < |sorted|
    requires forall a, b | 0 <= a < b < |sorted| :: sorted[a].index < sorted[b].index
    requires sorted[0].index >= 0
    ensures sorted[i].index >= i
  {
    if i > 0 {
      AtLeast(sorted, i - 1);
    }
  }

  lemma {:induction false} AtMost(sorted: seq<Item>, i: nat)
    requires i < |sorted|
    requires forall a, b | 0 <= a < b < |sorted| :: sorted[a].index < sorted[b].index
    requires sorted[|sorted| - 1].index < |sorted|
    ensures sorted[i].index <= i
    decreases |sorted| - i
  {
    if i < |sorted| - 1 {
      AtMost(sorted, i + 1);
    }
  }

  /** Every position holds the item of that index. */
  predicate Placed(sorted: seq<Item>) {
    forall i | 0 <= i < |sorted| :: sorted[i].index == i
  }

  lemma PermutedIsPlaced(data: seq<Item>, sorted: seq<Item>)
    requires SortedForm(data, sorted) && IndicesPermuted(data)
    ensures Placed(sorted)
  {
    SameItems(data, sorted);
    forall a, b | 0 <= a < b < |sorted| ensures sorted[a].index < sorted[b].index {
      SortedDistinct(data, sorted, a, b);
    }
    forall i | 0 <= i < |sorted| ensures sorted[i].index == i {
      assert sorted[0] in data && sorted[|sorted| - 1] in data;
      AtLeast(sorted, i);
      AtMost(sorted, i);
    }
  }

  /** Re-ordering is right: if the indices are 0..n-1 in any arrival order, any
      sort by index puts the vector of input i at position i. */
  lemma ReorderedRight(data: seq<Item>, sorted: seq<Item>, j: nat)
    requires SortedForm(data, sorted) && IndicesPermuted(data) && j < |data|
    ensures |sorted| == |data| && 0 <= data[j].index < |sorted|
    ensures Vectors(sorted)[data[j].index] == data[j].embedding
  {
    SameItems(data, sorted);
    PermutedIsPlaced(data, sorted);
    assert data[j] in sorted;
  }

  lemma PlacedIsPermuted(data: seq<Item>, sorted: seq<Item>)
    requires SortedForm(data, sorted) && Placed(sorted)
    ensures IndicesPermuted(data)
  {
    SameItems(data, sorted);
    forall i | 0 <= i < |data| ensures 0 <= data[i].index < |data| {
      assert data[i] in sorted;
    }
    forall i, j | 0 <= i < j < |data| ensures data[i].index != data[j].index {
      if data[i].index == data[j].index {
        assert data[i] in sorted && data[j] in sorted;
        CountTwo(data, i, j);
        CountOne(sorted, data[i]);
        assert false;
      }
    }
  }

  /** Whatever the sort does, the vectors end up at their positions exactly when the
      indices of the response are 0..n-1, each once. */
  lemma PlacedExactly(data: seq<Item>, sorted: seq<Item>)
    requires SortedForm(data, sorted)
    ensures Placed(sorted) <==> IndicesPermuted(data)
  {
    if Placed(sorted) {
      PlacedIsPermuted(data, sorted);
    }
    if IndicesPermuted(data) {
      PermutedIsPlaced(data, sorted);
    }
  }

  /** With one index twice, which vector comes first is up to the sort: either order is
      a sorted form of the same response. */
  lemma RepeatedIndexEitherWay(i: int, a: Vector, b: Vector)
    ensures var data := [Item(i, a), Item(i, b)]; var other := [Item(i, b), Item(i, a)];
      SortedForm(data, data) && SortedForm(data, other)
      && Vectors(data) == [a, b] && Vectors(other) == [b, a]
  {
    var data := [Item(i, a), Item(i, b)];
    assert multiset([Item(i, b), Item(i, a)]) == multiset(data);
  }
}
