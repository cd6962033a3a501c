/**
  `OpenAIEmbeddingProvider`: the vector name and size fixed at construction,
  and the ordering of batch responses. The OpenAI client calls are external:
  their responses are inputs here. Embedding components are floats the provider
  only copies, so they are carried as opaque `real`s.
 */
module Embeddings {
  import opened Results
  import opened Text
  import opened Seqs

  type Vector = seq<real>

  /** One item of `response.data`; `index` is `None` when the item carries no index tag. */
  datatype EmbeddingItem = EmbeddingItem(index: Option<int>, embedding: Vector)

  /** The state fixed by `__init__`. */
  datatype Provider = Provider(modelName: string, vectorSize: nat, vectorName: string)

  const VectorNamePrefix := "openai-"

  /** The text `__init__` embeds to learn the vector dimension. */
  const ProbeInput := "vector-dimension-probe"

  /** `IndexError` raised by `response.data[0]` on an empty response. */
  const EmptyResponse := "list index out of range"

  /** The characters the vector name replaces by `-`. */
  predicate IsSeparator(c: char) {
    c == '/' || c == ':' || c == ' '
  }

  /** `model_name.replace("/", "-").replace(":", "-").replace(" ", "-")`. */
  function SafeModelName(modelName: string): string {
    ReplaceChar(ReplaceChar(ReplaceChar(modelName, '/', '-'), ':', '-'), ' ', '-')
  }

  /** `f"openai-{safe_model_name}".lower()`. */
  function VectorName(modelName: string): (name: string)
    ensures StartsWith(name, VectorNamePrefix)
    ensures |name| == |VectorNamePrefix| + |modelName|
    ensures forall i :: 0 <= i < |modelName| ==>
              name[|VectorNamePrefix| + i] == LowerChar(if IsSeparator(modelName[i]) then '-' else modelName[i])
    ensures forall i :: 0 <= i < |name| ==> !IsSeparator(name[i]) && !IsUpper(name[i])
  {
    var name := Lower(VectorNamePrefix + SafeModelName(modelName));
    assert name[..|VectorNamePrefix|] == VectorNamePrefix;
    name
  }

  /**
    `__init__(model_name)`. `embed(model, input)` is the synchronous client's
    `embeddings.create`, answering the response's `data` or the error it raised;
    it is asked once, for `ProbeInput`. A failed or empty probe aborts construction.
   */
  function Construct(modelName: string, embed: (string, string) -> Result<seq<EmbeddingItem>, string>): (r: Result<Provider, string>)
    ensures var probe := embed(modelName, ProbeInput);
            && (r.Ok? <==> probe.Ok? && |probe.value| > 0)
            && (probe.Err? ==> r == Err(probe.error))
            && (probe.Ok? && |probe.value| == 0 ==> r == Err(EmptyResponse))
            && (r.Ok? ==> && r.value.modelName == modelName
                          && r.value.vectorSize == |probe.value[0].embedding|
                          && r.value.vectorName == VectorName(modelName))
  {
    match embed(modelName, ProbeInput)
    case Err(e) => Err(e)
    case Ok(data) =>
      if |data| == 0 then Err(EmptyResponse)
      else Ok(Provider(modelName, |data[0].embedding|, VectorName(modelName)))
  }

  function GetVectorName(p: Provider): string {
    p.vectorName
  }

  function GetVectorSize(p: Provider): nat {
    p.vectorSize
  }

  /** The getters answer what construction fixed: the probe's dimension and the derived name. */
  lemma GettersReturnConstructionValues(modelName: string, embed: (string, string) -> Result<seq<EmbeddingItem>, string>)
    requires embed(modelName, ProbeInput).Ok? && |embed(modelName, ProbeInput).value| > 0
    ensures var p := Construct(modelName, embed);
            && p.Ok?
            && GetVectorSize(p.value) == |embed(modelName, ProbeInput).value[0].embedding|
            && GetVectorName(p.value) == VectorName(modelName)
            && StartsWith(GetVectorName(p.value), VectorNamePrefix)
  {
  }

  // ----- ordering of batch responses -----

  /** `getattr(item, "index", 0)`. */
  function SortKey(item: EmbeddingItem): int {
    item.index.GetOr(0)
  }

  predicate SortedByIndex(s: seq<EmbeddingItem>) {
    forall i, j :: 0 <= i < j < |s| ==> SortKey(s[i]) <= SortKey(s[j])
  }

  predicate DistinctIndices(s: seq<EmbeddingItem>) {
    forall i, j :: 0 <= i < j < |s| ==> SortKey(s[i]) != SortKey(s[j])
  }

  /** The items of `s` whose key is `k`, in their order in `s`. */
  function WithKey(s: seq<EmbeddingItem>, k: int): seq<EmbeddingItem> {
    if |s| == 0 then []
    else (if SortKey(s[0]) == k then [s[0]] else []) + WithKey(s[1..], k)
  }

  /** Places `x` before the first item whose key is not smaller. */
  function Insert(x: EmbeddingItem, s: seq<EmbeddingItem>): (r: seq<EmbeddingItem>)
    ensures |r| == |s| + 1
    ensures multiset(r) == multiset(s) + multiset{x}
  {
    if |s| == 0 then [x]
    else if SortKey(x) <= SortKey(s[0]) then [x] + s
    else
      RemoveHead(s);
      [s[0]] + Insert(x, s[1..])
  }

  /** An item no later than every item of an ordered sequence can go in front of it. */
  lemma ConsSorted(y: EmbeddingItem, r: seq<EmbeddingItem>)
    requires SortedByIndex(r)
    requires forall z :: z in r ==> SortKey(y) <= SortKey(z)
    ensures SortedByIndex([y] + r)
  {
    var t := [y] + r;
    forall i, j | 0 <= i < j < |t| ensures SortKey(t[i]) <= SortKey(t[j]) {
      assert t[j] == r[j - 1];
      if i > 0 {
        assert t[i] == r[i - 1];
      } else {
        assert t[j] in r;
      }
    }
  }

  /** The tail of an ordered sequence is ordered. */
  lemma SortedTail(s: seq<EmbeddingItem>)
    requires |s| > 0 && SortedByIndex(s)
    ensures SortedByIndex(s[1..])
    ensures forall z :: z in s[1..] ==> SortKey(s[0]) <= SortKey(z)
  {
    forall z | z in s[1..] ensures SortKey(s[0]) <= SortKey(z) {
      var p :| 0 <= p < |s[1..]| && s[1..][p] == z;
      assert s[p + 1] == z;
    }
  }

  /** Inserting into an ordered sequence keeps it ordered. */
  lemma {:induction false} InsertSorted(x: EmbeddingItem, s: seq<EmbeddingItem>)
    requires SortedByIndex(s)
    ensures SortedByIndex(Insert(x, s))
  {
    if |s| == 0 {
    } else if SortKey(x) <= SortKey(s[0]) {
      SortedTail(s);
      assert forall z :: z in s ==> z == s[0] || z in s[1..] by {
        assert s == [s[0]] + s[1..];
      }
      ConsSorted(x, s);
    } else {
      SortedTail(s);
      var rest := Insert(x, s[1..]);
      InsertSorted(x, s[1..]);
      forall z | z in rest ensures SortKey(s[0]) <= SortKey(z) {
        assert z in multiset(rest);
      }
      ConsSorted(s[0], rest);
    }
  }

  /** `WithKey` of a sequence with a given head. */
  lemma WithKeyCons(y: EmbeddingItem, r: seq<EmbeddingItem>, k: int)
    ensures WithKey([y] + r, k) == (if SortKey(y) == k then [y] else []) + WithKey(r, k)
  {
    assert ([y] + r)[1..] == r;
  }

  /** Inserting `x` adds it in front of the items sharing its key and leaves other keys alone. */
  lemma {:induction false} InsertWithKey(x: EmbeddingItem, s: seq<EmbeddingItem>, k: int)
    ensures WithKey(Insert(x, s), k) == (if SortKey(x) == k then [x] else []) + WithKey(s, k)
  {
    var mine: seq<EmbeddingItem> := if SortKey(x) == k then [x] else [];
    if |s| == 0 {
      WithKeyCons(x, [], k);
      assert [x] + [] == [x];
    } else if SortKey(x) <= SortKey(s[0]) {
      WithKeyCons(x, s, k);
    } else {
      var head: seq<EmbeddingItem> := if SortKey(s[0]) == k then [s[0]] else [];
      InsertWithKey(x, s[1..], k);
      WithKeyCons(s[0], Insert(x, s[1..]), k);
      WithKeyCons(s[0], s[1..], k);
      assert s == [s[0]] + s[1..];
      // `mine` is non-empty only when its key is k, and then `head` is empty
      // because the head's key is smaller than x's.
      assert mine == [] || head == [];
      assert head + (mine + WithKey(s[1..], k)) == mine + (head + WithKey(s[1..], k));
    }
  }

  /** `sorted(data, key=lambda item: getattr(item, "index", 0))`: a stable ascending sort. */
  function SortByIndex(s: seq<EmbeddingItem>): (r: seq<EmbeddingItem>)
    ensures |r| == |s|
    ensures multiset(r) == multiset(s)
    ensures SortedByIndex(r)
    ensures forall k :: WithKey(r, k) == WithKey(s, k)
  {
    if |s| == 0 then []
    else
      var rest := SortByIndex(s[1..]);
      RemoveHead(s);
      InsertSorted(s[0], rest);
      assert forall k :: WithKey(Insert(s[0], rest), k) == WithKey(s, k) by {
        forall k ensures WithKey(Insert(s[0], rest), k) == WithKey(s, k) {
          InsertWithKey(s[0], rest, k);
        }
      }
      Insert(s[0], rest)
  }

  /** The embeddings of the items, in the items' order. */
  function Embeddings(s: seq<EmbeddingItem>): (vs: seq<Vector>)
    ensures |vs| == |s|
    ensures forall i :: 0 <= i < |s| ==> vs[i] == s[i].embedding
  {
    if |s| == 0 then [] else [s[0].embedding] + Embeddings(s[1..])
  }

  /** `embed_documents` given the batch response's `data`. */
  function EmbedDocuments(data: seq<EmbeddingItem>): (vectors: seq<Vector>)
    ensures |vectors| == |data|
    ensures multiset(vectors) == multiset(Embeddings(data))
    ensures SortedByIndex(data) ==> vectors == Embeddings(data)
    ensures exists sorted ::
              && SortedByIndex(sorted)
              && multiset(sorted) == multiset(data)
              && (forall k :: WithKey(sorted, k) == WithKey(data, k))
              && vectors == Embeddings(sorted)
  {
    var sorted := SortByIndex(data);
    EmbeddingsOfPermutation(sorted, data);
    assert SortedByIndex(data) ==> sorted == data by {
      if SortedByIndex(data) {
        SortOfSorted(data);
      }
    }
    Embeddings(sorted)
  }

  /** `embed_query` given the response's `data`: the first item's embedding, in transport order. */
  function EmbedQuery(data: seq<EmbeddingItem>): (r: Result<Vector, string>)
    ensures r.Ok? <==> |data| > 0
    ensures r.Ok? ==> r.value == data[0].embedding
    ensures r.Err? ==> r.error == EmptyResponse
  {
    if |data| == 0 then Err(EmptyResponse) else Ok(data[0].embedding)
  }

  /** Sorting an already ordered response changes nothing. */
  lemma {:induction false} SortOfSorted(s: seq<EmbeddingItem>)
    requires SortedByIndex(s)
    ensures SortByIndex(s) == s
  {
    if |s| > 0 {
      SortedTail(s);
      SortOfSorted(s[1..]);
      assert s == [s[0]] + s[1..];
    }
  }

  /** Embeddings of a concatenation are the concatenated embeddings. */
  lemma {:induction false} EmbeddingsAppend(s: seq<EmbeddingItem>, t: seq<EmbeddingItem>)
    ensures Embeddings(s + t) == Embeddings(s) + Embeddings(t)
  {
    if |s| > 0 {
      assert (s + t)[1..] == s[1..] + t;
      EmbeddingsAppend(s[1..], t);
    } else {
      assert s + t == t;
    }
  }

  /** Embeddings around a middle item. */
  lemma EmbeddingsMiddle(front: seq<EmbeddingItem>, x: EmbeddingItem, back: seq<EmbeddingItem>)
    ensures Embeddings(front + ([x] + back)) == Embeddings(front) + ([x.embedding] + Embeddings(back))
  {
    EmbeddingsAppend(front, [x] + back);
    EmbeddingsAppend([x], back);
    assert Embeddings([x]) == [x.embedding] by { assert [x][1..] == []; }
  }

  /** Removing the item at `j` removes its embedding. */
  lemma EmbeddingsRemoveAt(b: seq<EmbeddingItem>, j: nat)
    requires j < |b|
    ensures multiset(Embeddings(b)) == multiset(Embeddings(b[..j] + b[j + 1..])) + multiset{b[j].embedding}
  {
    var front, back := b[..j], b[j + 1..];
    Split(b, j);
    EmbeddingsMiddle(front, b[j], back);
    EmbeddingsAppend(front, back);
    MultisetMiddle(Embeddings(front), b[j].embedding, Embeddings(back));
  }

  /** Dropping the first item removes its embedding. */
  lemma EmbeddingsRemoveHead(a: seq<EmbeddingItem>)
    requires |a| > 0
    ensures multiset(Embeddings(a)) == multiset(Embeddings(a[1..])) + multiset{a[0].embedding}
  {
    var vs := Embeddings(a);
    assert vs == [a[0].embedding] + Embeddings(a[1..]);
    RemoveHead(vs);
    assert vs[1..] == Embeddings(a[1..]);
  }

  /** Permuted items have permuted embeddings. */
  lemma {:induction false} EmbeddingsOfPermutation(a: seq<EmbeddingItem>, b: seq<EmbeddingItem>)
    requires multiset(a) == multiset(b)
    ensures multiset(Embeddings(a)) == multiset(Embeddings(b))
  {
    if |a| == 0 {
      EmptyMultiset(b);
    } else {
      var x := a[0];
      assert x in multiset(b);
      var j :| 0 <= j < |b| && b[j] == x;
      var rest := b[..j] + b[j + 1..];
      RemoveAt(b, j);
      RemoveHead(a);
      Cancel(multiset(a[1..]), multiset(rest), x);
      EmbeddingsOfPermutation(a[1..], rest);
      EmbeddingsRemoveAt(b, j);
      EmbeddingsRemoveHead(a);
    }
  }

  /** The tail of a sequence with distinct indices has distinct indices. */
  lemma DistinctTail(s: seq<EmbeddingItem>)
    requires |s| > 0 && DistinctIndices(s)
    ensures DistinctIndices(s[1..])
    ensures forall z :: z in s[1..] ==> SortKey(s[0]) != SortKey(z)
  {
    forall z | z in s[1..] ensures SortKey(s[0]) != SortKey(z) {
      var p :| 0 <= p < |s[1..]| && s[1..][p] == z;
      assert s[p + 1] == z;
    }
  }

  /** Every item `WithKey` keeps is an item of the sequence with that key. */
  lemma {:induction false} WithKeyMembers(s: seq<EmbeddingItem>, k: int)
    ensures forall x :: x in WithKey(s, k) ==> x in s && SortKey(x) == k
  {
    if |s| > 0 {
      WithKeyMembers(s[1..], k);
      assert forall x :: x in s[1..] ==> x in s;
    }
  }

  /** `WithKey` of a non-empty sequence, for its head's key and for any other key. */
  lemma WithKeyUnfold(s: seq<EmbeddingItem>, k: int)
    requires |s| > 0
    ensures SortKey(s[0]) == k ==> WithKey(s, k) == [s[0]] + WithKey(s[1..], k)
    ensures SortKey(s[0]) != k ==> WithKey(s, k) == WithKey(s[1..], k)
  {
  }

  /** When two sequences keep the same items per key, the head of an ordered one has the smallest key of the other's head. */
  lemma HeadKeyBound(a: seq<EmbeddingItem>, b: seq<EmbeddingItem>)
    requires |a| > 0 && |b| > 0 && SortedByIndex(a)
    requires forall k :: WithKey(a, k) == WithKey(b, k)
    ensures SortKey(a[0]) <= SortKey(b[0])
  {
    var kb := SortKey(b[0]);
    WithKeyUnfold(b, kb);
    assert b[0] in WithKey(a, kb);
    WithKeyMembers(a, kb);
    var i :| 0 <= i < |a| && a[i] == b[0];
    assert i == 0 || SortKey(a[0]) <= SortKey(a[i]);
  }

  /** A non-empty sequence keeps its head under the head's key. */
  lemma NonEmptyByKeys(s: seq<EmbeddingItem>)
    requires |s| > 0
    ensures WithKey(s, SortKey(s[0])) != []
  {
    WithKeyUnfold(s, SortKey(s[0]));
  }

  /**
    An ordered sequence is fixed by the items it keeps under each key, in their
    order: two ordered sequences that agree on every `WithKey` are equal, ties included.
   */
  lemma {:induction false} SortedStableUnique(a: seq<EmbeddingItem>, b: seq<EmbeddingItem>)
    requires SortedByIndex(a) && SortedByIndex(b)
    requires forall k :: WithKey(a, k) == WithKey(b, k)
    ensures a == b
  {
    assert |a| > 0 ==> |b| > 0 by {
      if |a| > 0 {
        NonEmptyByKeys(a);
        assert WithKey(b, SortKey(a[0])) != [];
      }
    }
    assert |b| > 0 ==> |a| > 0 by {
      if |b| > 0 {
        NonEmptyByKeys(b);
        assert WithKey(a, SortKey(b[0])) != [];
      }
    }
    if |a| > 0 {
      HeadKeyBound(a, b);
      HeadKeyBound(b, a);
      var k0 := SortKey(a[0]);
      WithKeyUnfold(a, k0);
      WithKeyUnfold(b, k0);
      assert a[0] == WithKey(a, k0)[0] == WithKey(b, k0)[0] == b[0];
      forall k ensures WithKey(a[1..], k) == WithKey(b[1..], k) {
        WithKeyUnfold(a, k);
        WithKeyUnfold(b, k);
        if k == k0 {
          assert WithKey(a[1..], k) == WithKey(a, k)[1..];
          assert WithKey(b[1..], k) == WithKey(b, k)[1..];
        }
      }
      SortedTail(a);
      SortedTail(b);
      SortedStableUnique(a[1..], b[1..]);
      assert a == [a[0]] + a[1..];
      assert b == [b[0]] + b[1..];
    }
  }

  /**
    `SortByIndex` is the only ordered arrangement that keeps each key's items in
    their delivery order, so the arrangement `EmbedDocuments` promises is unique.
   */
  lemma StableSortUnique(sorted: seq<EmbeddingItem>, data: seq<EmbeddingItem>)
    requires SortedByIndex(sorted)
    requires forall k :: WithKey(sorted, k) == WithKey(data, k)
    ensures sorted == SortByIndex(data)
  {
    SortedStableUnique(sorted, SortByIndex(data));
  }

  /** Two ordered responses with distinct indices and the same items start with the same item. */
  lemma SameHead(a: seq<EmbeddingItem>, b: seq<EmbeddingItem>)
    requires |a| > 0
    requires SortedByIndex(a) && DistinctIndices(a)
    requires SortedByIndex(b) && DistinctIndices(b)
    requires multiset(a) == multiset(b)
    ensures |b| > 0 && a[0] == b[0]
  {
    assert |b| > 0 by {
      assert |multiset(b)| == |multiset(a)|;
    }
    assert a[0] in multiset(b);
    var j :| 0 <= j < |b| && b[j] == a[0];
    assert b[0] in multiset(a);
    var i :| 0 <= i < |a| && a[i] == b[0];
    assert SortKey(a[0]) <= SortKey(a[i]);
    assert SortKey(b[0]) <= SortKey(b[j]);
  }

  /** Two ordered responses with distinct indices and the same items are the same sequence. */
  lemma {:induction false} SortedDistinctUnique(a: seq<EmbeddingItem>, b: seq<EmbeddingItem>)
    requires SortedByIndex(a) && DistinctIndices(a)
    requires SortedByIndex(b) && DistinctIndices(b)
    requires multiset(a) == multiset(b)
    ensures a == b
  {
    if |a| == 0 {
      EmptyMultiset(b);
    } else {
      SameHead(a, b);
      RemoveHead(a);
      RemoveHead(b);
      Cancel(multiset(a[1..]), multiset(b[1..]), a[0]);
      SortedTail(a);
      SortedTail(b);
      DistinctTail(a);
      DistinctTail(b);
      SortedDistinctUnique(a[1..], b[1..]);
      assert a == [a[0]] + a[1..];
      assert b == [b[0]] + b[1..];
    }
  }

  /** A permutation of items with distinct indices has distinct indices. */
  lemma {:induction false} DistinctUnderPermutation(a: seq<EmbeddingItem>, b: seq<EmbeddingItem>)
    requires DistinctIndices(a)
    requires multiset(a) == multiset(b)
    ensures DistinctIndices(b)
  {
    if |a| > 0 {
      var x := a[0];
      assert x in multiset(b);
      var j :| 0 <= j < |b| && b[j] == x;
      var rest := b[..j] + b[j + 1..];
      RemoveAt(b, j);
      RemoveHead(a);
      Cancel(multiset(a[1..]), multiset(rest), x);
      DistinctTail(a);
      DistinctUnderPermutation(a[1..], rest);
      forall y | y in rest ensures SortKey(y) != SortKey(x) {
        assert y in multiset(a[1..]);
      }
      forall p, q | 0 <= p < q < |b| ensures SortKey(b[p]) != SortKey(b[q]) {
        if p == j {
          RemovedIndex(b, j, q);
          assert b[q] in rest;
        } else if q == j {
          RemovedIndex(b, j, p);
          assert b[p] in rest;
        } else {
          RemovedIndex(b, j, p);
          RemovedIndex(b, j, q);
        }
      }
    } else {
      EmptyMultiset(b);
    }
  }

  /**
    With distinct indices, the order in which the transport delivered the items
    does not matter: any permutation of the response gives the same vectors.
   */
  lemma PermutationInvariant(a: seq<EmbeddingItem>, b: seq<EmbeddingItem>)
    requires DistinctIndices(a)
    requires multiset(a) == multiset(b)
    ensures EmbedDocuments(a) == EmbedDocuments(b)
  {
    DistinctUnderPermutation(a, b);
    var sa, sb := SortByIndex(a), SortByIndex(b);
    DistinctUnderPermutation(a, sa);
    DistinctUnderPermutation(b, sb);
    SortedDistinctUnique(sa, sb);
  }

  /** A response numbered 0 .. n-1 in any order yields the vectors in input order. */
  lemma CanonicalOrderRecovered(canonical: seq<EmbeddingItem>, delivered: seq<EmbeddingItem>)
    requires forall i :: 0 <= i < |canonical| ==> canonical[i].index == Some(i)
    requires multiset(delivered) == multiset(canonical)
    ensures EmbedDocuments(delivered) == Embeddings(canonical)
  {
    assert SortedByIndex(canonical);
    assert DistinctIndices(canonical);
    PermutationInvariant(canonical, delivered);
  }

  /** An item without an index sorts as index 0, so it comes before a positively indexed one. */
  lemma MissingIndexCountsAsZero(tagged: EmbeddingItem, untagged: EmbeddingItem)
    requires untagged.index == None
    requires tagged.index.Some? && tagged.index.value > 0
    ensures EmbedDocuments([tagged, untagged]) == [untagged.embedding, tagged.embedding]
  {
    var data := [tagged, untagged];
    assert data[1..] == [untagged];
    assert SortByIndex([untagged]) == [untagged];
    assert Insert(tagged, [untagged]) == [untagged, tagged] by {
      assert [untagged][1..] == [];
    }
    var sorted := [untagged, tagged];
    assert sorted[1..] == [tagged] && [tagged][1..] == [];
    assert Embeddings(sorted) == [untagged.embedding, tagged.embedding];
  }
}
