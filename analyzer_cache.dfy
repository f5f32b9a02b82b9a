/** The analyzer's per-user state: a vector index and the knowledge lines it
    was built from, the least-recently-used memo in front of
    `fetch_knowledge_base`, and the retrieval of context lines for a query. */
module AnalyzerCache {
  import opened Wrappers
  import opened Values
  import opened Text
  import opened Rows
  import opened AnalyzerKnowledge

  /** `lru_cache(maxsize=100)`. */
  const MemoCapacity := 100

  /** A flat L2 index: its dimension and how many vectors were added to it. */
  datatype FlatIndex = FlatIndex(dim: nat, size: nat)

  /** One entry of `user_caches`. */
  datatype UserCache = UserCache(index: FlatIndex, knowledge: seq<string>)

  /** What the nearest-neighbour search returned for the query: the positions
      in `indices[0]` (-1 where there was no neighbour), or an exception from
      the encoder or the index. */
  datatype SearchOutcome = Neighbours(positions: seq<int>) | SearchRaised

  // ---------------------------------------------------------------- the memo

  function Itself(x: int): int { x }

  function Other(u: int): int -> bool {
    x => x != u
  }

  /** The memo's keys, least recently used first, are exactly the memoised
      users, each once, and never more than the capacity. */
  predicate LruValid(memo: map<int, seq<string>>, order: seq<int>) {
    UniqueKeys(order, Itself)
    && (forall u :: u in memo ==> u in order)
    && (forall i :: 0 <= i < |order| ==> order[i] in memo)
    && |order| <= MemoCapacity
  }

  /** A memo hit makes the user the most recently used. */
  function Touch(order: seq<int>, u: int): seq<int> {
    Filter(order, Other(u)) + [u]
  }

  /** A hit keeps the memo valid, puts the user last and forgets no one. */
  lemma TouchKeepsMemo(memo: map<int, seq<string>>, order: seq<int>, u: int)
    requires LruValid(memo, order) && u in memo
    ensures LruValid(memo, Touch(order, u))
    ensures Touch(order, u)[|Touch(order, u)| - 1] == u
    ensures forall w :: w in order <==> w in Touch(order, u)
  {
    var rest := Filter(order, Other(u));
    FilterMembers(order, Other(u));
    FilterKeepsUniqueKeys(order, Other(u), Itself);
    var k :| 0 <= k < |order| && order[k] == u;
    FilterShrinks(order, Other(u), k);
    var t := Touch(order, u);
    forall i, j | 0 <= i < j < |t| ensures Itself(t[i]) != Itself(t[j]) {
      if j == |t| - 1 {
        assert t[i] == rest[i] && rest[i] in rest;
      } else {
        assert t[i] == rest[i] && t[j] == rest[j];
      }
    }
    forall i | 0 <= i < |t| ensures t[i] in memo {
      if i < |rest| {
        assert t[i] == rest[i] && rest[i] in rest;
      }
    }
    forall w | w in memo ensures w in t {
      if w != u {
        assert w in rest;
      } else {
        assert t[|t| - 1] == u;
      }
    }
  }

  /** A miss whose result is kept: the least recently used user is evicted
      when the memo is full, and the new user becomes the most recent. */
  function Remember(memo: map<int, seq<string>>, order: seq<int>, u: int, v: seq<string>)
    : (r: (map<int, seq<string>>, seq<int>))
    requires u !in memo
  {
    if |order| >= MemoCapacity then ((memo - {order[0]})[u := v], order[1..] + [u])
    else (memo[u := v], order + [u])
  }

  /** Remembering keeps the memo valid, stores the value for the user, keeps
      every other memoised value, and drops a user only when the memo was
      full, and then only the least recently used one. */
  lemma RememberKeepsMemo(memo: map<int, seq<string>>, order: seq<int>, u: int, v: seq<string>)
    requires LruValid(memo, order) && u !in memo
    ensures var (m, o) := Remember(memo, order, u, v);
            && LruValid(m, o)
            && u in m && m[u] == v
            && (forall w :: w in m && w != u ==> w in memo && m[w] == memo[w])
            && (|order| < MemoCapacity ==> m.Keys == memo.Keys + {u})
            && (|order| >= MemoCapacity ==> m.Keys == memo.Keys - {order[0]} + {u})
  {
    var (m, o) := Remember(memo, order, u, v);
    assert u !in order;
    if |order| >= MemoCapacity {
      forall i, j | 0 <= i < j < |o| ensures Itself(o[i]) != Itself(o[j]) {
        if j < |o| - 1 {
          assert o[i] == order[i + 1] && o[j] == order[j + 1];
        } else {
          assert o[i] == order[i + 1];
        }
      }
      forall w ensures w in m <==> w in o {
        if w in order[1..] {
          var k :| 0 <= k < |order[1..]| && order[1..][k] == w;
          assert order[k + 1] == w;
        }
        if w in order && w != order[0] {
          var k :| 0 <= k < |order| && order[k] == w;
          assert k != 0;
          assert order[1..][k - 1] == w;
        }
      }
    } else {
      forall i, j | 0 <= i < j < |o| ensures Itself(o[i]) != Itself(o[j]) {
        if j < |o| - 1 {
          assert o[i] == order[i] && o[j] == order[j];
        } else {
          assert o[i] == order[i];
        }
      }
    }
  }

  // ---------------------------------------------------------------- retrieval

  predicate IsHit(p: int) { p >= 0 }

  /** The positions that name a neighbour. */
  function Hits(positions: seq<int>): seq<int> {
    Filter(positions, IsHit)
  }

  /** The knowledge lines at the given positions, in order. */
  function Project(knowledge: seq<string>, positions: seq<int>): seq<string>
    requires forall i :: 0 <= i < |positions| ==> 0 <= positions[i] < |knowledge|
  {
    seq(|positions|, j requires 0 <= j < |positions| => knowledge[positions[j]])
  }

  /** `[knowledge[i] for i in positions if i >= 0]`, which raises IndexError
      at a position past the end. */
  function Gather(knowledge: seq<string>, positions: seq<int>): Result<seq<string>, PyError> {
    if positions == [] then Ok([])
    else if positions[0] >= |knowledge| then Err(IndexError)
    else
      var rest :- Gather(knowledge, positions[1..]);
      if positions[0] < 0 then Ok(rest) else Ok([knowledge[positions[0]]] + rest)
  }

  /** The comprehension succeeds exactly when no position is past the end,
      and then yields the lines at the non-negative positions, in order. */
  lemma {:induction false} GatherOutcome(knowledge: seq<string>, positions: seq<int>)
    ensures Gather(knowledge, positions).Ok? <==> forall i :: 0 <= i < |positions| ==> positions[i] < |knowledge|
    ensures Gather(knowledge, positions).Ok? ==>
              (forall i :: 0 <= i < |Hits(positions)| ==> 0 <= Hits(positions)[i] < |knowledge|)
              && Gather(knowledge, positions).value == Project(knowledge, Hits(positions))
  {
    if positions != [] {
      var tail := positions[1..];
      GatherOutcome(knowledge, tail);
      assert forall i :: 0 < i < |positions| ==> positions[i] == tail[i - 1];
      if Gather(knowledge, positions).Ok? {
        var h, ht := Hits(positions), Hits(tail);
        if positions[0] < 0 {
          assert h == ht;
        } else {
          assert h == [positions[0]] + ht;
          assert Project(knowledge, h) == [knowledge[positions[0]]] + Project(knowledge, ht);
        }
      }
    }
  }

  /** `_initialize_user_cache` as a value: an empty index and no knowledge
      for a new user; an existing entry is left as it is. */
  function InitCache(caches: map<int, UserCache>, u: int, dim: nat): (r: map<int, UserCache>)
    ensures u in r && r.Keys == caches.Keys + {u}
    ensures u in caches ==> r == caches
    ensures u !in caches ==> r[u] == UserCache(FlatIndex(dim, 0), [])
                             && forall w :: w in caches ==> r[w] == caches[w]
  {
    if u in caches then caches else caches[u := UserCache(FlatIndex(dim, 0), [])]
  }

  /** Initialising twice is initialising once. */
  lemma InitCacheIdempotent(caches: map<int, UserCache>, u: int, dim: nat)
    ensures InitCache(InitCache(caches, u, dim), u, dim) == InitCache(caches, u, dim)
  {
  }

  /** `fetch_knowledge_base` on a memo miss, as a value: the knowledge built
      from the three fetches. */
  function KnowledgeBase(stock: FetchOutcome, receipts: FetchOutcome, users: FetchOutcome)
    : Result<seq<string>, PyError>
  {
    Knowledge(SafeFetchStock(stock), SafeFetch(receipts), SafeFetch(users))
  }

  /** Every cached index holds one vector per knowledge line. */
  predicate IndexesFit(caches: map<int, UserCache>, dim: nat) {
    forall u :: u in caches ==> caches[u].index == FlatIndex(dim, |caches[u].knowledge|)
  }

  /** The analyzer's invariant on its state: the indexes fit, the memo is a
      valid LRU, and a memoised non-empty knowledge base is the cached one. */
  predicate Coherent(caches: map<int, UserCache>, memo: map<int, seq<string>>, order: seq<int>, dim: nat) {
    && IndexesFit(caches, dim)
    && LruValid(memo, order)
    && (forall u :: u in memo ==> u in caches && (memo[u] != [] ==> caches[u].knowledge == memo[u]))
  }

  lemma InitKeepsCoherent(caches: map<int, UserCache>, memo: map<int, seq<string>>, order: seq<int>, dim: nat, u: int)
    requires Coherent(caches, memo, order, dim)
    ensures Coherent(InitCache(caches, u, dim), memo, order, dim)
  {
  }

  lemma TouchKeepsCoherent(caches: map<int, UserCache>, memo: map<int, seq<string>>, order: seq<int>, dim: nat, u: int)
    requires Coherent(caches, memo, order, dim) && u in memo
    ensures Coherent(caches, memo, Touch(order, u), dim)
  {
    TouchKeepsMemo(memo, order, u);
  }

  lemma ReindexKeepsCoherent(caches: map<int, UserCache>, memo: map<int, seq<string>>, order: seq<int>, dim: nat,
                             u: int, knowledge: seq<string>)
    requires Coherent(caches, memo, order, dim) && u !in memo
    ensures Coherent(caches[u := UserCache(FlatIndex(dim, |knowledge|), knowledge)], memo, order, dim)
  {
  }

  lemma RememberKeepsCoherent(caches: map<int, UserCache>, memo: map<int, seq<string>>, order: seq<int>, dim: nat,
                              u: int, v: seq<string>)
    requires Coherent(caches, memo, order, dim) && u !in memo && u in caches
    requires v != [] ==> caches[u].knowledge == v
    ensures var (m, o) := Remember(memo, order, u, v);
            Coherent(caches, m, o, dim)
  {
    RememberKeepsMemo(memo, order, u, v);
  }

  /** The analyzer of one application: its embedding dimension, the per-user
      caches, and the memo of `fetch_knowledge_base` (values and recency). */
  class GroceryAnalyzer {
    const embeddingDim: nat
    var userCaches: map<int, UserCache>
    var memo: map<int, seq<string>>
    var memoOrder: seq<int>

    /** Every index holds one vector per knowledge line; the memo is a valid
        LRU; a memoised non-empty knowledge base is the user's cached one. */
    predicate Valid()
      reads this
    {
      Coherent(userCaches, memo, memoOrder, embeddingDim)
    }

    predicate IndexesMatch()
      reads this
    {
      IndexesFit(userCaches, embeddingDim)
    }

    constructor (dim: nat)
      ensures Valid()
      ensures embeddingDim == dim && userCaches == map[] && memo == map[] && memoOrder == []
    {
      embeddingDim := dim;
      userCaches := map[];
      memo := map[];
      memoOrder := [];
    }

    /** `_initialize_user_cache`. */
    method InitializeUserCache(u: int)
      modifies this
      ensures userCaches == InitCache(old(userCaches), u, embeddingDim)
      ensures memo == old(memo) && memoOrder == old(memoOrder)
    {
      if u !in userCaches {
        userCaches := userCaches[u := UserCache(FlatIndex(embeddingDim, 0), [])];
      }
    }

    /** `_update_index`: encoding the lines may fail (`encoded` false), and
        then nothing changes; otherwise the user's index is rebuilt from the
        lines, which raises KeyError for a user without a cache. */
    method UpdateIndex(u: int, knowledge: seq<string>, encoded: bool) returns (r: Result<(), PyError>)
      requires IndexesMatch()
      modifies this
      ensures IndexesMatch()
      ensures memo == old(memo) && memoOrder == old(memoOrder)
      ensures !encoded ==> r == Err(EncodeError) && userCaches == old(userCaches)
      ensures encoded && u !in old(userCaches) ==> r == Err(KeyError(IntToString(u))) && userCaches == old(userCaches)
      ensures encoded && u in old(userCaches) ==>
                r == Ok(()) && userCaches == old(userCaches)[u := UserCache(FlatIndex(embeddingDim, |knowledge|), knowledge)]
    {
      if !encoded {
        return Err(EncodeError);
      }
      if u !in userCaches {
        return Err(KeyError(IntToString(u)));
      }
      userCaches := userCaches[u := UserCache(FlatIndex(embeddingDim, |knowledge|), knowledge)];
      return Ok(());
    }

    /** `fetch_knowledge_base` behind its memo. A hit returns the memoised
        lines without fetching; a miss initialises the user's cache, builds
        the knowledge from the three fetches, rebuilds the index when there
        is any, and memoises the result; an exception is not memoised. */
    method FetchKnowledgeBase(u: int, stock: FetchOutcome, receipts: FetchOutcome, users: FetchOutcome, encoded: bool)
      returns (r: Result<seq<string>, PyError>)
      requires Valid()
      modifies this
      ensures Valid()
      ensures r.Ok? ==> u in memo && memo[u] == r.value
      ensures u in old(memo) ==>
                r == Ok(old(memo)[u]) && userCaches == old(userCaches)
                && memo == old(memo) && memoOrder == Touch(old(memoOrder), u)
      ensures u !in old(memo) ==>
                var k := KnowledgeBase(stock, receipts, users);
                var init := InitCache(old(userCaches), u, embeddingDim);
                if k.Err? then
                  r == Err(k.error) && userCaches == init && memo == old(memo) && memoOrder == old(memoOrder)
                else if k.value == [] then
                  r == Ok([]) && userCaches == init && (memo, memoOrder) == Remember(old(memo), old(memoOrder), u, [])
                else if !encoded then
                  r == Err(EncodeError) && userCaches == init && memo == old(memo) && memoOrder == old(memoOrder)
                else
                  r == Ok(k.value)
                  && userCaches == init[u := UserCache(FlatIndex(embeddingDim, |k.value|), k.value)]
                  && (memo, memoOrder) == Remember(old(memo), old(memoOrder), u, k.value)
    {
      if u in memo {
        TouchKeepsCoherent(userCaches, memo, memoOrder, embeddingDim, u);
        TouchKeepsMemo(memo, memoOrder, u);
        memoOrder := Touch(memoOrder, u);
        return Ok(memo[u]);
      }
      InitKeepsCoherent(userCaches, memo, memoOrder, embeddingDim, u);
      InitializeUserCache(u);
      var knowledge := BuildKnowledgeItems(SafeFetchStock(stock), SafeFetch(receipts), SafeFetch(users));
      if knowledge.Err? {
        return Err(knowledge.error);
      }
      if knowledge.value == [] {
        RememberKeepsCoherent(userCaches, memo, memoOrder, embeddingDim, u, []);
        RememberKeepsMemo(memo, memoOrder, u, []);
        var (m, o) := Remember(memo, memoOrder, u, []);
        memo, memoOrder := m, o;
        return Ok([]);
      }
      ReindexKeepsCoherent(userCaches, memo, memoOrder, embeddingDim, u, knowledge.value);
      var updated := UpdateIndex(u, knowledge.value, encoded);
      if updated.Err? {
        return Err(updated.error);
      }
      RememberKeepsCoherent(userCaches, memo, memoOrder, embeddingDim, u, knowledge.value);
      RememberKeepsMemo(memo, memoOrder, u, knowledge.value);
      var (m, o) := Remember(memo, memoOrder, u, knowledge.value);
      memo, memoOrder := m, o;
      return Ok(knowledge.value);
    }

    /** `retrieve_context`: nothing for a user without knowledge or when the
        search raised; otherwise the lines at the neighbours' positions, or
        nothing if one of them is past the end. */
    function RetrieveContext(u: int, search: SearchOutcome): (r: seq<string>)
      reads this
      ensures u !in userCaches || userCaches[u].knowledge == [] || search.SearchRaised? ==> r == []
      ensures u in userCaches ==> forall i :: 0 <= i < |r| ==> r[i] in userCaches[u].knowledge
    {
      if u !in userCaches || userCaches[u].knowledge == [] then []
      else
        match search
        case SearchRaised => []
        case Neighbours(positions) =>
          var knowledge := userCaches[u].knowledge;
          GatherOutcome(knowledge, positions);
          match Gather(knowledge, positions)
          case Ok(lines) => lines
          case Err(_) => []
    }

    /** A search over the user's index returns positions below the number of
        vectors in it, or -1; then the context is the lines at the
        non-negative positions, in order, and at most `k` of them. */
    lemma RetrieveFromIndex(u: int, positions: seq<int>)
      requires Valid() && u in userCaches && userCaches[u].knowledge != []
      requires forall i :: 0 <= i < |positions| ==> -1 <= positions[i] < userCaches[u].index.size
      ensures var knowledge := userCaches[u].knowledge;
              && (forall i :: 0 <= i < |Hits(positions)| ==> 0 <= Hits(positions)[i] < |knowledge|)
              && RetrieveContext(u, Neighbours(positions)) == Project(knowledge, Hits(positions))
              && |RetrieveContext(u, Neighbours(positions))| <= |positions|
    {
      GatherOutcome(userCaches[u].knowledge, positions);
    }
  }

  /** Once a user's knowledge base was built, asking again returns the same
      lines even when the user's data has changed in the meantime. */
  method MemoHidesNewData(a: GroceryAnalyzer, u: int,
                          stock1: FetchOutcome, receipts1: FetchOutcome, users1: FetchOutcome,
                          stock2: FetchOutcome, receipts2: FetchOutcome, users2: FetchOutcome)
    returns (first: Result<seq<string>, PyError>, second: Result<seq<string>, PyError>)
    requires a.Valid()
    modifies a
    ensures first.Ok? ==> second == first
  {
    first := a.FetchKnowledgeBase(u, stock1, receipts1, users1, true);
    second := a.FetchKnowledgeBase(u, stock2, receipts2, users2, true);
  }
}
