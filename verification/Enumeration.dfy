/** The dense, reverse-indexed arrays behind ERC-721 enumeration: a list
    of token identifiers with no gaps, paired with a map from each listed
    identifier to its position, so that any entry can be removed in
    constant time by moving the last entry into its slot. */
module Enumeration {
  import opened Types

  /** `list` enumerates exactly the identifiers in `ids`, each once, and
      `pos` records the position of every one of them. `pos` may hold
      further keys, which belong to other lists sharing the same map. */
  ghost predicate Indexes(list: seq<TokenId>, pos: map<TokenId, nat>, ids: set<TokenId>) {
    && (forall i :: 0 <= i < |list| ==> list[i] in ids && list[i] in pos && pos[list[i]] == i)
    && (forall id :: id in ids ==> id in pos && pos[id] < |list| && list[pos[id]] == id)
  }

  /** Swap-and-pop: the last entry overwrites position `p`, then the list
      is shortened by one. */
  function SwapAndPop(list: seq<TokenId>, p: nat): (r: seq<TokenId>)
    requires p < |list|
    ensures |r| == |list| - 1
    ensures forall i :: 0 <= i < |r| && i != p ==> r[i] == list[i]
    ensures p < |r| ==> r[p] == list[|list| - 1]
  {
    list[p := list[|list| - 1]][..|list| - 1]
  }

  /** The position map after removing `id` by swap-and-pop: the moved
      last entry takes over `id`'s position, and `id` is forgotten. */
  function SwapAndPopIndex(list: seq<TokenId>, pos: map<TokenId, nat>, id: TokenId): (r: map<TokenId, nat>)
    requires |list| > 0 && id in pos
    ensures id !in r
    ensures forall t :: t in pos && t != id && t != list[|list| - 1] ==> t in r && r[t] == pos[t]
  {
    pos[list[|list| - 1] := pos[id]] - {id}
  }

  /** Appending a new identifier keeps the list dense and indexed. */
  lemma PushKeepsIndexes(list: seq<TokenId>, pos: map<TokenId, nat>, ids: set<TokenId>, id: TokenId)
    requires Indexes(list, pos, ids)
    requires id !in ids
    ensures Indexes(list + [id], pos[id := |list|], ids + {id})
  {
  }

  /** Swap-and-pop removal of a listed identifier keeps the list dense
      and indexed, now enumerating every other identifier. */
  lemma SwapAndPopKeepsIndexes(list: seq<TokenId>, pos: map<TokenId, nat>, ids: set<TokenId>, id: TokenId)
    requires Indexes(list, pos, ids)
    requires id in ids
    ensures Indexes(SwapAndPop(list, pos[id]), SwapAndPopIndex(list, pos, id), ids - {id})
  {
    var p, last := pos[id], |list| - 1;
    var list', pos' := SwapAndPop(list, p), SwapAndPopIndex(list, pos, id);
    var moved := list[last];
    forall i | 0 <= i < |list'|
      ensures list'[i] in ids - {id} && list'[i] in pos' && pos'[list'[i]] == i
    {
      if i == p {
        assert list'[i] == moved && moved != id;
      } else {
        assert list'[i] == list[i] && list[i] != moved;
      }
    }
    forall t | t in ids - {id}
      ensures t in pos' && pos'[t] < |list'| && list'[pos'[t]] == t
    {
      if t == moved {
        assert pos'[t] == p && p < last;
      } else {
        assert pos'[t] == pos[t] && pos[t] != p && pos[t] != last;
      }
    }
  }

  /** A list stays indexed under any position map that agrees with the
      old one on the list's own identifiers. */
  lemma IndexesFrame(list: seq<TokenId>, pos: map<TokenId, nat>, pos': map<TokenId, nat>, ids: set<TokenId>)
    requires Indexes(list, pos, ids)
    requires forall t :: t in ids ==> t in pos' && pos'[t] == pos[t]
    ensures Indexes(list, pos', ids)
  {
  }

  /** A dense indexed list has exactly as many entries as identifiers it
      enumerates. */
  lemma {:induction false} IndexesSize(list: seq<TokenId>, pos: map<TokenId, nat>, ids: set<TokenId>)
    requires Indexes(list, pos, ids)
    ensures |list| == |ids|
    decreases |list|
  {
    if list != [] {
      var n := |list| - 1;
      var init, ids' := list[..n], ids - {list[n]};
      forall i | 0 <= i < |init|
        ensures init[i] in ids' && init[i] in pos && pos[init[i]] == i
      {
        assert pos[list[i]] == i != n == pos[list[n]];
      }
      forall t | t in ids'
        ensures t in pos && pos[t] < |init| && init[pos[t]] == t
      {
        assert list[pos[t]] == t != list[n];
      }
      IndexesSize(init, pos, ids');
    }
  }

  /** The entries of an indexed list are pairwise distinct and are
      exactly the identifiers it enumerates. */
  lemma IndexesEnumerate(list: seq<TokenId>, pos: map<TokenId, nat>, ids: set<TokenId>)
    requires Indexes(list, pos, ids)
    ensures forall i, j :: 0 <= i < j < |list| ==> list[i] != list[j]
    ensures (set i | 0 <= i < |list| :: list[i]) == ids
  {
    var listed := set i | 0 <= i < |list| :: list[i];
    forall t | t in ids
      ensures t in listed
    {
      assert list[pos[t]] == t;
    }
  }
}
