/** Building the user-item rating matrix from a rating log: dense indices
    for the distinct user and item ids, their inverse maps, and a
    users x items matrix whose cells hold either the last rating given or
    the sum of all ratings for the pair. */
module Dataset {
  import opened Builtins

  /** One row of the rating log. */
  datatype Rating = Rating(userId: int, itemId: int, rating: real)

  /** `(user_id2idx, item_id2idx, user_idx2id, item_idx2id)`. */
  datatype Mappings = Mappings(userId2Idx: map<int, int>, itemId2Idx: map<int, int>,
                               userIdx2Id: map<int, int>, itemIdx2Id: map<int, int>)

  function UserColumn(ratings: seq<Rating>): (r: seq<int>)
    ensures |r| == |ratings|
    ensures forall j :: 0 <= j < |ratings| ==> r[j] == ratings[j].userId
  {
    if ratings == [] then [] else [ratings[0].userId] + UserColumn(ratings[1..])
  }

  function ItemColumn(ratings: seq<Rating>): (r: seq<int>)
    ensures |r| == |ratings|
    ensures forall j :: 0 <= j < |ratings| ==> r[j] == ratings[j].itemId
  {
    if ratings == [] then [] else [ratings[0].itemId] + ItemColumn(ratings[1..])
  }

  /** `select(pl.col("user_id").unique())`, in order of first appearance. */
  function Users(ratings: seq<Rating>): (r: seq<int>)
    ensures NoDup(r)
    ensures Elements(r) == Elements(UserColumn(ratings))
  {
    Distinct(UserColumn(ratings))
  }

  function Items(ratings: seq<Rating>): (r: seq<int>)
    ensures NoDup(r)
    ensures Elements(r) == Elements(ItemColumn(ratings))
  {
    Distinct(ItemColumn(ratings))
  }

  /** `{id: i for i, id in enumerate(ids)}`: a repeated id keeps its last index. */
  function Enumerate(ids: seq<int>): (r: map<int, int>)
    ensures r.Keys == Elements(ids)
    ensures forall id :: id in r ==> 0 <= r[id] < |ids| && ids[r[id]] == id
  {
    if ids == [] then map[]
    else
      var n := |ids| - 1;
      assert Elements(ids) == Elements(ids[..n]) + {ids[n]} by {
        assert ids == ids[..n] + [ids[n]];
      }
      Enumerate(ids[..n])[ids[n] := n]
  }

  /** `{v: k for k, v in d.items()}`, where `keys` is the insertion order
      of `d`: a repeated value keeps its last key. */
  function InvertInOrder(keys: seq<int>, d: map<int, int>): (r: map<int, int>)
    requires forall j :: 0 <= j < |keys| ==> keys[j] in d
    ensures forall v :: v in r ==> exists j :: 0 <= j < |keys| && d[keys[j]] == v && r[v] == keys[j]
  {
    if keys == [] then map[]
    else
      var n := |keys| - 1;
      var prev := InvertInOrder(keys[..n], d);
      assert forall j :: 0 <= j < n ==> keys[..n][j] == keys[j];
      prev[d[keys[n]] := keys[n]]
  }

  /** `build_mappings`. */
  function BuildMappings(ratings: seq<Rating>): Mappings
  {
    var users, items := Users(ratings), Items(ratings);
    var userId2Idx, itemId2Idx := Enumerate(users), Enumerate(items);
    Mappings(userId2Idx, itemId2Idx, InvertInOrder(users, userId2Idx), InvertInOrder(items, itemId2Idx))
  }

  /** `id2idx` sends the ids onto `0..n-1` one to one, and `idx2id` is its
      inverse in both directions. */
  ghost predicate IndexBijection(ids: set<int>, id2idx: map<int, int>, idx2id: map<int, int>, n: nat)
  {
    && n == |ids|
    && id2idx.Keys == ids
    && (forall id :: id in id2idx ==> 0 <= id2idx[id] < n)
    && (forall i :: i in idx2id <==> 0 <= i < n)
    && (forall id :: id in id2idx ==> id2idx[id] in idx2id && idx2id[id2idx[id]] == id)
    && (forall i :: i in idx2id ==> idx2id[i] in id2idx && id2idx[idx2id[i]] == i)
  }

  /** On a list without repeats, the enumeration gives each id its position. */
  lemma EnumerateDistinct(ids: seq<int>)
    requires NoDup(ids)
    ensures forall j :: 0 <= j < |ids| ==> ids[j] in Enumerate(ids) && Enumerate(ids)[ids[j]] == j
  {
    var m := Enumerate(ids);
    forall j | 0 <= j < |ids| ensures ids[j] in m && m[ids[j]] == j {
      assert ids[j] in Elements(ids);
    }
  }

  /** Inverting an enumeration of distinct positions gives the list back. */
  lemma {:induction false} InvertPositions(keys: seq<int>, d: map<int, int>)
    requires forall j :: 0 <= j < |keys| ==> keys[j] in d && d[keys[j]] == j
    ensures forall i :: i in InvertInOrder(keys, d) <==> 0 <= i < |keys|
    ensures forall i :: 0 <= i < |keys| ==> InvertInOrder(keys, d)[i] == keys[i]
  {
    if keys != [] {
      var n := |keys| - 1;
      assert forall j :: 0 <= j < n ==> keys[..n][j] == keys[j];
      InvertPositions(keys[..n], d);
    }
  }

  lemma IdsBijection(ids: seq<int>)
    requires NoDup(ids)
    ensures IndexBijection(Elements(ids), Enumerate(ids), InvertInOrder(ids, Enumerate(ids)), |ids|)
    ensures forall i :: 0 <= i < |ids| ==> InvertInOrder(ids, Enumerate(ids))[i] == ids[i]
  {
    EnumerateDistinct(ids);
    InvertPositions(ids, Enumerate(ids));
    ElementsCard(ids);
  }

  /** The user and item mappings of `build_mappings` are bijections onto
      `0..num_users-1` and `0..num_items-1`, over exactly the ids in the log. */
  lemma BuildMappingsSpec(ratings: seq<Rating>)
    ensures var m := BuildMappings(ratings);
      && IndexBijection(Elements(UserColumn(ratings)), m.userId2Idx, m.userIdx2Id, |Users(ratings)|)
      && IndexBijection(Elements(ItemColumn(ratings)), m.itemId2Idx, m.itemIdx2Id, |Items(ratings)|)
      && (forall u :: 0 <= u < |Users(ratings)| ==> m.userIdx2Id[u] == Users(ratings)[u])
      && (forall i :: 0 <= i < |Items(ratings)| ==> m.itemIdx2Id[i] == Items(ratings)[i])
  {
    var users, items := Users(ratings), Items(ratings);
    IdsBijection(users);
    IdsBijection(items);
  }

  /* ---------------------------------------------------------------------
     The matrix
     --------------------------------------------------------------------- */

  predicate Matches(row: Rating, userId: int, itemId: int)
  {
    row.userId == userId && row.itemId == itemId
  }

  /** The overwrite-mode cell: the rating of the last row for the pair, 0
      when there is none. */
  function LastRating(ratings: seq<Rating>, userId: int, itemId: int): real
  {
    if ratings == [] then 0.0
    else if Matches(ratings[|ratings| - 1], userId, itemId) then ratings[|ratings| - 1].rating
    else LastRating(ratings[..|ratings| - 1], userId, itemId)
  }

  /** The additive-mode cell: the sum of the ratings of all rows for the pair. */
  function RatingSum(ratings: seq<Rating>, userId: int, itemId: int): real
  {
    if ratings == [] then 0.0
    else
      RatingSum(ratings[..|ratings| - 1], userId, itemId)
        + (if Matches(ratings[|ratings| - 1], userId, itemId) then ratings[|ratings| - 1].rating else 0.0)
  }

  function Cell(ratings: seq<Rating>, userId: int, itemId: int, additive: bool): real
  {
    if additive then RatingSum(ratings, userId, itemId) else LastRating(ratings, userId, itemId)
  }

  /** A pair nobody rated keeps 0 in both modes. */
  lemma {:induction false} UnratedCellIsZero(ratings: seq<Rating>, userId: int, itemId: int, additive: bool)
    requires forall j :: 0 <= j < |ratings| ==> !Matches(ratings[j], userId, itemId)
    ensures Cell(ratings, userId, itemId, additive) == 0.0
  {
    if ratings != [] {
      var n := |ratings| - 1;
      assert forall j :: 0 <= j < n ==> ratings[..n][j] == ratings[j];
      UnratedCellIsZero(ratings[..n], userId, itemId, additive);
    }
  }

  /** In overwrite mode the cell holds the rating of the last row for the pair. */
  lemma {:induction false} LastRowWins(ratings: seq<Rating>, userId: int, itemId: int, j: nat)
    requires j < |ratings| && Matches(ratings[j], userId, itemId)
    requires forall j' :: j < j' < |ratings| ==> !Matches(ratings[j'], userId, itemId)
    ensures Cell(ratings, userId, itemId, false) == ratings[j].rating
  {
    var n := |ratings| - 1;
    if j < n {
      assert forall j' :: 0 <= j' < n ==> ratings[..n][j'] == ratings[j'];
      LastRowWins(ratings[..n], userId, itemId, j);
    }
  }

  /** In additive mode the log splits: the cell of `a + b` is the cell of
      `a` plus the cell of `b`. */
  lemma {:induction false} RatingSumAppend(a: seq<Rating>, b: seq<Rating>, userId: int, itemId: int)
    ensures Cell(a + b, userId, itemId, true) == Cell(a, userId, itemId, true) + Cell(b, userId, itemId, true)
  {
    if b == [] {
      assert a + b == a;
    } else {
      var n := |b| - 1;
      assert (a + b)[..|a + b| - 1] == a + b[..n];
      RatingSumAppend(a, b[..n], userId, itemId);
    }
  }

  /** A pair rated exactly once holds that rating in both modes. */
  lemma RatedOnceModesAgree(ratings: seq<Rating>, userId: int, itemId: int, j: nat)
    requires j < |ratings| && Matches(ratings[j], userId, itemId)
    requires forall j' :: 0 <= j' < |ratings| && j' != j ==> !Matches(ratings[j'], userId, itemId)
    ensures Cell(ratings, userId, itemId, true) == Cell(ratings, userId, itemId, false) == ratings[j].rating
  {
    LastRowWins(ratings, userId, itemId, j);
    var before, after := ratings[..j], ratings[j + 1..];
    assert ratings == before + [ratings[j]] + after;
    UnratedCellIsZero(before, userId, itemId, true);
    UnratedCellIsZero(after, userId, itemId, true);
    RatingSumAppend(before, [ratings[j]], userId, itemId);
    RatingSumAppend(before + [ratings[j]], after, userId, itemId);
    assert RatingSum([ratings[j]], userId, itemId) == ratings[j].rating by {
      assert [ratings[j]][..0] == [];
    }
  }

  /** One more row changes only the cell of its own pair. */
  lemma CellSnoc(ratings: seq<Rating>, row: Rating, userId: int, itemId: int, additive: bool)
    ensures Cell(ratings + [row], userId, itemId, additive)
      == if !Matches(row, userId, itemId) then Cell(ratings, userId, itemId, additive)
         else if additive then Cell(ratings, userId, itemId, additive) + row.rating
         else row.rating
  {
    assert (ratings + [row])[..|ratings|] == ratings;
  }

  /** With distinct user and item lists, a row lands in exactly one cell. */
  lemma RowHitsOneCell(users: seq<int>, items: seq<int>, row: Rating, a: nat, b: nat)
    requires NoDup(users) && NoDup(items)
    requires a < |users| && users[a] == row.userId
    requires b < |items| && items[b] == row.itemId
    ensures forall u, i :: 0 <= u < |users| && 0 <= i < |items| ==>
      (Matches(row, users[u], items[i]) <==> u == a && i == b)
  {
  }

  /** Every row's user and item have an index. */
  lemma RowIndexed(ratings: seq<Rating>, k: nat)
    requires k < |ratings|
    ensures ratings[k].userId in Enumerate(Users(ratings))
    ensures ratings[k].itemId in Enumerate(Items(ratings))
  {
    assert UserColumn(ratings)[k] == ratings[k].userId && ItemColumn(ratings)[k] == ratings[k].itemId;
    assert ratings[k].userId in Elements(UserColumn(ratings));
    assert ratings[k].itemId in Elements(ItemColumn(ratings));
  }

  /** Every cell of `R` is the cell of `ratings` for its user and item. */
  ghost predicate Filled(R: array2<real>, ratings: seq<Rating>, users: seq<int>, items: seq<int>, additive: bool)
    reads R
  {
    && R.Length0 == |users| && R.Length1 == |items|
    && forall u, i :: 0 <= u < |users| && 0 <= i < |items| ==> R[u, i] == Cell(ratings, users[u], items[i], additive)
  }

  /** `build_matrix_with_mappings`: a num_users x num_items matrix of zeros,
      filled row by row from the log. */
  method BuildMatrixWithMappings(ratings: seq<Rating>, additive: bool) returns (R: array2<real>, mappings: Mappings)
    ensures mappings == BuildMappings(ratings)
    ensures R.Length0 == |Users(ratings)|
    ensures R.Length1 == |Items(ratings)|
    ensures forall u, i :: 0 <= u < R.Length0 && 0 <= i < R.Length1 ==>
      R[u, i] == Cell(ratings, Users(ratings)[u], Items(ratings)[i], additive)
  {
    mappings := BuildMappings(ratings);
    var users, items := Users(ratings), Items(ratings);
    R := new real[|users|, |items|]((_, _) => 0.0);
    for k := 0 to |ratings|
      invariant Filled(R, ratings[..k], users, items, additive)
    {
      FillRow(R, ratings, k, additive);
    }
    assert ratings[..|ratings|] == ratings;
  }

  /** The loop body of `build_matrix_with_mappings` for row `k`. */
  method FillRow(R: array2<real>, ratings: seq<Rating>, k: nat, additive: bool)
    requires k < |ratings|
    requires Filled(R, ratings[..k], Users(ratings), Items(ratings), additive)
    modifies R
    ensures Filled(R, ratings[..k + 1], Users(ratings), Items(ratings), additive)
  {
    var users, items := Users(ratings), Items(ratings);
    var row := ratings[k];
    RowIndexed(ratings, k);
    var a := Enumerate(users)[row.userId];
    var b := Enumerate(items)[row.itemId];
    RowHitsOneCell(users, items, row, a, b);
    assert ratings[..k + 1][..k] == ratings[..k];
    AddRating(R, ratings[..k + 1], users, items, a, b, additive);
  }

  /** `R[user_idx, item_idx] += rating`, or `= rating` in overwrite mode,
      for the last row of `done`. */
  method AddRating(R: array2<real>, done: seq<Rating>, users: seq<int>, items: seq<int>, a: nat, b: nat,
                   additive: bool)
    requires done != []
    requires Filled(R, done[..|done| - 1], users, items, additive)
    requires a < |users| && b < |items|
    requires forall u, i :: 0 <= u < |users| && 0 <= i < |items| ==>
      (Matches(done[|done| - 1], users[u], items[i]) <==> u == a && i == b)
    modifies R
    ensures Filled(R, done, users, items, additive)
  {
    var row := done[|done| - 1];
    if additive {
      R[a, b] := R[a, b] + row.rating;
    } else {
      R[a, b] := row.rating;
    }
  }
}
