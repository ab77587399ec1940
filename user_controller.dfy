/**
  The creation ledger's read and like endpoints: a caller's own creations and
  the published ones, newest first, and the like toggle on one creation.
 */
module UserController {
  import opened JsValues
  import opened Services

  // ---------------------------------------------------------------- likes

  /** `likes.filter(user => user !== u)`. */
  function Without(likes: seq<UserId>, u: UserId): (r: seq<UserId>)
    ensures u !in r
    ensures forall x :: x in r <==> x in likes && x != u
    ensures |r| <= |likes|
  {
    if likes == [] then []
    else if likes[0] == u then Without(likes[1..], u)
    else [likes[0]] + Without(likes[1..], u)
  }

  /** The updated likes of a toggle: every occurrence of `u` removed when present,
      otherwise `u` appended at the end. */
  function Toggled(likes: seq<UserId>, u: UserId): (r: seq<UserId>)
    ensures u in r <==> u !in likes
    ensures forall x :: x != u ==> (x in r <==> x in likes)
  {
    if u in likes then Without(likes, u) else likes + [u]
  }

  /** The message of a toggle: it reports whether the caller now likes the creation. */
  function ToggleMessage(likes: seq<UserId>, u: UserId): (r: string)
    ensures r == "Creation Liked" <==> u in Toggled(likes, u)
    ensures r == "Like removed" <==> u !in Toggled(likes, u)
  {
    if u in likes then "Like removed" else "Creation Liked"
  }

  lemma {:induction false} WithoutAbsent(likes: seq<UserId>, u: UserId)
    requires u !in likes
    ensures Without(likes, u) == likes
  {
    if likes != [] {
      WithoutAbsent(likes[1..], u);
    }
  }

  lemma {:induction false} WithoutAppend(likes: seq<UserId>, extra: seq<UserId>, u: UserId)
    ensures Without(likes + extra, u) == Without(likes, u) + Without(extra, u)
  {
    if likes == [] {
      assert likes + extra == extra;
    } else {
      assert (likes + extra)[0] == likes[0] && (likes + extra)[1..] == likes[1..] + extra;
      WithoutAppend(likes[1..], extra, u);
      if likes[0] != u {
        assert [likes[0]] + (Without(likes[1..], u) + Without(extra, u))
            == ([likes[0]] + Without(likes[1..], u)) + Without(extra, u);
      }
    }
  }

  /** A toggle keeps every other liker, in the same relative order. */
  lemma ToggleKeepsOthers(likes: seq<UserId>, u: UserId)
    ensures Without(Toggled(likes, u), u) == Without(likes, u)
  {
    if u in likes {
      WithoutAbsent(Without(likes, u), u);
    } else {
      WithoutAppend(likes, [u], u);
      assert Without([u], u) == [];
    }
  }

  /** Toggling twice restores a likes list the caller was absent from. */
  lemma ToggleTwiceRestoresAbsent(likes: seq<UserId>, u: UserId)
    requires u !in likes
    ensures Toggled(Toggled(likes, u), u) == likes
  {
    WithoutAppend(likes, [u], u);
    assert Without([u], u) == [];
    WithoutAbsent(likes, u);
  }

  /** Toggling twice on a list the caller was in leaves the others in order and the caller
      once, at the end, with the same set of likers. */
  lemma ToggleTwiceMovesPresentToEnd(likes: seq<UserId>, u: UserId)
    requires u in likes
    ensures Toggled(Toggled(likes, u), u) == Without(likes, u) + [u]
    ensures (set x | x in Toggled(Toggled(likes, u), u)) == (set x | x in likes)
  {
  }

  /** When the caller liked exactly once, toggling twice keeps the same multiset of likers. */
  lemma ToggleTwiceKeepsSingleLike(likes: seq<UserId>, u: UserId)
    requires multiset(likes)[u] == 1
    ensures multiset(Toggled(Toggled(likes, u), u)) == multiset(likes)
  {
    WithoutCountOnce(likes, u);
  }

  /** Removing a liker that occurs once takes exactly that one element away. */
  lemma {:induction false} WithoutCountOnce(likes: seq<UserId>, u: UserId)
    requires multiset(likes)[u] == 1
    ensures multiset(Without(likes, u)) + multiset{u} == multiset(likes)
  {
    assert likes == [likes[0]] + likes[1..];
    if likes[0] == u {
      assert multiset(likes[1..])[u] == 0;
      WithoutAbsent(likes[1..], u);
    } else {
      WithoutCountOnce(likes[1..], u);
    }
  }

  // ------------------------------------------------------------- listings

  /** Non-increasing `created_at`: the order of `ORDER BY created_at DESC`. */
  ghost predicate NewestFirst(rows: seq<Creation>) {
    forall i, j :: 0 <= i < j < |rows| ==> rows[i].createdAt >= rows[j].createdAt
  }

  function InsertByAge(c: Creation, sorted: seq<Creation>): (r: seq<Creation>)
    ensures multiset(r) == multiset(sorted) + multiset{c}
    ensures |r| == |sorted| + 1
  {
    if sorted == [] || c.createdAt >= sorted[0].createdAt then [c] + sorted
    else
      assert sorted == [sorted[0]] + sorted[1..];
      [sorted[0]] + InsertByAge(c, sorted[1..])
  }

  /** `ORDER BY created_at DESC` (the store's order among equal timestamps is not modelled). */
  function SortNewestFirst(rows: seq<Creation>): (r: seq<Creation>)
    ensures multiset(r) == multiset(rows)
  {
    if rows == [] then []
    else
      assert rows == [rows[0]] + rows[1..];
      InsertByAge(rows[0], SortNewestFirst(rows[1..]))
  }

  lemma {:induction false} InsertByAgeOrdered(c: Creation, sorted: seq<Creation>)
    requires NewestFirst(sorted)
    ensures NewestFirst(InsertByAge(c, sorted))
    ensures InsertByAge(c, sorted)[0] == c || (sorted != [] && InsertByAge(c, sorted)[0] == sorted[0])
  {
    var r := InsertByAge(c, sorted);
    if sorted == [] || c.createdAt >= sorted[0].createdAt {
      forall i, j | 0 <= i < j < |r| ensures r[i].createdAt >= r[j].createdAt {
        if i == 0 && j > 1 {
          assert sorted[0].createdAt >= sorted[j - 1].createdAt;
        }
      }
    } else {
      var rest := InsertByAge(c, sorted[1..]);
      InsertByAgeOrdered(c, sorted[1..]);
      assert r == [sorted[0]] + rest;
      assert rest[0].createdAt <= sorted[0].createdAt by {
        if rest[0] != c {
          assert rest[0] == sorted[1];
        }
      }
      forall i, j | 0 <= i < j < |r| ensures r[i].createdAt >= r[j].createdAt {
        if i == 0 {
          assert r[j] == rest[j - 1];
          if j > 1 {
            assert rest[0].createdAt >= rest[j - 1].createdAt;
          }
        } else {
          assert r[i] == rest[i - 1] && r[j] == rest[j - 1];
        }
      }
    }
  }

  lemma {:induction false} SortNewestFirstOrdered(rows: seq<Creation>)
    ensures NewestFirst(SortNewestFirst(rows))
  {
    if rows != [] {
      SortNewestFirstOrdered(rows[1..]);
      InsertByAgeOrdered(rows[0], SortNewestFirst(rows[1..]));
    }
  }

  /** `WHERE user_id = u`. */
  function OwnedBy(rows: seq<Creation>, u: UserId): (r: seq<Creation>)
    ensures forall c :: c in r <==> c in rows && c.userId == u
    ensures forall c :: multiset(r)[c] == if c.userId == u then multiset(rows)[c] else 0
  {
    assert rows != [] ==> rows == [rows[0]] + rows[1..];
    if rows == [] then []
    else if rows[0].userId == u then [rows[0]] + OwnedBy(rows[1..], u)
    else OwnedBy(rows[1..], u)
  }

  /** `WHERE publish = true`. */
  function PublishedRows(rows: seq<Creation>): (r: seq<Creation>)
    ensures forall c :: c in r <==> c in rows && c.publish
    ensures forall c :: multiset(r)[c] == if c.publish then multiset(rows)[c] else 0
  {
    assert rows != [] ==> rows == [rows[0]] + rows[1..];
    if rows == [] then []
    else if rows[0].publish then [rows[0]] + PublishedRows(rows[1..])
    else PublishedRows(rows[1..])
  }

  /** `SELECT * FROM creations WHERE user_id = u ORDER BY created_at DESC`. */
  function UserCreations(rows: seq<Creation>, u: UserId): (r: seq<Creation>)
    ensures multiset(r) == multiset(OwnedBy(rows, u))
    ensures NewestFirst(r)
  {
    SortNewestFirstOrdered(OwnedBy(rows, u));
    SortNewestFirst(OwnedBy(rows, u))
  }

  /** `SELECT * FROM creations WHERE publish = true ORDER BY created_at DESC`. */
  function PublishedCreations(rows: seq<Creation>): (r: seq<Creation>)
    ensures multiset(r) == multiset(PublishedRows(rows))
    ensures NewestFirst(r)
  {
    SortNewestFirstOrdered(PublishedRows(rows));
    SortNewestFirst(PublishedRows(rows))
  }

  /** Sorting neither adds nor drops a row. */
  lemma SortKeepsRows(rows: seq<Creation>)
    ensures forall c :: c in SortNewestFirst(rows) <==> c in rows
  {
    assert forall c :: c in SortNewestFirst(rows) <==> c in multiset(rows);
  }

  /** The caller's listing holds exactly the caller's rows, each as often as stored. */
  lemma UserCreationsExact(rows: seq<Creation>, u: UserId)
    ensures forall c :: multiset(UserCreations(rows, u))[c] == if c.userId == u then multiset(rows)[c] else 0
    ensures forall c :: c in UserCreations(rows, u) <==> c in rows && c.userId == u
  {
    SortKeepsRows(OwnedBy(rows, u));
  }

  /** The public listing holds exactly the published rows, each as often as stored. */
  lemma PublishedCreationsExact(rows: seq<Creation>)
    ensures forall c :: multiset(PublishedCreations(rows))[c] == if c.publish then multiset(rows)[c] else 0
    ensures forall c :: c in PublishedCreations(rows) <==> c in rows && c.publish
  {
    SortKeepsRows(PublishedRows(rows));
  }

  // ------------------------------------------------------------- handlers

  /** The body of a listing response. */
  datatype Listing = Listing(status: int, success: bool, creations: Option<seq<Creation>>, message: Message)

  /** GET of the caller's creations; `queryOk` is the outcome of the SELECT. */
  method GetUserCreations(w: World, u: UserId, queryOk: bool) returns (r: Listing)
    ensures queryOk ==> r.status == 200 && r.success && r.creations.Some?
    ensures queryOk ==> multiset(r.creations.value) == multiset(OwnedBy(w.creations, u)) && NewestFirst(r.creations.value)
    ensures !queryOk ==> r == Listing(500, false, None, ErrorMessage)
  {
    if !queryOk {
      return Listing(500, false, None, ErrorMessage);
    }
    return Listing(200, true, Some(UserCreations(w.creations, u)), NoMessage);
  }

  /** GET of the published creations; `queryOk` is the outcome of the SELECT. */
  method GetPublishCreations(w: World, queryOk: bool) returns (r: Listing)
    ensures queryOk ==> r.status == 200 && r.success && r.creations.Some?
    ensures queryOk ==> multiset(r.creations.value) == multiset(PublishedRows(w.creations)) && NewestFirst(r.creations.value)
    ensures !queryOk ==> r == Listing(500, false, None, ErrorMessage)
  {
    if !queryOk {
      return Listing(500, false, None, ErrorMessage);
    }
    return Listing(200, true, Some(PublishedCreations(w.creations)), NoMessage);
  }

  /** `SELECT ... WHERE id = ...`: the position of the row with that id. */
  function Find(rows: seq<Creation>, id: nat): (r: Option<nat>)
    ensures r.Some? ==> r.value < |rows| && rows[r.value].id == id
    ensures r.None? ==> forall i :: 0 <= i < |rows| ==> rows[i].id != id
  {
    if rows == [] then None
    else if rows[0].id == id then Some(0)
    else match Find(rows[1..], id)
      case None => None
      case Some(i) => Some(i + 1)
  }

  /** The body of a like response. */
  datatype LikeReply = LikeReply(status: int, success: bool, message: Message, likes: Option<seq<UserId>>)

  /** POST toggle-like; `selectOk` and `updateOk` are the outcomes of the SELECT and the UPDATE. */
  method ToggleLikeCreation(w: World, u: UserId, id: nat, selectOk: bool, updateOk: bool) returns (r: LikeReply)
    requires w.Valid()
    modifies w
    ensures w.Valid()
    ensures !selectOk ==> r == LikeReply(500, false, ErrorMessage, None) && unchanged(w)
    ensures selectOk && Find(old(w.creations), id).None? ==>
      r == LikeReply(404, false, Text("Creation not found"), None) && unchanged(w)
    ensures selectOk && Find(old(w.creations), id).Some? ==>
      var i := Find(old(w.creations), id).value;
      var likes := old(w.creations)[i].likes.GetOr([]);
      if updateOk then
        && w.creations == old(w.creations)[i := old(w.creations)[i].(likes := Some(Toggled(likes, u)))]
        && r == LikeReply(200, true, Text(ToggleMessage(likes, u)), Some(Toggled(likes, u)))
        && w.meta == old(w.meta) && w.metadataUpdates == old(w.metadataUpdates)
        && w.nextId == old(w.nextId) && w.files == old(w.files)
        && w.providerCalls == old(w.providerCalls) && w.uploads == old(w.uploads)
      else
        r == LikeReply(500, false, ErrorMessage, None) && unchanged(w)
  {
    if !selectOk {
      return LikeReply(500, false, ErrorMessage, None);
    }
    var found := Find(w.creations, id);
    if found.None? {
      return LikeReply(404, false, Text("Creation not found"), None);
    }
    var i := found.value;
    var currentLikes := w.creations[i].likes.GetOr([]);
    var updatedLikes: seq<UserId>;
    var message := "Like updated";
    if u in currentLikes {
      updatedLikes := Without(currentLikes, u);
      message := "Like removed";
    } else {
      updatedLikes := currentLikes + [u];
      message := "Creation Liked";
    }
    if !updateOk {
      return LikeReply(500, false, ErrorMessage, None);
    }
    w.SetLikes(i, updatedLikes);
    return LikeReply(200, true, Text(message), Some(updatedLikes));
  }
}
