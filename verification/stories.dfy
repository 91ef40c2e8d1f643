/**
 * The story items the App component shows, the built-in seed list it falls
 * back to, and the filter behind its "Dismiss" button.
 */
module Stories {

  /** An item's `objectID`. The seed list uses numbers, the search API strings;
      the component compares them with `!==`, so a number never equals a string. */
  datatype ObjectId = NumId(n: int) | StrId(s: string)

  /** One row of the table: a seed entry or a hit returned by the search API. */
  datatype Item = Item(
    title: string,
    url: string,
    author: string,
    numComments: int,
    points: int,
    objectID: ObjectId)

  /** The two-item list the component starts with and falls back to. */
  function SeedList(): (r: seq<Item>)
    ensures |r| == 2 && r[0].objectID != r[1].objectID
  {
    [ Item("React", "https://reactjs.org/", "Jordan Walke", 3, 4, NumId(0)),
      Item("Redux", "https://redux.js.org/", "Dan Abramov, Andrew Clark", 2, 5, NumId(1)) ]
  }

  /** `list.filter(item => item.objectID !== id)`. */
  function Dismiss(list: seq<Item>, id: ObjectId): (r: seq<Item>)
    ensures |r| <= |list|
    ensures forall x :: x in r <==> x in list && x.objectID != id
  {
    if list == [] then []
    else (if list[0].objectID != id then [list[0]] else []) + Dismiss(list[1..], id)
  }

  /** No item of `list` carries `id`. */
  predicate LacksId(list: seq<Item>, id: ObjectId) {
    forall i :: 0 <= i < |list| ==> list[i].objectID != id
  }

  /** No two items of `list` share an `objectID`. */
  predicate UniqueIds(list: seq<Item>) {
    forall i, j :: 0 <= i < j < |list| ==> list[i].objectID != list[j].objectID
  }

  /** The number of items of `list` that carry `id`. */
  function CountId(list: seq<Item>, id: ObjectId): nat {
    if list == [] then 0
    else (if list[0].objectID == id then 1 else 0) + CountId(list[1..], id)
  }

  /** `r` is `list` with some items left out, the rest in their original order. */
  predicate IsSubsequence(r: seq<Item>, list: seq<Item>)
    decreases |list|
  {
    if r == [] then true
    else if list == [] then false
    else (r[0] == list[0] && IsSubsequence(r[1..], list[1..])) || IsSubsequence(r, list[1..])
  }

  /** Dismissing keeps the surviving items in their original relative order. */
  lemma {:induction false} DismissIsSubsequence(list: seq<Item>, id: ObjectId)
    ensures IsSubsequence(Dismiss(list, id), list)
  {
    if list != [] {
      DismissIsSubsequence(list[1..], id);
      var rest := Dismiss(list[1..], id);
      if list[0].objectID != id {
        assert Dismiss(list, id) == [list[0]] + rest;
        assert ([list[0]] + rest)[1..] == rest;
      } else {
        assert Dismiss(list, id) == rest;
      }
    }
  }

  /** Dismissing removes exactly the items that carry `id`. */
  lemma {:induction false} DismissLength(list: seq<Item>, id: ObjectId)
    ensures |Dismiss(list, id)| == |list| - CountId(list, id)
  {
    if list != [] {
      DismissLength(list[1..], id);
    }
  }

  /** Dismissing an id that no item carries leaves the list as it is. */
  lemma {:induction false} DismissAbsent(list: seq<Item>, id: ObjectId)
    requires LacksId(list, id)
    ensures Dismiss(list, id) == list
  {
    if list != [] {
      DismissAbsent(list[1..], id);
      assert [list[0]] + list[1..] == list;
    }
  }

  /** Dismissing the same id twice is the same as dismissing it once. */
  lemma DismissIdempotent(list: seq<Item>, id: ObjectId)
    ensures Dismiss(Dismiss(list, id), id) == Dismiss(list, id)
  {
    var once := Dismiss(list, id);
    forall i | 0 <= i < |once| ensures once[i].objectID != id {
      assert once[i] in once;
    }
    DismissAbsent(once, id);
  }

  /** Dismissing distributes over concatenation: the part of the table above an
      item never moves below it. */
  lemma {:induction false} DismissAppend(a: seq<Item>, b: seq<Item>, id: ObjectId)
    ensures Dismiss(a + b, id) == Dismiss(a, id) + Dismiss(b, id)
  {
    if a != [] {
      var head := if a[0].objectID != id then [a[0]] else [];
      assert (a + b)[0] == a[0] && (a + b)[1..] == a[1..] + b;
      assert Dismiss(a + b, id) == head + Dismiss(a[1..] + b, id);
      DismissAppend(a[1..], b, id);
      assert Dismiss(a, id) == head + Dismiss(a[1..], id);
    } else {
      assert a + b == b;
    }
  }

  /** Two dismissals in either order give the same list. */
  lemma {:induction false} DismissCommutes(list: seq<Item>, x: ObjectId, y: ObjectId)
    ensures Dismiss(Dismiss(list, x), y) == Dismiss(Dismiss(list, y), x)
  {
    if list != [] {
      DismissCommutes(list[1..], x, y);
      var h := list[0];
      var t := list[1..];
      if h.objectID != x {
        DismissAppend([h], Dismiss(t, x), y);
      } else {
        DismissAppend([], Dismiss(t, x), y);
      }
      if h.objectID != y {
        DismissAppend([h], Dismiss(t, y), x);
      } else {
        DismissAppend([], Dismiss(t, y), x);
      }
    }
  }

  /** With unique ids, dismissing an id that is present removes exactly one item. */
  lemma DismissPresentUnique(list: seq<Item>, id: ObjectId, k: nat)
    requires UniqueIds(list)
    requires k < |list| && list[k].objectID == id
    ensures |Dismiss(list, id)| == |list| - 1
  {
    CountUnique(list, id, k);
    DismissLength(list, id);
  }

  lemma {:induction false} CountUnique(list: seq<Item>, id: ObjectId, k: nat)
    requires UniqueIds(list)
    requires k < |list| && list[k].objectID == id
    ensures CountId(list, id) == 1
  {
    if k == 0 {
      assert LacksId(list[1..], id) by {
        forall i | 0 <= i < |list[1..]| ensures list[1..][i].objectID != id {
          assert list[1..][i] == list[i + 1];
        }
      }
      CountAbsent(list[1..], id);
    } else {
      assert list[0].objectID != id by { assert list[0].objectID != list[k].objectID; }
      assert list[1..][k - 1] == list[k];
      CountUnique(list[1..], id, k - 1);
    }
  }

  lemma {:induction false} CountAbsent(list: seq<Item>, id: ObjectId)
    requires LacksId(list, id)
    ensures CountId(list, id) == 0
  {
    if list != [] {
      CountAbsent(list[1..], id);
    }
  }

  /** A subsequence of `list` free of `id` is no longer than the items of
      `list` that do not carry `id`. */
  lemma {:induction false} SubsequenceBound(r: seq<Item>, list: seq<Item>, id: ObjectId)
    requires IsSubsequence(r, list) && LacksId(r, id)
    ensures |r| <= |list| - CountId(list, id)
    decreases |list|
  {
    if r != [] {
      if r[0] == list[0] && IsSubsequence(r[1..], list[1..]) {
        SubsequenceBound(r[1..], list[1..], id);
      } else {
        SubsequenceBound(r, list[1..], id);
      }
    } else {
      DismissLength(list, id);
    }
  }

  /** Dismiss is the ONLY order-preserving selection that drops exactly the
      items carrying `id`: any such `r` equals `Dismiss(list, id)`. */
  lemma {:induction false} DismissCharacterised(r: seq<Item>, list: seq<Item>, id: ObjectId)
    requires IsSubsequence(r, list)
    requires LacksId(r, id)
    requires |r| == |list| - CountId(list, id)
    ensures r == Dismiss(list, id)
    decreases |list|
  {
    if list == [] {
    } else if r == [] {
      DismissLength(list, id);
    } else {
      var h, t := list[0], list[1..];
      assert LacksId(r[1..], id) by {
        forall i | 0 <= i < |r[1..]| ensures r[1..][i].objectID != id {
          assert r[1..][i] == r[i + 1];
        }
      }
      if h.objectID == id {
        assert r[0] != h by { assert r[0].objectID != id; }
        DismissCharacterised(r, t, id);
      } else if r[0] == h && IsSubsequence(r[1..], t) {
        DismissCharacterised(r[1..], t, id);
        assert r == [h] + r[1..];
      } else {
        SubsequenceBound(r, t, id);
        assert false;
      }
    }
  }
}
