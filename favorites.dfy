/**
 * The favorites list: an ordered list of recipe ids. Adding appends an id
 * that is not yet there; removing deletes the first occurrence of an id that
 * is there. These functions give the list each operation leaves behind.
 */
module Favorites {
  import opened Lists

  /** The list after adding `id`: appended at the end if absent, untouched otherwise. */
  function WithFavorite(favorites: seq<string>, id: string): seq<string> {
    if id in favorites then favorites else favorites + [id]
  }

  /** The list after removing `id`: its first occurrence deleted if present, untouched otherwise. */
  function WithoutFavorite(favorites: seq<string>, id: string): seq<string> {
    if id in favorites then RemoveFirst(favorites, id) else favorites
  }

  /** After adding, `id` is a favorite, and the others are exactly the old ones. */
  lemma AddFavoriteMembers(favorites: seq<string>, id: string)
    ensures forall x :: x in WithFavorite(favorites, id) <==> x in favorites || x == id
  {
  }

  /** Adding twice is adding once. */
  lemma AddFavoriteIdempotent(favorites: seq<string>, id: string)
    ensures WithFavorite(WithFavorite(favorites, id), id) == WithFavorite(favorites, id)
  {
  }

  /** Adding keeps a duplicate-free list duplicate-free. */
  lemma AddFavoriteNoDuplicates(favorites: seq<string>, id: string)
    requires NoDuplicates(favorites)
    ensures NoDuplicates(WithFavorite(favorites, id))
  {
    var r := WithFavorite(favorites, id);
    if id !in favorites {
      forall i, j | 0 <= i < j < |r| ensures r[i] != r[j] {
        if j == |favorites| {
          assert r[i] in favorites;
        }
      }
    }
  }

  /**
   * Removing from a duplicate-free list takes `id` out, keeps every other id
   * in its relative order, and keeps the list duplicate-free.
   */
  lemma RemoveFavoriteEffect(favorites: seq<string>, id: string)
    requires NoDuplicates(favorites)
    ensures id !in WithoutFavorite(favorites, id)
    ensures forall x :: x != id ==> (x in WithoutFavorite(favorites, id) <==> x in favorites)
    ensures IsSubsequence(WithoutFavorite(favorites, id), favorites)
    ensures NoDuplicates(WithoutFavorite(favorites, id))
  {
    if id in favorites {
      RemoveFirstNoDuplicates(favorites, id);
      RemoveFirstSubsequence(favorites, id);
      RemoveFirstMultiset(favorites, id);
      forall x | x != id ensures x in RemoveFirst(favorites, id) <==> x in favorites {
        assert x in multiset(RemoveFirst(favorites, id)) <==> x in multiset(favorites);
      }
    } else {
      SubsequenceRefl(favorites);
    }
  }

  /** Removing an id that was just added gives the list back. */
  lemma AddThenRemove(favorites: seq<string>, id: string)
    requires id !in favorites
    ensures WithoutFavorite(WithFavorite(favorites, id), id) == favorites
  {
    var added := favorites + [id];
    assert FirstIndex(added, id) == |favorites|;
    assert added[..|favorites|] == favorites;
  }

  /** Re-adding an id just removed gives the same ids, with that id moved to the end. */
  lemma RemoveThenAdd(favorites: seq<string>, id: string)
    requires id in favorites && NoDuplicates(favorites)
    ensures WithFavorite(WithoutFavorite(favorites, id), id) == RemoveFirst(favorites, id) + [id]
    ensures multiset(WithFavorite(WithoutFavorite(favorites, id), id)) == multiset(favorites)
  {
    RemoveFirstNoDuplicates(favorites, id);
    RemoveFirstMultiset(favorites, id);
  }
}
