/** The favorites list (the value persisted under `mp_favs`) and the "favorites only" view. */
module Favorites {
  import opened Wrappers
  import opened Seqs
  import opened Tracks

  /** `favorites.filter(x => x !== id)`: drops every occurrence of `id`. */
  function Remove(favs: seq<string>, id: string): (r: seq<string>)
    ensures id !in r && |r| <= |favs|
  {
    Filter(favs, x => x != id)
  }

  /** The favorite toggle: remove a present id everywhere, append an absent one at the end. */
  function Toggle(favs: seq<string>, id: string): (r: seq<string>)
    ensures id in r <==> id !in favs
    ensures id !in favs ==> |r| == |favs| + 1
  {
    if id in favs then Remove(favs, id) else favs + [id]
  }

  /** Removal deletes every occurrence of `id` and keeps every other id, each as often as
      before and in the same relative order. */
  lemma RemoveSpec(favs: seq<string>, id: string)
    ensures id !in Remove(favs, id)
    ensures IsSubsequence(Remove(favs, id), favs)
    ensures multiset(Remove(favs, id)) == multiset(favs)[id := 0]
  {
    var p := x => x != id;
    FilterMembership(favs, p, id);
    FilterIsSubsequence(favs, p);
    forall x ensures multiset(Remove(favs, id))[x] == multiset(favs)[id := 0][x] {
      FilterMultiset(favs, p, x);
    }
  }

  /** Toggling flips the membership of `id` and leaves every other id's membership alone. */
  lemma ToggleFlips(favs: seq<string>, id: string)
    ensures (id in Toggle(favs, id)) <==> id !in favs
    ensures forall x :: x != id ==> (x in Toggle(favs, id) <==> x in favs)
  {
    forall x ensures x in Remove(favs, id) <==> x in favs && x != id {
      FilterMembership(favs, x => x != id, x);
    }
  }

  /** An absent id is appended at the end. */
  lemma ToggleAppends(favs: seq<string>, id: string)
    requires id !in favs
    ensures Toggle(favs, id) == favs + [id]
  {
  }

  /** Two toggles of an initially absent id give back the original list. */
  lemma ToggleTwiceAbsent(favs: seq<string>, id: string)
    requires id !in favs
    ensures Toggle(Toggle(favs, id), id) == favs
  {
    var p := x => x != id;
    FilterAppend(favs, [id], p);
    FilterKeepsAll(favs, p);
    assert Filter([id], p) == [];
  }

  /** Two toggles of a present id restore its membership, but the list loses any duplicates of
      it and `id` moves to the end. */
  lemma ToggleTwicePresent(favs: seq<string>, id: string)
    requires id in favs
    ensures Toggle(Toggle(favs, id), id) == Remove(favs, id) + [id]
  {
    RemoveSpec(favs, id);
  }

  predicate NoDuplicates(favs: seq<string>) {
    forall i, j :: 0 <= i < j < |favs| ==> favs[i] != favs[j]
  }

  /** The contains-check before `push` keeps a duplicate-free list duplicate-free. */
  lemma ToggleKeepsNoDuplicates(favs: seq<string>, id: string)
    requires NoDuplicates(favs)
    ensures NoDuplicates(Toggle(favs, id))
  {
    if id in favs {
      RemoveNoDuplicates(favs, id);
    }
  }

  lemma {:induction false} RemoveNoDuplicates(favs: seq<string>, id: string)
    requires NoDuplicates(favs)
    ensures NoDuplicates(Remove(favs, id))
  {
    if favs != [] {
      RemoveNoDuplicates(favs[1..], id);
      var rest := Remove(favs[1..], id);
      forall x | x in rest ensures x in favs[1..] {
        FilterMembership(favs[1..], y => y != id, x);
      }
      assert favs[0] !in favs[1..];
    }
  }

  /** `fetchFavsFromStored`: one metadata-free placeholder per stored id, in stored order. */
  function Placeholders(favs: seq<string>): (r: seq<Track>)
    ensures |r| == |favs|
    ensures forall i :: 0 <= i < |r| ==>
      && r[i].id == favs[i]
      && r[i].name == "Favorit (id:" + favs[i] + ")"
      && r[i].artists == [] && r[i].preview.None? && r[i].externalUrl == ""
  {
    seq(|favs|, i requires 0 <= i < |favs| =>
      Track(favs[i], "Favorit (id:" + favs[i] + ")", [], Some(Album([])), None, None, ""))
  }

  /** The current tracks whose id is a favorite, in their current order. */
  function Starred(current: seq<Track>, favs: seq<string>): (r: seq<Track>)
    ensures |r| <= |current|
    ensures forall i :: 0 <= i < |r| ==> r[i].id in favs
  {
    Filter(current, (t: Track) => t.id in favs)
  }

  /** What `showFavorites` displays: the starred current tracks; if there are none but ids are
      stored, their placeholders; otherwise nothing. Every record it shows carries a stored id,
      and it is empty exactly when no id is stored. */
  function FavoritesList(current: seq<Track>, favs: seq<string>): (r: seq<Track>)
    ensures forall i :: 0 <= i < |r| ==> r[i].id in favs
    ensures r == [] <==> favs == []
  {
    var starred := Starred(current, favs);
    assert starred != [] ==> starred[0].id in favs;
    if |starred| > 0 then starred else if |favs| > 0 then Placeholders(favs) else []
  }

  /** The starred tracks are exactly the current tracks with a favorite id, in their order. */
  lemma StarredSpec(current: seq<Track>, favs: seq<string>)
    ensures IsSubsequence(Starred(current, favs), current)
    ensures forall t :: t in Starred(current, favs) <==> t in current && t.id in favs
  {
    var p := (t: Track) => t.id in favs;
    FilterIsSubsequence(current, p);
    forall t ensures t in Starred(current, favs) <==> t in current && t.id in favs {
      FilterMembership(current, p, t);
    }
  }

  /** When some current track is a favorite, the view is exactly the starred tracks. */
  lemma FavoritesListMatched(current: seq<Track>, favs: seq<string>, k: int)
    requires 0 <= k < |current| && current[k].id in favs
    ensures FavoritesList(current, favs) == Starred(current, favs)
  {
    FilterMembership(current, (t: Track) => t.id in favs, current[k]);
  }

  /** When no current track is a favorite but ids are stored, the view synthesizes exactly one
      placeholder per stored id. */
  lemma FavoritesListFallsBack(current: seq<Track>, favs: seq<string>)
    requires forall i :: 0 <= i < |current| ==> current[i].id !in favs
    requires |favs| > 0
    ensures FavoritesList(current, favs) == Placeholders(favs)
  {
    var p := (t: Track) => t.id in favs;
    if |Starred(current, favs)| > 0 {
      var t := Starred(current, favs)[0];
      FilterMembership(current, p, t);
      assert false;
    }
  }

  /** With nothing stored, the favorites view is empty. */
  lemma FavoritesListNone(current: seq<Track>)
    ensures FavoritesList(current, []) == []
  {
    if |Starred(current, [])| > 0 {
      FilterMembership(current, (t: Track) => t.id in [], Starred(current, [])[0]);
      assert false;
    }
  }
}
