/** The saved-idea list (src/App.js, `saveIdea`, `removeSavedIdea`,
    `isIdeaSaved`, the star button's click handler and the load on mount).
    The list is ordered newest first. Ids and timestamps come from the clock
    and the random source in the source; here they are parameters. */
module SavedStore {
  import opened Options
  import opened Seqs
  import opened Categories
  import opened Fetcher

  /** `Date.now() + Math.random()` in the source; an opaque number here. */
  type Id = int

  /** An idea with the id and ISO timestamp it was saved with. */
  datatype SavedIdea = SavedIdea(id: Id, savedAt: string, category: Category, name: string, description: string)

  /** Identity for the saved check: the (name, description, category) triple,
      never the id. */
  predicate SameIdea(s: SavedIdea, idea: Idea)
  {
    s.name == idea.name && s.description == idea.description && s.category == idea.category
  }

  /** The idea a saved entry was made from. */
  function IdeaOf(s: SavedIdea): (idea: Idea)
    ensures SameIdea(s, idea)
  {
    Idea(s.category, s.name, s.description)
  }

  /** No two entries share a triple. */
  predicate TriplesUnique(store: seq<SavedIdea>)
  {
    forall i, j :: 0 <= i < j < |store| ==> !SameIdea(store[j], IdeaOf(store[i]))
  }

  /** No two entries share an id. */
  predicate IdsUnique(store: seq<SavedIdea>)
  {
    forall i, j :: 0 <= i < j < |store| ==> store[i].id != store[j].id
  }

  /** `id` is not yet used by any entry. */
  predicate FreshId(store: seq<SavedIdea>, id: Id)
  {
    forall k :: 0 <= k < |store| ==> store[k].id != id
  }

  /** `savedIdeas.some(...)`: scans from the front for an entry with the same
      triple. True exactly when such an entry exists. */
  function IsIdeaSaved(store: seq<SavedIdea>, idea: Idea): (b: bool)
    ensures b <==> exists k :: 0 <= k < |store| && SameIdea(store[k], idea)
    decreases |store|
  {
    if store == [] then false
    else if SameIdea(store[0], idea) then true
    else
      var rest := IsIdeaSaved(store[1..], idea);
      assert rest ==> exists k :: 0 <= k < |store| && SameIdea(store[k], idea) by {
        if rest {
          var k :| 0 <= k < |store[1..]| && SameIdea(store[1..][k], idea);
          assert store[k + 1] == store[1..][k];
        }
      }
      rest
  }

  /** `saveIdea`: prepend the idea with its id and timestamp. The rest of the
      list is untouched, and no duplicate check is made here. */
  function SaveIdea(store: seq<SavedIdea>, idea: Idea, id: Id, savedAt: string): (r: seq<SavedIdea>)
    ensures |r| == |store| + 1
    ensures r[1..] == store
    ensures SameIdea(r[0], idea) && r[0].id == id && r[0].savedAt == savedAt
  {
    [SavedIdea(id, savedAt, idea.category, idea.name, idea.description)] + store
  }

  /** `removeSavedIdea`: `filter` on the id. No entry with that id is left, every
      other entry is kept with its multiplicity and in its original order. */
  function RemoveSavedIdea(store: seq<SavedIdea>, id: Id): (r: seq<SavedIdea>)
    ensures forall k :: 0 <= k < |r| ==> r[k].id != id
    ensures forall e :: multiset(r)[e] == if e.id == id then 0 else multiset(store)[e]
    ensures Subseq(r, store)
    decreases |store|
  {
    if store == [] then []
    else
      var rest := RemoveSavedIdea(store[1..], id);
      assert store == [store[0]] + store[1..];
      if store[0].id == id then rest else [store[0]] + rest
  }

  /** The star button's click handler: save only when the triple is not saved
      yet. Afterwards the idea is saved, the list grows by at most one, and the
      list's uniqueness invariants survive (the id one when the id is fresh). */
  function ClickStar(store: seq<SavedIdea>, idea: Idea, id: Id, savedAt: string): (r: seq<SavedIdea>)
    ensures IsIdeaSaved(r, idea)
    ensures IsIdeaSaved(store, idea) ==> r == store
    ensures !IsIdeaSaved(store, idea) ==> r[1..] == store && SameIdea(r[0], idea) && r[0].id == id
    ensures TriplesUnique(store) ==> TriplesUnique(r)
    ensures IdsUnique(store) && FreshId(store, id) ==> IdsUnique(r)
  {
    if IsIdeaSaved(store, idea) then store else SaveIdea(store, idea, id, savedAt)
  }

  /** One press of a star button: the idea shown and the id and timestamp the
      clock would supply. */
  datatype Click = Click(idea: Idea, id: Id, savedAt: string)

  /** A sequence of presses, applied in order. */
  function ApplyClicks(store: seq<SavedIdea>, clicks: seq<Click>): seq<SavedIdea>
    decreases |clicks|
  {
    if clicks == [] then store
    else ApplyClicks(ClickStar(store, clicks[0].idea, clicks[0].id, clicks[0].savedAt), clicks[1..])
  }

  /** Whatever the presses, a list without duplicate triples keeps none. */
  lemma {:induction false} ClicksKeepTriplesUnique(store: seq<SavedIdea>, clicks: seq<Click>)
    requires TriplesUnique(store)
    ensures TriplesUnique(ApplyClicks(store, clicks))
    decreases |clicks|
  {
    if clicks != [] {
      var c := clicks[0];
      ClicksKeepTriplesUnique(ClickStar(store, c.idea, c.id, c.savedAt), clicks[1..]);
    }
  }

  /** Pressing the star of the same idea any number of times saves it at most
      once: the list ends as it was, or with exactly one new head from the
      first press. */
  lemma {:induction false} RepeatedClicksSaveOnce(store: seq<SavedIdea>, clicks: seq<Click>)
    requires forall k :: 0 <= k < |clicks| ==> clicks[k].idea == clicks[0].idea
    ensures clicks == [] || IsIdeaSaved(store, clicks[0].idea) ==> ApplyClicks(store, clicks) == store
    ensures clicks != [] && !IsIdeaSaved(store, clicks[0].idea) ==>
              ApplyClicks(store, clicks) == SaveIdea(store, clicks[0].idea, clicks[0].id, clicks[0].savedAt)
    decreases |clicks|
  {
    if clicks != [] {
      var c := clicks[0];
      var next := ClickStar(store, c.idea, c.id, c.savedAt);
      AlreadySavedClicksNoop(next, c.idea, clicks[1..]);
    }
  }

  /** Presses of an idea that is already saved change nothing. */
  lemma {:induction false} AlreadySavedClicksNoop(store: seq<SavedIdea>, idea: Idea, clicks: seq<Click>)
    requires IsIdeaSaved(store, idea)
    requires forall k :: 0 <= k < |clicks| ==> clicks[k].idea == idea
    ensures ApplyClicks(store, clicks) == store
    decreases |clicks|
  {
    if clicks != [] {
      AlreadySavedClicksNoop(store, idea, clicks[1..]);
    }
  }

  /** Saving straight after the check is what makes the idea saved. */
  lemma SavedAfterSave(store: seq<SavedIdea>, idea: Idea, id: Id, savedAt: string)
    ensures IsIdeaSaved(SaveIdea(store, idea, id, savedAt), idea)
  {
  }

  /** `saveIdea` alone does not deduplicate: saving a saved idea again leaves
      two entries with its triple. */
  lemma SaveAloneDuplicates(store: seq<SavedIdea>, idea: Idea, id: Id, savedAt: string)
    requires IsIdeaSaved(store, idea)
    ensures !TriplesUnique(SaveIdea(store, idea, id, savedAt))
  {
  }

  /** Removing an id that is not in the list changes nothing. */
  lemma {:induction false} RemoveAbsentIsNoop(store: seq<SavedIdea>, id: Id)
    requires FreshId(store, id)
    ensures RemoveSavedIdea(store, id) == store
    decreases |store|
  {
    if store != [] {
      RemoveAbsentIsNoop(store[1..], id);
    }
  }

  /** Saving with a fresh id and then removing that id gives back the list. */
  lemma {:induction false} RemoveUndoesSave(store: seq<SavedIdea>, idea: Idea, id: Id, savedAt: string)
    requires FreshId(store, id)
    ensures RemoveSavedIdea(SaveIdea(store, idea, id, savedAt), id) == store
  {
    RemoveAbsentIsNoop(store, id);
    assert SaveIdea(store, idea, id, savedAt)[1..] == store;
  }

  /** With unique ids, removing a present id shrinks the list by exactly one. */
  lemma {:induction false} RemovePresentShrinksByOne(store: seq<SavedIdea>, id: Id)
    requires IdsUnique(store)
    requires !FreshId(store, id)
    ensures |RemoveSavedIdea(store, id)| == |store| - 1
    decreases |store|
  {
    assert store != [];
    if store[0].id == id {
      assert FreshId(store[1..], id) by {
        forall k | 0 <= k < |store[1..]| ensures store[1..][k].id != id {
          assert store[1..][k] == store[k + 1];
        }
      }
      RemoveAbsentIsNoop(store[1..], id);
    } else {
      var k :| 0 <= k < |store| && store[k].id == id;
      assert store[1..][k - 1] == store[k];
      assert IdsUnique(store[1..]) by {
        forall i, j | 0 <= i < j < |store[1..]| ensures store[1..][i].id != store[1..][j].id {
          assert store[1..][i] == store[i + 1] && store[1..][j] == store[j + 1];
        }
      }
      RemovePresentShrinksByOne(store[1..], id);
    }
  }

  /** In a list without duplicate triples, unstarring an entry makes its idea
      unsaved. */
  lemma RemoveUnsaves(store: seq<SavedIdea>, k: nat)
    requires k < |store|
    requires TriplesUnique(store)
    ensures !IsIdeaSaved(RemoveSavedIdea(store, store[k].id), IdeaOf(store[k]))
  {
    var id := store[k].id;
    var r := RemoveSavedIdea(store, id);
    forall j | 0 <= j < |r| ensures !SameIdea(r[j], IdeaOf(store[k])) {
      assert r[j] in multiset(r);
      assert r[j] in multiset(store);
      var m :| 0 <= m < |store| && store[m] == r[j];
      if m != k {
        if m < k {
          assert !SameIdea(store[k], IdeaOf(store[m]));
        } else {
          assert !SameIdea(store[m], IdeaOf(store[k]));
        }
      }
    }
  }

  /** Removal keeps both uniqueness invariants. */
  lemma {:induction false} RemoveKeepsInvariants(store: seq<SavedIdea>, id: Id)
    requires TriplesUnique(store) && IdsUnique(store)
    ensures TriplesUnique(RemoveSavedIdea(store, id)) && IdsUnique(RemoveSavedIdea(store, id))
  {
    SubseqKeepsUnique(RemoveSavedIdea(store, id), store);
  }

  /** Any subsequence of a list with unique triples and ids has them too. */
  lemma {:induction false} SubseqKeepsUnique(a: seq<SavedIdea>, b: seq<SavedIdea>)
    requires Subseq(a, b)
    requires TriplesUnique(b) && IdsUnique(b)
    ensures TriplesUnique(a) && IdsUnique(a)
    decreases |b|
  {
    if a != [] {
      assert TriplesUnique(b[1..]) && IdsUnique(b[1..]) by {
        forall i, j | 0 <= i < j < |b[1..]|
          ensures !SameIdea(b[1..][j], IdeaOf(b[1..][i])) && b[1..][i].id != b[1..][j].id
        {
          assert b[1..][i] == b[i + 1] && b[1..][j] == b[j + 1];
        }
      }
      if a[0] == b[0] {
        SubseqKeepsUnique(a[1..], b[1..]);
        SubseqMembers(a[1..], b[1..]);
        forall j | 0 < j < |a| ensures !SameIdea(a[j], IdeaOf(a[0])) && a[0].id != a[j].id {
          assert a[j] == a[1..][j - 1];
          assert a[j] in a[1..];
          var m :| 0 <= m < |b[1..]| && b[1..][m] == a[j];
          assert b[m + 1] == a[j];
        }
        assert TriplesUnique(a) by {
          forall i, j | 0 <= i < j < |a| ensures !SameIdea(a[j], IdeaOf(a[i])) {
            if i > 0 {
              assert a[i] == a[1..][i - 1] && a[j] == a[1..][j - 1];
            }
          }
        }
        assert IdsUnique(a) by {
          forall i, j | 0 <= i < j < |a| ensures a[i].id != a[j].id {
            if i > 0 {
              assert a[i] == a[1..][i - 1] && a[j] == a[1..][j - 1];
            }
          }
        }
      } else {
        SubseqKeepsUnique(a, b[1..]);
      }
    }
  }

  /** Every entry of a subsequence is an entry of the longer list. */
  lemma {:induction false} SubseqMembers<T>(a: seq<T>, b: seq<T>)
    requires Subseq(a, b)
    ensures forall x :: x in a ==> x in b
    decreases |b|
  {
    if a != [] {
      if a[0] == b[0] {
        SubseqMembers(a[1..], b[1..]);
        forall x | x in a ensures x in b {
          if x != a[0] {
            assert x in a[1..];
          }
        }
      } else {
        SubseqMembers(a, b[1..]);
      }
    }
  }

  /** What the parser made of the stored string. */
  datatype ParseResult = Parsed(ideas: seq<SavedIdea>) | ParseError

  /** The load on mount: a missing or empty stored value leaves the list
      empty; an unparsable one is logged and also gives the empty list; a
      parsed one becomes the list as it is (duplicates included). */
  function Load(stored: Option<string>, parse: string -> ParseResult): (r: seq<SavedIdea>)
    ensures !Truthy(stored) ==> r == []
    ensures Truthy(stored) && parse(stored.value).ParseError? ==> r == []
    ensures Truthy(stored) && parse(stored.value).Parsed? ==> r == parse(stored.value).ideas
  {
    if !Truthy(stored) then []
    else
      match parse(stored.value)
      case Parsed(ideas) => ideas
      case ParseError => []
  }
}
