/**
  The collections assigned to the current target: the add and remove bulk
  actions of the collections tab, the "already assigned" mark of the catalog
  table, and the catalog rows built from a fetched page.
 */
module AssignmentList {
  import opened Optional
  import opened Seqs
  import opened Items

  /** The `collectionId` of every element, in order. */
  function Ids(s: seq<Collection>): (r: seq<string>)
    ensures |r| == |s|
    ensures forall i :: 0 <= i < |s| ==> r[i] == s[i].collectionId
  {
    seq(|s|, i requires 0 <= i < |s| => s[i].collectionId)
  }

  /** `s.some(c => c.collectionId === id)` */
  predicate HasCollectionId(s: seq<Collection>, id: string) {
    id in Ids(s)
  }

  /** No two elements share a `collectionId`. */
  ghost predicate UniqueIds(s: seq<Collection>) {
    forall i, j :: 0 <= i < j < |s| ==> s[i].collectionId != s[j].collectionId
  }

  lemma HasCollectionIdIff(s: seq<Collection>, id: string)
    ensures HasCollectionId(s, id) <==> exists c :: c in s && c.collectionId == id
  {
    if HasCollectionId(s, id) {
      var i :| 0 <= i < |s| && Ids(s)[i] == id;
      assert s[i] in s;
    }
  }

  lemma IdsConcat(a: seq<Collection>, b: seq<Collection>)
    ensures Ids(a + b) == Ids(a) + Ids(b)
  {
  }

  /**
    The remove bulk action: the state without every collection whose id is
    among the selected rows' ids, the rest kept in order.
   */
  function RemoveCollections(state: seq<Collection>, selectedRows: seq<Collection>): (r: seq<Collection>)
    ensures forall c :: c in r <==> c in state && !HasCollectionId(selectedRows, c.collectionId)
    ensures forall c :: multiset(r)[c] == if HasCollectionId(selectedRows, c.collectionId) then 0 else multiset(state)[c]
    ensures IsSubseq(r, state)
    ensures selectedRows == [] ==> r == state
  {
    var collectionsToRemove := Ids(selectedRows);
    var keep := (c: Collection) => c.collectionId !in collectionsToRemove;
    FilterMembership(state, keep);
    FilterMultiset(state, keep);
    FilterIsSubseq(state, keep);
    FilterKeepsAll(state, keep);
    Filter(state, keep)
  }

  /**
    The add bulk action: the state unchanged as a prefix, followed by the
    selected rows whose id the state does not already hold, in selection order.
    Membership is checked against the state as it was before the call.
   */
  function AddCollections(state: seq<Collection>, selectedRows: seq<Collection>): (r: seq<Collection>)
    ensures |state| <= |r| && r[..|state|] == state
    ensures forall c :: c in r[|state|..] <==> c in selectedRows && !HasCollectionId(state, c.collectionId)
    ensures forall c :: multiset(r[|state|..])[c] == if HasCollectionId(state, c.collectionId) then 0 else multiset(selectedRows)[c]
    ensures IsSubseq(r[|state|..], selectedRows)
    ensures forall row :: row in selectedRows ==> HasCollectionId(r, row.collectionId)
    ensures selectedRows == [] ==> r == state
  {
    var isNew := (row: Collection) => !HasCollectionId(state, row.collectionId);
    var newCollections := Filter(selectedRows, isNew);
    var r := state + newCollections;
    assert r[|state|..] == newCollections;
    assert forall c :: c in newCollections <==> c in selectedRows && isNew(c) by {
      FilterMembership(selectedRows, isNew);
    }
    assert forall c :: multiset(newCollections)[c] == if isNew(c) then multiset(selectedRows)[c] else 0 by {
      FilterMultiset(selectedRows, isNew);
    }
    assert IsSubseq(newCollections, selectedRows) by {
      FilterIsSubseq(selectedRows, isNew);
    }
    assert forall row :: row in selectedRows ==> HasCollectionId(r, row.collectionId) by {
      AddedIdsPresent(state, selectedRows, newCollections);
    }
    r
  }

  /** Every selected id is in the state or among the appended rows, so in the result. */
  lemma AddedIdsPresent(state: seq<Collection>, selectedRows: seq<Collection>, newCollections: seq<Collection>)
    requires forall c :: c in newCollections <==> c in selectedRows && !HasCollectionId(state, c.collectionId)
    ensures forall row :: row in selectedRows ==> HasCollectionId(state + newCollections, row.collectionId)
  {
    IdsConcat(state, newCollections);
    forall row | row in selectedRows ensures HasCollectionId(state + newCollections, row.collectionId) {
      if !HasCollectionId(state, row.collectionId) {
        HasCollectionIdIff(newCollections, row.collectionId);
      }
    }
  }

  /** Adding the same selection a second time changes nothing. */
  lemma {:induction false} AddIdempotent(state: seq<Collection>, selectedRows: seq<Collection>)
    ensures AddCollections(AddCollections(state, selectedRows), selectedRows) == AddCollections(state, selectedRows)
  {
    var once := AddCollections(state, selectedRows);
    var isNew := (row: Collection) => !HasCollectionId(once, row.collectionId);
    FilterKeepsNone(selectedRows, isNew);
    assert forall i :: 0 <= i < |selectedRows| ==> !isNew(selectedRows[i]) by {
      forall i | 0 <= i < |selectedRows| ensures !isNew(selectedRows[i]) {
        assert selectedRows[i] in selectedRows;
      }
    }
    assert once + [] == once;
  }

  lemma {:induction false} FilterKeepsUniqueIds(s: seq<Collection>, keep: Collection -> bool)
    requires UniqueIds(s)
    ensures UniqueIds(Filter(s, keep))
    decreases |s|
  {
    if |s| > 0 {
      assert UniqueIds(s[1..]) by {
        forall i, j | 0 <= i < j < |s[1..]| ensures s[1..][i].collectionId != s[1..][j].collectionId {
          assert s[1..][i] == s[i + 1] && s[1..][j] == s[j + 1];
        }
      }
      FilterKeepsUniqueIds(s[1..], keep);
      if keep(s[0]) {
        var rest := Filter(s[1..], keep);
        FilterMembership(s[1..], keep);
        forall j | 0 <= j < |rest| ensures rest[j].collectionId != s[0].collectionId {
          assert rest[j] in rest;
          var k :| 0 <= k < |s[1..]| && s[1..][k] == rest[j];
          assert s[k + 1] == rest[j];
        }
      }
    }
  }

  /**
    A duplicate-free state stays duplicate-free when the selected rows carry
    pairwise-distinct ids.
   */
  lemma AddKeepsUniqueIds(state: seq<Collection>, selectedRows: seq<Collection>)
    requires UniqueIds(state)
    requires UniqueIds(selectedRows)
    ensures UniqueIds(AddCollections(state, selectedRows))
  {
    var r := AddCollections(state, selectedRows);
    var isNew := (row: Collection) => !HasCollectionId(state, row.collectionId);
    var added := Filter(selectedRows, isNew);
    FilterKeepsUniqueIds(selectedRows, isNew);
    FilterMembership(selectedRows, isNew);
    assert r == state + added;
    forall i, j | 0 <= i < j < |r| ensures r[i].collectionId != r[j].collectionId {
      if j >= |state| && i < |state| {
        assert r[j] == added[j - |state|];
        assert added[j - |state|] in added;
        assert Ids(state)[i] == r[i].collectionId;
      } else if j >= |state| {
        assert r[i] == added[i - |state|] && r[j] == added[j - |state|];
      }
    }
  }

  /** Removing a selection after adding it leaves what removing it from the original state leaves. */
  lemma RemoveAfterAdd(state: seq<Collection>, selectedRows: seq<Collection>)
    ensures RemoveCollections(AddCollections(state, selectedRows), selectedRows) == RemoveCollections(state, selectedRows)
  {
    var isNew := (row: Collection) => !HasCollectionId(state, row.collectionId);
    var added := Filter(selectedRows, isNew);
    var toRemove := Ids(selectedRows);
    var keep := (c: Collection) => c.collectionId !in toRemove;
    FilterConcat(state, added, keep);
    FilterMembership(selectedRows, isNew);
    forall i | 0 <= i < |added| ensures !keep(added[i]) {
      assert added[i] in added;
      HasCollectionIdIff(selectedRows, added[i].collectionId);
    }
    FilterKeepsNone(added, keep);
    assert AddCollections(state, selectedRows) == state + added;
  }

  /** When no selected id was already assigned, remove exactly undoes add. */
  lemma RemoveUndoesAdd(state: seq<Collection>, selectedRows: seq<Collection>)
    requires forall row :: row in selectedRows ==> !HasCollectionId(state, row.collectionId)
    ensures RemoveCollections(AddCollections(state, selectedRows), selectedRows) == state
  {
    RemoveAfterAdd(state, selectedRows);
    var toRemove := Ids(selectedRows);
    var keep := (c: Collection) => c.collectionId !in toRemove;
    forall i | 0 <= i < |state| ensures keep(state[i]) {
      assert Ids(state)[i] == state[i].collectionId;
      HasCollectionIdIff(selectedRows, state[i].collectionId);
    }
    FilterKeepsAll(state, keep);
  }

  /** Removing the same selection a second time changes nothing. */
  lemma RemoveIdempotent(state: seq<Collection>, selectedRows: seq<Collection>)
    ensures RemoveCollections(RemoveCollections(state, selectedRows), selectedRows) == RemoveCollections(state, selectedRows)
  {
    var once := RemoveCollections(state, selectedRows);
    var toRemove := Ids(selectedRows);
    var keep := (c: Collection) => c.collectionId !in toRemove;
    forall i | 0 <= i < |once| ensures keep(once[i]) {
      assert once[i] in once;
    }
    FilterKeepsAll(once, keep);
  }

  /**
    The catalog table's mark: a row counts as assigned when some assigned
    collection has the same name (names, not ids, are compared here).
   */
  function IsCollectionAssigned(state: seq<Collection>, name: string): (r: bool)
    ensures r <==> exists c :: c in state && c.name == name
  {
    exists i :: 0 <= i < |state| && state[i].name == name
  }

  /**
    After adding, every selected row is marked assigned in the catalog, provided
    an already assigned collection with a selected row's id also has its name.
   */
  lemma AddedRowsShowAssigned(state: seq<Collection>, selectedRows: seq<Collection>)
    requires forall c, row :: c in state && row in selectedRows && c.collectionId == row.collectionId ==> c.name == row.name
    ensures forall row :: row in selectedRows ==> IsCollectionAssigned(AddCollections(state, selectedRows), row.name)
  {
    var r := AddCollections(state, selectedRows);
    forall row | row in selectedRows ensures IsCollectionAssigned(r, row.name) {
      if HasCollectionId(state, row.collectionId) {
        var i :| 0 <= i < |state| && Ids(state)[i] == row.collectionId;
        assert state[i] in state;
        assert r[i] == state[i];
      } else {
        assert row in r[|state|..];
        var k :| 0 <= k < |r[|state|..]| && r[|state|..][k] == row;
        assert r[|state| + k] == row;
      }
    }
  }

  /** Removing never marks a catalog row assigned that was not marked before. */
  lemma RemoveOnlyUnmarks(state: seq<Collection>, selectedRows: seq<Collection>, name: string)
    ensures IsCollectionAssigned(RemoveCollections(state, selectedRows), name) ==> IsCollectionAssigned(state, name)
  {
    var r := RemoveCollections(state, selectedRows);
    if IsCollectionAssigned(r, name) {
      var i :| 0 <= i < |r| && r[i].name == name;
      assert r[i] in r;
      var k :| 0 <= k < |state| && state[k] == r[i];
    }
  }

  /**
    The catalog rows of the available table: a fetched page with at least one
    item replaces them (renamed to `collectionId`); an absent or empty page
    leaves the previous rows in place.
   */
  function CatalogRows(items: Option<seq<NamedRef>>, previous: seq<Collection>): (r: seq<Collection>)
    ensures items.None? || |items.value| == 0 ==> r == previous
    ensures items.Some? && |items.value| > 0 ==> SaveCollections(r) == items.value
  {
    if items.None? || |items.value| == 0 then previous
    else
      CollectionsRoundTrip(items.value);
      LoadCollections(items.value)
  }
}
