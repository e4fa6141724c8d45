/** Snapshot retention of `useEnsuredStore`: the hook keeps the last store snapshot that
    had a name in a ref, so that a deleted store still renders from its last good data
    while being flagged as deleted. The ref outlives renders; the flag does not. */
module Retention {
  import opened JsUtil
  import opened Stores

  /** What one render of the hook yields: the retained store and the deletion flag, or
      the "Store not found" error when nothing was ever retained. */
  datatype Ensured = Ensured(store: Store, isDeleted: bool) | NotFound(message: string)

  /** `storeData && storeData.name`: a snapshot that exists and has a non-empty name. */
  predicate IsLive(snapshot: Option<Store>) {
    snapshot.Some? && snapshot.value.name != ""
  }

  /** The ref after one render: a live snapshot replaces it, anything else keeps it. */
  function NextRetained(retained: Option<Store>, snapshot: Option<Store>): (r: Option<Store>)
    ensures IsLive(snapshot) ==> r == snapshot
    ensures !IsLive(snapshot) ==> r == retained
  {
    if IsLive(snapshot) then snapshot else retained
  }

  /** What the render returns once the ref is `retained` and the snapshot was `snapshot`. */
  function RenderResult(retained: Option<Store>, snapshot: Option<Store>): (e: Ensured)
    ensures e.NotFound? <==> retained.None?
    ensures e.NotFound? ==> e.message == "Store not found"
    ensures e.Ensured? ==> e.store == retained.value && (e.isDeleted <==> !IsLive(snapshot))
  {
    if retained.None? then NotFound("Store not found") else Ensured(retained.value, !IsLive(snapshot))
  }

  /** The ref held across renders. `useRef(storeData)` seeds it with the FIRST snapshot,
      whether or not that snapshot has a name; later snapshots replace it only when live. */
  class EnsuredStore {
    var current: Option<Store>

    constructor (first: Option<Store>)
      ensures current == first
    {
      current := first;
    }

    /** One render with the latest snapshot. */
    method Render(snapshot: Option<Store>) returns (e: Ensured)
      modifies this
      ensures current == NextRetained(old(current), snapshot)
      ensures e == RenderResult(current, snapshot)
    {
      var isDeleted := false;
      if snapshot.Some? && snapshot.value.name != "" {
        current := snapshot;
      } else {
        isDeleted := true;
      }
      if current.None? {
        return NotFound("Store not found");
      }
      return Ensured(current.value, isDeleted);
    }
  }

  /** The ref after a series of renders, starting from `initial`. */
  function RetainedAfter(initial: Option<Store>, snapshots: seq<Option<Store>>): Option<Store>
    decreases |snapshots|
  {
    if snapshots == [] then initial
    else NextRetained(RetainedAfter(initial, snapshots[..|snapshots| - 1]), snapshots[|snapshots| - 1])
  }

  /** The last live snapshot of a series, if any. */
  function LastLive(snapshots: seq<Option<Store>>): (r: Option<Store>)
    ensures r.Some? ==> r in snapshots && IsLive(r)
    ensures r.Some? ==> exists k :: (0 <= k < |snapshots| && snapshots[k] == r &&
      forall j :: k < j < |snapshots| ==> !IsLive(snapshots[j]))
    ensures r.None? <==> forall i :: 0 <= i < |snapshots| ==> !IsLive(snapshots[i])
    decreases |snapshots|
  {
    if snapshots == [] then None
    else if IsLive(snapshots[|snapshots| - 1]) then snapshots[|snapshots| - 1]
    else
      var init := snapshots[..|snapshots| - 1];
      assert forall i :: 0 <= i < |init| ==> init[i] == snapshots[i];
      LastLive(init)
  }

  /** After any series of renders the ref holds the last live snapshot, or the seed when
      there was none: the last good data is kept, never a later nameless one. */
  lemma {:induction false} RetainedIsLastLive(initial: Option<Store>, snapshots: seq<Option<Store>>)
    ensures LastLive(snapshots).Some? ==> RetainedAfter(initial, snapshots) == LastLive(snapshots)
    ensures LastLive(snapshots).None? ==> RetainedAfter(initial, snapshots) == initial
    decreases |snapshots|
  {
    if snapshots != [] {
      RetainedIsLastLive(initial, snapshots[..|snapshots| - 1]);
    }
  }

  /** "Store not found" is raised exactly when the seed was empty and no snapshot so far
      was live; once a store has been retained, later renders never fail. */
  lemma NotFoundOnlyIfNeverRetained(initial: Option<Store>, snapshots: seq<Option<Store>>, latest: Option<Store>)
    ensures RenderResult(RetainedAfter(initial, snapshots + [latest]), latest).NotFound? <==>
      initial.None? && forall i :: 0 <= i < |snapshots + [latest]| ==> !IsLive((snapshots + [latest])[i])
  {
    RetainedIsLastLive(initial, snapshots + [latest]);
  }

  /** A store created with a whitespace-only name is stored with the empty name, so
      every snapshot of it reads as deleted. */
  lemma BlankNamedStoreReadsDeleted(data: NewStoreData, user: Viewer, docId: string)
    requires forall k :: 0 <= k < |data.name| ==> IsJsWhitespace(data.name[k])
    ensures !IsLive(Some(NewStore(data, user, docId)))
  {
    var s := NewStore(data, user, docId);
    assert s.name == [] by {
      if s.name != [] {
        assert false;
      }
    }
  }
}
