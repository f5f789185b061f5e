/** The planner's key arrays: swap-and-pop arrays with a reverse index that refine the summary's sets. */
module PlannerKeys {
  import opened Torus

  /** One key array and its reverse index. */
  class KeyArray {
    var keys: seq<Pos>
    var positionOf: map<Pos, nat>

    constructor ()
      ensures Valid() && Members() == {}
    {
      keys, positionOf := [], map[];
    }

    /** The reverse index is the exact inverse of the array, so the array has no duplicates. */
    ghost predicate Valid()
      reads this
    {
      && (forall k | k in positionOf :: positionOf[k] < |keys| && keys[positionOf[k]] == k)
      && (forall i | 0 <= i < |keys| :: keys[i] in positionOf && positionOf[keys[i]] == i)
    }

    ghost function Members(): set<Pos>
      reads this
    {
      set k | k in keys
    }

    lemma NoDuplicates()
      requires Valid()
      ensures forall i, j | 0 <= i < j < |keys| :: keys[i] != keys[j]
      ensures |Members()| == |keys| && Members() == positionOf.Keys
    {
      forall i, j | 0 <= i < j < |keys| ensures keys[i] != keys[j] {
        assert positionOf[keys[i]] == i && positionOf[keys[j]] == j;
      }
      assert forall k :: k in Members() <==> k in positionOf;
      DistinctSize(keys);
    }

    method Add(key: Pos)
      requires Valid()
      modifies this
      ensures Valid() && Members() == old(Members()) + {key}
    {
      if key in positionOf {
        return;
      }
      positionOf := positionOf[key := |keys|];
      keys := keys + [key];
    }

    /** Moves the last key into the gap; the order of the array is not kept. */
    method Remove(key: Pos)
      requires Valid()
      modifies this
      ensures Valid() && Members() == old(Members()) - {key}
    {
      if key !in positionOf {
        assert key !in Members();
        return;
      }
      var idx, lastIdx := positionOf[key], |keys| - 1;
      ghost var was := keys;
      if idx != lastIdx {
        var lastKey := keys[lastIdx];
        keys := keys[idx := lastKey];
        positionOf := positionOf[lastKey := idx];
      }
      keys := keys[..lastIdx];
      positionOf := positionOf - {key};
      forall k ensures k in keys <==> k in was && k != key {
        if k in was && k != key {
          var i :| 0 <= i < |was| && was[i] == k;
          assert keys[if i == lastIdx then idx else i] == k;
        }
      }
    }

    method ResetFrom(source: set<Pos>)
      modifies this
      ensures Valid() && Members() == source
    {
      keys, positionOf := [], map[];
      var rest := source;
      while rest != {}
        invariant Valid() && rest <= source && Members() == source - rest
        decreases rest
      {
        var key :| key in rest;
        assert key !in Members();
        assert key !in keys;
        ghost var was, members := keys, Members();
        positionOf := positionOf[key := |keys|];
        keys := keys + [key];
        assert forall k :: k in keys <==> k in was || k == key;
        assert Members() == members + {key};
        rest := rest - {key};
      }
    }
  }

  lemma {:induction false} DistinctSize(s: seq<Pos>)
    requires forall i, j | 0 <= i < j < |s| :: s[i] != s[j]
    ensures |set k | k in s| == |s|
  {
    if s != [] {
      DistinctSize(s[1..]);
      assert s == [s[0]] + s[1..];
      assert (set k | k in s) == {s[0]} + set k | k in s[1..];
    }
  }

  /** The summary sets that the candidate arrays mirror. */
  datatype CandidateSets = CandidateSets(hot: set<Pos>, strategic: set<Pos>, build: set<Pos>)

  /** What mirroring does to one array: on the affected keys it agrees with the summary, elsewhere it is unchanged. */
  ghost predicate Mirrored(before: set<Pos>, after: set<Pos>, affected: seq<Pos>, summary: set<Pos>) {
    forall k :: k in after <==> if k in affected then k in summary else k in before
  }

  /** The three candidate arrays of one player. */
  class CandidateArrays {
    const hot: KeyArray
    const strategic: KeyArray
    const build: KeyArray

    constructor ()
      ensures Valid() && fresh(hot) && fresh(strategic) && fresh(build) && Agrees(CandidateSets({}, {}, {}))
    {
      hot := new KeyArray();
      strategic := new KeyArray();
      build := new KeyArray();
    }

    ghost predicate Valid()
      reads this, hot, strategic, build
    {
      hot != strategic && hot != build && strategic != build && hot.Valid() && strategic.Valid() && build.Valid()
    }

    ghost predicate Agrees(summary: CandidateSets)
      reads this, hot, strategic, build
    {
      hot.Members() == summary.hot && strategic.Members() == summary.strategic && build.Members() == summary.build
    }

    method ResetFromSummary(summary: CandidateSets)
      requires Valid()
      modifies hot, strategic, build
      ensures Valid() && Agrees(summary)
    {
      hot.ResetFrom(summary.hot);
      strategic.ResetFrom(summary.strategic);
      build.ResetFrom(summary.build);
    }

    method Sync(target: KeyArray, key: Pos, present: bool)
      requires target.Valid()
      modifies target
      ensures target.Valid() && target.Members() == if present then old(target.Members()) + {key}
                else old(target.Members()) - {key}
    {
      if present {
        target.Add(key);
      } else {
        target.Remove(key);
      }
    }

    /** Re-checks each affected key against the updated summary. */
    method Mirror(affected: seq<Pos>, summary: CandidateSets)
      requires Valid()
      modifies hot, strategic, build
      ensures Valid()
      ensures Mirrored(old(hot.Members()), hot.Members(), affected, summary.hot)
      ensures Mirrored(old(strategic.Members()), strategic.Members(), affected, summary.strategic)
      ensures Mirrored(old(build.Members()), build.Members(), affected, summary.build)
    {
      for i := 0 to |affected|
        invariant Valid()
        invariant Mirrored(old(hot.Members()), hot.Members(), affected[..i], summary.hot)
        invariant Mirrored(old(strategic.Members()), strategic.Members(), affected[..i], summary.strategic)
        invariant Mirrored(old(build.Members()), build.Members(), affected[..i], summary.build)
      {
        var key := affected[i];
        assert affected[..i + 1] == affected[..i] + [key];
        Sync(hot, key, key in summary.hot);
        Sync(strategic, key, key in summary.strategic);
        Sync(build, key, key in summary.build);
      }
      assert affected[..|affected|] == affected;
    }

    /** When the affected keys cover the change of the summary, mirroring restores agreement with it. */
    method MirrorChange(affected: seq<Pos>, ghost before: CandidateSets, summary: CandidateSets)
      requires Valid() && Agrees(before)
      requires forall k | k !in affected ::
                 (k in summary.hot <==> k in before.hot) && (k in summary.strategic <==> k in before.strategic)
                 && (k in summary.build <==> k in before.build)
      modifies hot, strategic, build
      ensures Valid() && Agrees(summary)
    {
      Mirror(affected, summary);
    }
  }

  // ---------- dirty tiles ----------

  datatype DirtyEvent = Mark(key: Pos) | Export

  /** The dirty set after a run of events. */
  function DirtyAfter(dirty: set<Pos>, events: seq<DirtyEvent>): set<Pos>
    decreases |events|
  {
    if events == [] then dirty
    else DirtyAfter(if events[0].Export? then {} else dirty + {events[0].key}, events[1..])
  }

  /** How many exports of a run report `key`: an export reports the whole dirty set and clears it. */
  function Reports(dirty: set<Pos>, events: seq<DirtyEvent>, key: Pos): nat
    decreases |events|
  {
    if events == [] then 0
    else if events[0].Export? then (if key in dirty then 1 else 0) + Reports({}, events[1..], key)
    else Reports(dirty + {events[0].key}, events[1..], key)
  }

  /** A marked tile is reported by exactly one later export, the first; an unmarked one by none. */
  lemma {:induction false} ReportedOnce(dirty: set<Pos>, events: seq<DirtyEvent>, key: Pos)
    requires Mark(key) !in events
    ensures Reports(dirty, events, key) == if key in dirty && Export in events then 1 else 0
    ensures key in DirtyAfter(dirty, events) <==> key in dirty && Export !in events
    decreases |events|
  {
    if events != [] {
      assert events == [events[0]] + events[1..];
      ReportedOnce(if events[0].Export? then {} else dirty + {events[0].key}, events[1..], key);
    }
  }

  /** The dirty set of one player, marked by topology changes and drained by every export. */
  class DirtyTiles {
    var dirty: set<Pos>

    constructor ()
      ensures dirty == {}
    {
      dirty := {};
    }

    method MarkDirty(key: Pos)
      modifies this
      ensures dirty == old(dirty) + {key} == DirtyAfter(old(dirty), [Mark(key)])
    {
      dirty := dirty + {key};
      assert [Mark(key)][1..] == [];
    }

    method Drain() returns (reported: set<Pos>)
      modifies this
      ensures reported == old(dirty) && dirty == {} == DirtyAfter(old(dirty), [Export])
      ensures forall key :: key in reported <==> Reports(old(dirty), [Export], key) == 1
    {
      reported := dirty;
      dirty := {};
      assert [Export][1..] == [];
    }
  }
}
