/** When steps raise, and what an exception of config() leaves behind. */
module CacheFailures {
  import opened Wrappers
  import opened NodeConfig
  import opened ConfigErrors
  import opened ClusterState
  import opened ClusterAllocation
  import opened ConfigCache
  import opened SharedFiles
  import OrderedSets

  // ---- which steps raise ----

  ghost predicate Created(backing: Option<Backing>) {
    backing.Some? ==> backing.value.created
  }

  lemma AdditionRaises(s: State, n: nat, number: nat, backing: Option<Backing>)
    requires Linked(s) && n < |s.nodes|
    ensures DiskAdded(s, n, number, backing, false).ok <==>
            Created(backing) && (backing.Some? && backing.value.zeroOut && s.nodes[n].marked ==> CanWrite(s, n))
    ensures var o := DiskAdded(s, n, number, backing, false);
            !o.ok && Created(backing) ==> backing.Some? && SameSettings(MinorTaken(s, n, number), o.state) && !CanWrite(o.state, n)
  {
    hide Config, WritableState, Updated, SameSettings, Info, Me, VolumeListed;
    var taken := MinorTaken(s, n, number);
    TakenOnly(s, n, number);
    TakenNodes(s, n, number);
    UntouchedInfo(s, taken, s.nodes[n].resource);
    UpdatedIs(taken, n);
    UpdateIsOnlyCache(true, taken, n, false);
    SettingsSay(taken, Updated(taken, n, false).state, n);
  }

  ghost predicate StorageCreated(backings: seq<Option<Backing>>) {
    forall i :: 0 <= i < |backings| ==> Created(backings[i])
  }

  /** The configuration of every node that gets storage can be written. */
  ghost predicate StorageWritable(s: State, ms: seq<nat>, backings: seq<Option<Backing>>)
    requires Linked(s) && |backings| == |ms|
  {
    forall i :: 0 <= i < |ms| ==> FileWritable(s, ms[i], backings[i])
  }

  ghost predicate FileWritable(s: State, n: nat, backing: Option<Backing>)
    requires Linked(s)
  {
    backing.Some? ==> n < |s.nodes| && CanWrite(s, n)
  }

  lemma FirstAndRest(s: State, ms: seq<nat>, backings: seq<Option<Backing>>)
    requires Linked(s) && |backings| == |ms| > 0
    ensures StorageCreated(backings) <==> Created(backings[0]) && StorageCreated(backings[1..])
    ensures StorageWritable(s, ms, backings) <==> FileWritable(s, ms[0], backings[0]) && StorageWritable(s, ms[1..], backings[1..])
  {
    hide Created, FileWritable;
    assert backings == [backings[0]] + backings[1..] && ms == [ms[0]] + ms[1..];
  }

  lemma {:induction false} AdditionsRaise(s: State, ms: seq<nat>, number: nat, backings: seq<Option<Backing>>)
    requires Linked(s) && Among(s, ms) && |backings| == |ms|
    ensures var o := DisksAdded(s, ms, number, backings, false);
            o.ok ==> StorageCreated(backings)
    ensures var o := DisksAdded(s, ms, number, backings, false);
            !o.ok ==> !StorageCreated(backings) || !StorageWritable(o.state, ms, backings)
    decreases |ms|
  {
    hide DiskAdded, CanWrite, SameSettings, StorageCreated, StorageWritable;
    if ms == [] {
      assert StorageCreated([]) by { NoneCreated(); }
    } else {
      assert ms[0] in ms && forall n :: n in ms[1..] ==> n in ms;
      AdditionRaises(s, ms[0], number, backings[0]);
      var o := DiskAdded(s, ms[0], number, backings[0], false);
      FirstAndRest(DisksAdded(s, ms, number, backings, false).state, ms, backings);
      if o.ok {
        AdditionsRaise(o.state, ms[1..], number, backings[1..]);
      }
    }
  }

  lemma NoneCreated()
    ensures StorageCreated([])
  {
  }

  lemma {:induction false} MetadataRaises(s: State, ms: seq<nat>, backings: seq<Option<Backing>>)
    requires Linked(s) && Among(s, ms) && |backings| == |ms| && OrderedSets.NoDup(ms) && AllMarked(s, ms)
    ensures var o := MetadataCreated(s, ms, backings, false);
            o.ok <==> StorageWritable(o.state, ms, backings)
    decreases |ms|
  {
    hide UpdatedIf, SameSettings, CanWrite, StorageCreated, StorageWritable;
    if ms == [] {
      assert StorageWritable(s, ms, backings) by { NoneWritable(s); }
    } else {
      assert ms[0] in ms && forall n :: n in ms[1..] ==> n in ms;
      var update := backings[0].Some?;
      var o := UpdatedIf(update, s, ms[0], false);
      var u := MetadataCreated(s, ms, backings, false);
      UpdateRaises(update, s, ms[0]);
      MetadataIsOnlyCache(s, ms, backings, false);
      SettingsSay(s, u.state, ms[0]);
      SettingsResources(s, u.state);
      FirstAndRest(u.state, ms, backings);
      if o.ok {
        RestMarked(update, s, ms);
        MetadataRaises(o.state, ms[1..], backings[1..]);
      }
    }
  }

  lemma NoneWritable(s: State)
    requires Linked(s)
    ensures StorageWritable(s, [], [])
  {
  }

  lemma RestMarked(update: bool, s: State, ms: seq<nat>)
    requires Linked(s) && Among(s, ms) && OrderedSets.NoDup(ms) && AllMarked(s, ms) && ms != []
    ensures ms[0] in ms && AllMarked(UpdatedIf(update, s, ms[0], false).state, ms[1..])
    ensures OrderedSets.NoDup(ms[1..])
  {
    hide UpdatedIf, SameSettings;
    UpdateIsOnlyCache(update, s, ms[0], false);
    assert forall i :: 0 <= i < |ms[1..]| ==> ms[1..][i] == ms[i + 1] && ms[i + 1] != ms[0];
  }

  lemma UpdateRaises(update: bool, s: State, n: nat)
    requires Linked(s) && n < |s.nodes|
    ensures UpdatedIf(update, s, n, false).ok <==> (update && s.nodes[n].marked ==> CanWrite(s, n))
  {
    hide Updated, CanWrite;
    UpdatedIs(s, n);
  }

  /** Resource.add_disk raises exactly if some storage cannot be created, or the
      configuration of a node with storage cannot be written with the volumes that it
      comes to. */
  lemma VolumeAddedRaisesIff(s: State, r: nat, backings: seq<Option<Backing>>)
    requires Linked(s) && r < |s.resources| && |backings| == |s.resources[r].members|
    ensures var o := VolumeAdded(s, r, backings, false);
            o.ok <==> StorageCreated(backings) && StorageWritable(o.state, s.resources[r].members, backings)
  {
    hide DisksAdded, MetadataCreated, CanWrite, StorageCreated, StorageWritable, GotVolumes, OthersSame, AllMarked;
    var rs := s.resources[r];
    assert MembersLinked(s, r);
    var counted := WithResource(s, r, rs.(count := rs.count + 1));
    AdditionsRaise(counted, rs.members, rs.count, backings);
    var o := DisksAdded(counted, rs.members, rs.count, backings, false);
    if o.ok {
      DisksAddedIs(counted, rs.members, rs.count, backings, false);
      MetadataRaises(o.state, rs.members, backings);
    }
  }

  /** Exactly the steps that raise. */
  ghost predicate Succeeds(s: State, step: Step)
    requires Linked(s)
  {
    step.On? && step.r < |s.resources| ==>
      var ms, change := s.resources[step.r].members, step.change;
      (change.Command? && change.k < |ms| && change.update && s.nodes[Member(s, step.r, change.k)].marked ==>
         CanWrite(s, Member(s, step.r, change.k)))
      && (change.AddDiskOn? && change.k < |ms| ==>
            Created(change.backing)
            && (change.backing.Some? && change.backing.value.zeroOut && s.nodes[Member(s, step.r, change.k)].marked ==>
                  CanWrite(s, Member(s, step.r, change.k))))
      && (change.AddDisk? && |change.backings| == |ms| ==>
            StorageCreated(change.backings) && StorageWritable(Next(s, step, false).state, ms, change.backings))
  }

  lemma NextRaisesIff(s: State, step: Step)
    requires Linked(s)
    ensures Next(s, step, false).ok <==> Succeeds(s, step)
  {
    hide CanWrite, VolumeAdded, DiskAdded, Updated, Set, Fenced, Touched, Joined, Left, TiebreakerSet, StorageCreated, StorageWritable, ResourceCreated;
    if step.On? && step.r < |s.resources| {
      var ms, change := s.resources[step.r].members, step.change;
      if change.Command? && change.k < |ms| {
        UpdateRaises(change.update, s, Member(s, step.r, change.k));
      } else if change.AddDiskOn? && change.k < |ms| {
        AdditionRaises(s, Member(s, step.r, change.k), change.number, change.backing);
      } else if change.AddDisk? && |change.backings| == |ms| {
        VolumeAddedRaisesIff(s, step.r, change.backings);
      }
    }
  }

  /** A run is cut short exactly at the first step that raises. */
  lemma {:induction false} RunRaises(s: State, steps: seq<Step>)
    requires Linked(s)
    ensures var run := Replay(s, steps, false);
            run.ok || (|run.seen| < |steps|
                       && var before := Replay(s, steps[..|run.seen|], false);
                          before.ok && !Succeeds(before.state, steps[|run.seen|]))
    decreases |steps|
  {
    hide Next, Succeeds;
    if steps != [] {
      NextRaisesIff(s, steps[0]);
      var o := Next(s, steps[0], false);
      if o.ok {
        RunRaises(o.state, steps[1..]);
        var run := Replay(s, steps, false);
        if !run.ok {
          var i := |run.seen|;
          assert steps[..i][1..] == steps[1..][..i - 1] && steps[..i][0] == steps[0];
        }
      }
    }
  }

  // ---- exceptions ----

  /** After an exception of config() the next command runs, with the old file or none,
      although nothing has been put right. */
  lemma ExceptionForgotten(s: State, n: nat)
    requires Linked(s) && n < |s.nodes| && s.nodes[n].marked && !CanWrite(s, n)
    ensures var a := Ran(s, n, true, false);
            !a.ok && !CanWrite(a.state, n) && Ran(a.state, n, true, false) == Outcome(a.state, true, Found(s, n))
  {
    hide Found, CanWrite, SameSettings, Updated;
    UpdatedIs(s, n);
    var a := Ran(s, n, true, false).state;
    UpdateIsOnlyCache(true, s, n, false);
    SettingsSay(s, a, n);
    UnmarkedRuns(a, n);
  }

  /** Resource.add_disk with zero_out: when the next member runs blkdiscard, one member has
      its volume already but the next is not marked yet, and its file is not current. */
  lemma BlankingSeesOld(s: State, n: nat, number: nat, backing: Option<Backing>, m: nat)
    requires Linked(s) && Private(s) && IsMember(s, n) && IsMember(s, m) && m != n && Fresh(s, m) && Unmarked(s, m)
    requires s.nodes[m].resource == s.nodes[n].resource && number >= |s.nodes[n].volumes|
    requires DiskAdded(s, n, number, backing, false).ok
    ensures var t := DiskAdded(s, n, number, backing, false).state;
            Ran(t, m, true, false) == Outcome(t, true, Found(t, m)) && (Found(t, m).None? || Found(t, m) != Current(t, m))
  {
    hide DiskAdded, Private, Found, Current, SameSettings;
    var t := DiskAdded(s, n, number, backing, false).state;
    AdditionShows(s, n, number, backing, m);
    DiskAddedIs(s, n, number, backing, false);
    UnmarkedRuns(t, m);
  }
}
