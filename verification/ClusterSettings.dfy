/** What the setters of a cluster set, over every run, and that it is what the files say. */
module ClusterSettings {
  import opened Wrappers
  import opened ConfigText
  import opened NodeConfig
  import opened ConfigMeaning
  import opened ClusterState
  import opened ClusterAllocation
  import opened ConfigCache
  import OrderedSets

  // ---- the texts of a resource ----

  datatype Setting = Net | Disk | Options | Handlers | Name

  function Text(rs: ResourceState, k: Setting): string {
    match k
    case Net => rs.net
    case Disk => rs.disk
    case Options => rs.options
    case Handlers => rs.handlers
    case Name => rs.name
  }

  /** The value that a step gives to a text of a resource, if it is the setter of this text. */
  function Assignment(change: Change, k: Setting): Option<string> {
    match k
    case Net => if change.SetNet? then Some(change.value) else None
    case Disk => if change.SetDisk? then Some(change.value) else None
    case Options => if change.SetOptions? then Some(change.value) else None
    case Handlers => if change.SetHandlers? then Some(change.value) else None
    case Name => if change.Rename? then Some(change.value) else None
  }

  /** One text is assigned, the others are not, and nothing else of any resource changes. */
  lemma SetterAssigns(s: State, r: nat, change: Change)
    requires Linked(s) && r < |s.resources| && IsSetter(change)
    ensures var t := Set(s, r, change);
            |t.resources| == |s.resources| && t.hosts == s.hosts
            && (forall q :: 0 <= q < |s.resources| && q != r ==> t.resources[q] == s.resources[q])
            && t.resources[r].members == s.resources[r].members && t.resources[r].count == s.resources[r].count
            && t.resources[r].transport == s.resources[r].transport && t.resources[r].tls == s.resources[r].tls
            && (forall k: Setting :: Text(t.resources[r], k) ==
                  if Assignment(change, k).Some? then Assignment(change, k).value else Text(s.resources[r], k))
    ensures var t := Set(s, r, change);
            |t.nodes| == |s.nodes| && forall n :: 0 <= n < |s.nodes| ==>
              t.nodes[n] == if n in s.resources[r].members then s.nodes[n].(marked := true) else s.nodes[n]
  {
  }

  /** The fencing mode is that of exactly the members, which are marked. */
  lemma FencingAssigns(s: State, r: nat, mode: string)
    requires Linked(s) && r < |s.resources|
    ensures var o := Changed(s, r, Change.SetFencing(mode), false);
            o.ok && o.state.resources == s.resources && o.state.hosts == s.hosts && |o.state.nodes| == |s.nodes|
            && forall n :: 0 <= n < |s.nodes| ==>
                 o.state.nodes[n].fencing == (if n in s.resources[r].members then mode else s.nodes[n].fencing)
                 && o.state.nodes[n].marked == (n in s.resources[r].members || s.nodes[n].marked)
                 && o.state.nodes[n].volumes == s.nodes[n].volumes
  {
  }

  /** The tiebreaker is that of exactly one volume, and all members are marked. */
  lemma TiebreakerAssigns(s: State, r: nat, k: nat, position: nat, answer: Option<bool>)
    requires Linked(s) && r < |s.resources| && k < |s.resources[r].members|
    requires position < |s.nodes[Member(s, r, k)].volumes|
    ensures var o, m := Changed(s, r, Change.SetTiebreaker(k, position, answer), false), s.resources[r].members[k];
            o.ok && o.state.resources == s.resources && o.state.hosts == s.hosts && |o.state.nodes| == |s.nodes|
            && (forall n :: 0 <= n < |s.nodes| ==>
                  o.state.nodes[n].marked == (n in s.resources[r].members || s.nodes[n].marked)
                  && o.state.nodes[n].fencing == s.nodes[n].fencing && |o.state.nodes[n].volumes| == |s.nodes[n].volumes|)
            && (forall n, i :: 0 <= n < |s.nodes| && 0 <= i < |s.nodes[n].volumes| ==>
                  var v, w := s.nodes[n].volumes[i], o.state.nodes[n].volumes[i];
                  w.number == v.number && w.info.minor == v.info.minor && w.info.disk == v.info.disk && w.info.meta == v.info.meta
                  && w.info.tiebreaker == if n == m && i == position then answer else v.info.tiebreaker)
  {
  }

  // ---- every step ----

  /** What a step does to the texts of one resource. */
  ghost predicate TextsAfter(s: State, t: State, step: Step) {
    |t.resources| == |s.resources| + (if step.CreateResource? then 1 else 0)
    && (forall r: nat, k: Setting :: r < |s.resources| ==> TextAfter(s, t, step, r, k))
    && (step.CreateResource? ==>
          forall k: Setting :: Text(t.resources[|s.resources|], k) == if k == Name then step.name else "")
  }

  ghost predicate TextAfter(s: State, t: State, step: Step, r: nat, k: Setting)
    requires r < |s.resources| <= |t.resources|
  {
    Text(t.resources[r], k) ==
    if step.On? && step.r == r && Assignment(step.change, k).Some? then Assignment(step.change, k).value else Text(s.resources[r], k)
  }

  ghost predicate TextsKept(s: State, t: State) {
    |t.resources| == |s.resources|
    && forall r, k: Setting :: 0 <= r < |s.resources| ==> Text(t.resources[r], k) == Text(s.resources[r], k)
  }

  lemma ChangeTexts(s: State, r: nat, change: Change)
    requires Linked(s) && r < |s.resources|
    ensures TextsAfter(s, Changed(s, r, change, false).state, On(r, change))
  {
    hide Set, Touched, VolumeAdded, DiskAdded, UpdatedIf, OrderedSets.RemoveFirst;
    if IsSetter(change) {
      SetterAssigns(s, r, change);
    } else {
      assert TextsKept(s, Changed(s, r, change, false).state) by { OtherTexts(s, r, change); }
      assert forall k: Setting :: Assignment(change, k).None?;
    }
  }

  lemma OtherTexts(s: State, r: nat, change: Change)
    requires Linked(s) && r < |s.resources| && !IsSetter(change)
    ensures TextsKept(s, Changed(s, r, change, false).state)
  {
    hide VolumeAdded, DiskAdded, UpdatedIf, OrderedSets.RemoveFirst, Touched, Fenced, TiebreakerSet, DisksRemoved, GotVolumes;
    if change.AddDisk? && |change.backings| == |s.resources[r].members| {
      VolumeAddedIs(s, r, change.backings, false);
    }
  }

  lemma NextTexts(s: State, step: Step)
    requires Linked(s)
    requires step.On? ==> step.r < |s.resources|
    ensures TextsAfter(s, Next(s, step, false).state, step)
  {
    hide Changed, ResourceCreated;
    match step
    case CreateResource(name) => ResourceCreatedIs(s, name);
    case On(r, change) => ChangeTexts(s, r, change);
  }

  lemma SettersSucceed(s: State, step: Step, k: Setting)
    requires Linked(s) && !Next(s, step, false).ok
    ensures step.On? && step.r < |s.resources| && Assignment(step.change, k).None?
  {
    hide Set, ResourceCreated;
  }

  // ---- every run ----

  /** The text that a sequence of steps leaves a resource with: that of the last setter of this
      text, or what it was; a new resource has its name and no other text.  `known` is the
      number of resources so far. */
  function LastText(steps: seq<Step>, r: nat, k: Setting, known: nat, value: string): string
    decreases |steps|
  {
    if steps == [] then value
    else
      match steps[0]
      case CreateResource(name) =>
        LastText(steps[1..], r, k, known + 1, if r != known then value else if k == Name then name else "")
      case On(q, change) =>
        LastText(steps[1..], r, k, known,
                 if q == r && r < known && Assignment(change, k).Some? then Assignment(change, k).value else value)
  }

  function TextAt(s: State, r: nat, k: Setting): string {
    if r < |s.resources| then Text(s.resources[r], k) else ""
  }

  /** After any run, the texts of every resource are those of the last setters. */
  lemma {:induction false} RunTexts(s: State, steps: seq<Step>, r: nat, k: Setting)
    requires Linked(s)
    ensures var run := Replay(s, steps, false);
            r < |run.state.resources| ==>
              TextAt(run.state, r, k) == LastText(steps[..|run.seen|], r, k, |s.resources|, TextAt(s, r, k))
    decreases |steps|
  {
    hide Next, Text;
    var run := Replay(s, steps, false);
    if steps == [] {
    } else {
      var o := Next(s, steps[0], false);
      StepText(s, steps[0], r, k);
      if o.ok {
        RunTexts(o.state, steps[1..], r, k);
        var n := |run.seen|;
        assert steps[..n][0] == steps[0] && steps[..n][1..] == steps[1..][..n - 1];
      } else {
        SettersSucceed(s, steps[0], k);
      }
    }
  }

  lemma StepText(s: State, step: Step, r: nat, k: Setting)
    requires Linked(s)
    ensures var t := Next(s, step, false).state;
            |t.resources| == |s.resources| + (if step.CreateResource? then 1 else 0)
            && (r < |t.resources| ==>
                  TextAt(t, r, k) ==
                  if step.CreateResource? && r == |s.resources| then (if k == Name then step.name else "")
                  else if step.On? && step.r == r && Assignment(step.change, k).Some? then Assignment(step.change, k).value
                  else TextAt(s, r, k))
            && (r >= |t.resources| ==> r >= |s.resources|)
  {
    hide Changed, ResourceCreated;
    if step.CreateResource? || step.r < |s.resources| {
      NextTexts(s, step);
      assert r < |s.resources| ==> TextAfter(s, Next(s, step, false).state, step, r, k);
    }
  }

  /** Once set, a text stays until it is set again. */
  lemma SetStays(s: State, before: seq<Step>, r: nat, change: Change, after: seq<Step>, k: Setting)
    requires Linked(s) && Assignment(change, k).Some? && r < |Replay(s, before, false).state.resources|
    requires Replay(s, before + [On(r, change)] + after, false).ok
    requires forall i :: 0 <= i < |after| && after[i].On? && after[i].r == r ==> Assignment(after[i].change, k).None?
    ensures var t := Replay(s, before + [On(r, change)] + after, false).state;
            r < |t.resources| && TextAt(t, r, k) == Assignment(change, k).value
  {
    hide Next, Text, Replay;
    assert before + [On(r, change)] + after == before + ([On(r, change)] + after);
    ReplayThen(s, before, [On(r, change)] + after);
    SetThenUnset(Replay(s, before, false).state, r, change, after, k);
  }

  lemma SetThenUnset(s: State, r: nat, change: Change, after: seq<Step>, k: Setting)
    requires Linked(s) && Assignment(change, k).Some? && r < |s.resources| && Replay(s, [On(r, change)] + after, false).ok
    requires forall i :: 0 <= i < |after| && after[i].On? && after[i].r == r ==> Assignment(after[i].change, k).None?
    ensures var t := Replay(s, [On(r, change)] + after, false).state;
            r < |t.resources| && TextAt(t, r, k) == Assignment(change, k).value
  {
    hide Next, Text, Replay;
    NextRun(s, On(r, change), after);
    StepText(s, On(r, change), r, k);
    Unset(Next(s, On(r, change), false).state, after, r, k);
  }

  lemma {:induction false} ReplayThen(s: State, a: seq<Step>, b: seq<Step>)
    requires Linked(s) && Replay(s, a + b, false).ok
    ensures Replay(s, a, false).ok && Replay(s, a + b, false).state == Replay(Replay(s, a, false).state, b, false).state
    ensures Replay(Replay(s, a, false).state, b, false).ok
    decreases |a|
  {
    hide Next;
    if a == [] {
      assert a + b == b;
    } else {
      assert (a + b)[0] == a[0] && (a + b)[1..] == a[1..] + b;
      ReplayThen(Next(s, a[0], false).state, a[1..], b);
    }
  }

  lemma NextRun(s: State, step: Step, rest: seq<Step>)
    requires Linked(s) && Replay(s, [step] + rest, false).ok
    ensures Next(s, step, false).ok && Replay(s, [step] + rest, false).state == Replay(Next(s, step, false).state, rest, false).state
    ensures Replay(Next(s, step, false).state, rest, false).ok
  {
    hide Next;
    assert ([step] + rest)[1..] == rest;
  }

  lemma {:induction false} Unset(s: State, steps: seq<Step>, r: nat, k: Setting)
    requires Linked(s) && r < |s.resources| && Replay(s, steps, false).ok
    requires forall i :: 0 <= i < |steps| && steps[i].On? && steps[i].r == r ==> Assignment(steps[i].change, k).None?
    ensures var t := Replay(s, steps, false).state; r < |t.resources| && TextAt(t, r, k) == TextAt(s, r, k)
    decreases |steps|
  {
    hide Next, Text;
    if steps != [] {
      StepText(s, steps[0], r, k);
      assert forall i :: 0 <= i < |steps[1..]| ==> steps[1..][i] == steps[i + 1];
      Unset(Next(s, steps[0], false).state, steps[1..], r, k);
    }
  }

  // ---- the files ----

  /** What the file of a node says, in terms of the settings. */
  ghost predicate FileSays(f: Forest, s: State, n: nat)
    requires Linked(s) && n < |s.nodes|
  {
    var rs, me := s.resources[s.nodes[n].resource], s.nodes[n];
    var host, count := s.hosts[me.host], |rs.members|;
    f.Sub? && f.rest == Nil && f.name == "resource " + rs.name && Texts(f.body) == []
    && var bs := Blocks(f.body);
       |bs| >= 5 + count
       && Says(bs[0], "handlers", ConfigMeaning.Given(rs.handlers))
       && Says(bs[1], "options", ConfigMeaning.Given(rs.options))
       && (bs[2].0 == "disk" && Ends(Texts(bs[2].1), ConfigMeaning.Given(rs.disk)))
       && (bs[3].0 == "net" && Ends(Texts(bs[3].1), ConfigMeaning.Given(rs.net)))
       && (me.fencing != "" ==> "fencing " + me.fencing + ";" in Texts(bs[3].1))
       && (rs.transport != "" ==> "transport \"" + rs.transport + "\";" in Texts(bs[3].1))
       && (forall i :: 0 <= i < count ==> HostSays(bs[5 + i], Described(s, s.nodes[Member(s, me.resource, i)])))
       && ConnectionsSay(bs[5 + count..], DescribedMembers(s, me.resource))
  }

  ghost predicate Ends(texts: seq<string>, last: seq<string>) {
    exists first :: texts == first + last
  }

  /** What is written of a node. */
  ghost function Described(s: State, node: NodeState): NodeInfo
    requires node.host < |s.hosts|
  {
    var host := s.hosts[node.host];
    NodeInfo(id := node.id, name := host.name, hostname := host.hostname, addrs := host.addrs, port := node.port,
             volumes := seq(|node.volumes|, k requires 0 <= k < |node.volumes| => node.volumes[k].info))
  }

  ghost function DescribedMembers(s: State, r: nat): (ns: seq<NodeInfo>)
    requires Linked(s) && r < |s.resources|
    ensures |ns| == |s.resources[r].members| && forall i :: 0 <= i < |ns| ==> ns[i] == Described(s, s.nodes[Member(s, r, i)])
  {
    seq(|s.resources[r].members|, i requires 0 <= i < |s.resources[r].members| => Described(s, s.nodes[Member(s, r, i)]))
  }

  /** For clean names and options, a reader of the file that config() gives finds the settings
      as they are. */
  lemma CurrentSays(s: State, n: nat)
    requires Linked(s) && n < |s.nodes| && CleanState(Me(s, n), Info(s, s.nodes[n].resource))
    ensures Current(s, n).Some? && Parse(Current(s, n).value).Some? && FileSays(Parse(Current(s, n).value).value, s, n)
  {
    hide Config, Parse, CleanState, HostSays, ConnectionsSay;
    var r := s.nodes[n].resource;
    var me, info := Me(s, n), Info(s, r);
    ReaderFinds(me, info);
    var f := Parse(Current(s, n).value).value;
    InfoIs(s, r);
    SaysInSettings(f, s, n);
  }

  lemma InfoIs(s: State, r: nat)
    requires Linked(s) && r < |s.resources|
    ensures var rs, info := s.resources[r], Info(s, r);
            info.name == rs.name && info.handlers == rs.handlers && info.resourceOptions == rs.options
            && info.diskOptions == rs.disk && info.netOptions == rs.net && info.transport == rs.transport && info.tls == rs.tls
            && |info.nodes| == |rs.members|
            && info.nodes == DescribedMembers(s, r)
  {
    assert MembersLinked(s, r);
    var rs, info := s.resources[r], Info(s, r);
    forall i | 0 <= i < |rs.members|
      ensures info.nodes[i] == Described(s, s.nodes[Member(s, r, i)])
    {
      DescribedIs(s, s.nodes[Member(s, r, i)]);
    }
  }

  lemma DescribedIs(s: State, node: NodeState)
    requires node.host < |s.hosts|
    ensures Described(s, node) == InfoOf(s.hosts[node.host], node)
  {
    assert VolumeInfos(node.volumes) == Described(s, node).volumes;
  }

  lemma SaysInSettings(f: Forest, s: State, n: nat)
    requires Linked(s) && n < |s.nodes| && ResourceSays(f, Me(s, n), Info(s, s.nodes[n].resource))
    ensures FileSays(f, s, n)
  {
    hide HostSays, ConnectionsSay, Info, Described, HasText, ConfigMeaning.Given;
    var r := s.nodes[n].resource;
    InfoIs(s, r);
    var bs, info, me := Blocks(f.body), Info(s, r), Me(s, n);
    assert forall i :: 0 <= i < |info.nodes| ==> info.nodes[i] == Described(s, s.nodes[Member(s, r, i)]);
    DiskEnds(bs[2], me, info);
    NetEnds(bs[3], me, info);
  }

  lemma DiskEnds(b: Entry, me: Own, r: ResourceInfo)
    requires DiskSays(b, me, r)
    ensures b.0 == "disk" && Ends(Texts(b.1), ConfigMeaning.Given(r.diskOptions))
  {
    hide HasText, ConfigMeaning.Given;
  }

  lemma NetEnds(b: Entry, me: Own, r: ResourceInfo)
    requires NetSays(b, me, r)
    ensures b.0 == "net" && Ends(Texts(b.1), ConfigMeaning.Given(r.netOptions))
    ensures me.fencing != "" ==> "fencing " + me.fencing + ";" in Texts(b.1)
    ensures r.transport != "" ==> "transport \"" + r.transport + "\";" in Texts(b.1)
  {
    hide ConfigMeaning.Given;
    var a := if r.transport != "" then ["transport \"" + r.transport + "\";"] else [];
    var t := if r.tls == "yes" then ["tls yes;"] else [];
    var c := if me.fencing != "" then ["fencing " + me.fencing + ";"] else [];
    assert Texts(b.1) == (a + t + c) + ConfigMeaning.Given(r.netOptions);
    assert me.fencing != "" ==> c[0] in a + t + c;
    assert r.transport != "" ==> a[0] in a + t + c;
  }

  /** After any run, the file of every node with clean settings ends its blocks with the last
      values set. */
  lemma RunFile(s: State, steps: seq<Step>, n: nat)
    requires Linked(s)
    requires var t := Replay(s, steps, false).state; n < |t.nodes| && CleanState(Me(t, n), Info(t, t.nodes[n].resource))
    ensures var run := Replay(s, steps, false);
            var t, done := run.state, steps[..|run.seen|];
            var r := t.nodes[n].resource;
            Current(t, n).Some? && Parse(Current(t, n).value).Some?
            && var f := Parse(Current(t, n).value).value;
               f.Sub? && |Blocks(f.body)| >= 5
               && f.name == "resource " + LastText(done, r, Name, |s.resources|, TextAt(s, r, Name))
               && Says(Blocks(f.body)[0], "handlers", ConfigMeaning.Given(LastText(done, r, Handlers, |s.resources|, TextAt(s, r, Handlers))))
               && Says(Blocks(f.body)[1], "options", ConfigMeaning.Given(LastText(done, r, Options, |s.resources|, TextAt(s, r, Options))))
               && Blocks(f.body)[2].0 == "disk" && Blocks(f.body)[3].0 == "net"
               && Ends(Texts(Blocks(f.body)[2].1), ConfigMeaning.Given(LastText(done, r, Disk, |s.resources|, TextAt(s, r, Disk))))
               && Ends(Texts(Blocks(f.body)[3].1), ConfigMeaning.Given(LastText(done, r, Net, |s.resources|, TextAt(s, r, Net))))
  {
    hide Replay, Config, Parse, CleanState, HostSays, ConnectionsSay, Info, Me, Says, Ends, LastText, ConfigMeaning.Given;
    var t := Replay(s, steps, false).state;
    CurrentSays(t, n);
    var r := t.nodes[n].resource;
    RunTexts(s, steps, r, Name);
    RunTexts(s, steps, r, Handlers);
    RunTexts(s, steps, r, Options);
    RunTexts(s, steps, r, Disk);
    RunTexts(s, steps, r, Net);
  }
}
