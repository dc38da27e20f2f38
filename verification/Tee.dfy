/** python/drbdtestlogger.py: a stream that copies every write to a set of streams,
    while other threads add streams to the set and remove them. */
module Tee {
  import opened Wrappers

  // ---- the object, used by one thread ----

  class Stream {
    var received: seq<string>

    constructor ()
      ensures received == []
    {
      received := [];
    }

    method Write(message: string)
      modifies this
      ensures received == old(received) + [message]
    {
      received := received + [message];
    }
  }

  class Tee {
    /** A set, in the order in which it happens to be iterated. */
    var streams: seq<Stream>

    ghost predicate Valid()
      reads this
    {
      forall i, j :: 0 <= i < j < |streams| ==> streams[i] != streams[j]
    }

    constructor ()
      ensures Valid() && streams == []
    {
      streams := [];
    }

    method Add(stream: Stream)
      requires Valid()
      modifies this
      ensures Valid() && streams == if stream in old(streams) then old(streams) else old(streams) + [stream]
    {
      var copy := streams;
      if stream !in copy {
        copy := copy + [stream];
      }
      streams := copy;
    }

    /** False stands for the KeyError. */
    method Remove(stream: Stream) returns (ok: bool)
      requires Valid()
      modifies this
      ensures Valid() && ok == (stream in old(streams))
      ensures forall s :: s in streams <==> s in old(streams) && s != stream
    {
      var copy: seq<Stream> := [];
      ok := false;
      for i := 0 to |streams|
        invariant streams == old(streams)
        invariant ok == (stream in streams[..i])
        invariant forall s :: s in copy <==> s in streams[..i] && s != stream
        invariant forall j, k :: 0 <= j < k < |copy| ==> copy[j] != copy[k]
      {
        if streams[i] == stream {
          ok := true;
        } else {
          assert streams[i] !in streams[..i];
          copy := copy + [streams[i]];
        }
      }
      streams := copy;
    }

    /** Every stream of the set gets the message once. */
    method Write(message: string)
      requires Valid()
      modifies streams
      ensures forall s :: s in streams ==> s.received == old(s.received) + [message]
    {
      for i := 0 to |streams|
        invariant forall j :: 0 <= j < |streams| ==>
                    streams[j].received == if j < i then old(streams[j].received) + [message] else old(streams[j].received)
      {
        streams[i].Write(message);
      }
    }
  }

  // ---- several threads ----

  /** A stream is named by a number; its log is what it has received. */
  datatype Change = Added(stream: nat) | Removed(stream: nat)

  /** Between copying the set and assigning the changed copy. */
  datatype Mutator = Idle | Copied(change: Change, copy: set<nat>)

  /** In the loop of a write, with the streams still to be served. */
  datatype Writer = Ready | Writing(left: set<nat>)

  datatype Begun = Begun(message: string, snapshot: set<nat>)

  /** `begun` records the messages whose writing has begun, each with the streams of
      the set at that moment; `changes` those that have been assigned. */
  datatype State = State(streams: set<nat>, logs: map<nat, seq<string>>, writer: Writer, mutators: seq<Mutator>,
                         begun: seq<Begun>, changes: seq<Change>)

  datatype Event =
    | Copy(i: nat, change: Change) | Assign(i: nat)
    | BeginWrite(message: string) | Deliver(stream: nat) | EndWrite

  function LogOf(logs: map<nat, seq<string>>, x: nat): seq<string> {
    if x in logs then logs[x] else []
  }

  function Changed(streams: set<nat>, c: Change): set<nat> {
    match c
    case Added(x) => streams + {x}
    case Removed(x) => streams - {x}
  }

  /** A statement of one of the threads; None when it is not the thread's next one. */
  function Step(s: State, e: Event): Option<State> {
    match e
    case Copy(i, change) =>
      if i >= |s.mutators| || s.mutators[i] != Idle then None
      else if change.Removed? && change.stream !in s.streams then Some(s)
      else Some(s.(mutators := s.mutators[i := Copied(change, Changed(s.streams, change))]))
    case Assign(i) =>
      if i >= |s.mutators| || s.mutators[i] == Idle then None
      else Some(s.(streams := s.mutators[i].copy, mutators := s.mutators[i := Idle],
                   changes := s.changes + [s.mutators[i].change]))
    case BeginWrite(message) =>
      if s.writer != Ready then None
      else Some(s.(writer := Writing(s.streams), begun := s.begun + [Begun(message, s.streams)]))
    case Deliver(x) =>
      if s.writer == Ready || x !in s.writer.left || s.begun == [] then None
      else Some(s.(writer := Writing(s.writer.left - {x}),
                   logs := s.logs[x := LogOf(s.logs, x) + [s.begun[|s.begun| - 1].message]]))
    case EndWrite =>
      if s.writer == Ready || s.writer.left != {} then None else Some(s.(writer := Ready))
  }

  function Run(s: State, es: seq<Event>): Option<State> {
    if es == [] then Some(s)
    else
      var before := Run(s, es[..|es| - 1]);
      if before.None? then None else Step(before.value, es[|es| - 1])
  }

  function Initial(streams: set<nat>, mutators: nat): State {
    State(streams, map[], Ready, seq(mutators, i => Idle), [], [])
  }

  // ---- every message reaches every stream of its snapshot exactly once ----

  function Expected(begun: seq<Begun>, x: nat): seq<string> {
    if begun == [] then []
    else
      var last := begun[|begun| - 1];
      Expected(begun[..|begun| - 1], x) + (if x in last.snapshot then [last.message] else [])
  }

  /** The message being written counts for the streams that have been served. */
  ghost predicate Served(s: State, x: nat) {
    match s.writer
    case Ready => LogOf(s.logs, x) == Expected(s.begun, x)
    case Writing(left) =>
      s.begun != [] && (x in left ==> x in s.begun[|s.begun| - 1].snapshot)
      && LogOf(s.logs, x) == if x in left then Expected(s.begun[..|s.begun| - 1], x) else Expected(s.begun, x)
  }

  lemma StepServes(s: State, e: Event, x: nat)
    requires Served(s, x) && Step(s, e).Some?
    ensures Served(Step(s, e).value, x)
  {
    if e.BeginWrite? {
      var t := Step(s, e).value;
      assert t.begun[..|s.begun|] == s.begun;
    }
  }

  lemma {:induction false} RunServes(streams: set<nat>, n: nat, es: seq<Event>, x: nat)
    requires Run(Initial(streams, n), es).Some?
    ensures Served(Run(Initial(streams, n), es).value, x)
  {
    hide Step;
    if es != [] {
      RunServes(streams, n, es[..|es| - 1], x);
      StepServes(Run(Initial(streams, n), es[..|es| - 1]).value, es[|es| - 1], x);
    }
  }

  /** Between writes, whatever the other threads do in the meantime, every stream has
      received exactly the messages for whose beginning it was in the set, once each
      and in order. */
  lemma ExactlyOnce(streams: set<nat>, n: nat, es: seq<Event>, x: nat)
    requires Run(Initial(streams, n), es).Some? && Run(Initial(streams, n), es).value.writer == Ready
    ensures var s := Run(Initial(streams, n), es).value;
            LogOf(s.logs, x) == Expected(s.begun, x)
  {
    RunServes(streams, n, es, x);
  }

  // ---- with a single thread that changes the set ----

  function ChangedAll(streams: set<nat>, changes: seq<Change>): set<nat> {
    if changes == [] then streams
    else Changed(ChangedAll(streams, changes[..|changes| - 1]), changes[|changes| - 1])
  }

  /** No change is lost. */
  ghost predicate Linear(streams: set<nat>, s: State) {
    s.streams == ChangedAll(streams, s.changes)
    && |s.mutators| == 1
    && (s.mutators[0].Copied? ==>
          var c := s.mutators[0].change;
          s.mutators[0].copy == Changed(s.streams, c) && (c.Removed? ==> c.stream in s.streams))
  }

  lemma ChangedNext(streams: set<nat>, changes: seq<Change>, c: Change)
    ensures ChangedAll(streams, changes + [c]) == Changed(ChangedAll(streams, changes), c)
  {
    assert (changes + [c])[..|changes|] == changes;
  }

  lemma StepLinear(streams: set<nat>, s: State, e: Event)
    requires Linear(streams, s) && Step(s, e).Some?
    ensures Linear(streams, Step(s, e).value)
  {
    hide ChangedAll, Changed;
    if e.Assign? {
      ChangedNext(streams, s.changes, s.mutators[e.i].change);
    }
  }

  lemma {:induction false} RunLinear(streams: set<nat>, es: seq<Event>)
    requires Run(Initial(streams, 1), es).Some?
    ensures Linear(streams, Run(Initial(streams, 1), es).value)
  {
    hide Step;
    if es != [] {
      RunLinear(streams, es[..|es| - 1]);
      StepLinear(streams, Run(Initial(streams, 1), es[..|es| - 1]).value, es[|es| - 1]);
    }
  }

  /** With two such threads a change can be lost: both copy the same set, and the one
      that assigns last undoes the other. */
  lemma LostUpdate()
    ensures var es := [Copy(0, Added(1)), Copy(1, Added(2)), Assign(0), Assign(1)];
            Run(Initial({}, 2), es).Some?
            && var s := Run(Initial({}, 2), es).value;
               s.streams == {2} && s.changes == [Added(1), Added(2)] && ChangedAll({}, s.changes) == {1, 2}
  {
    var s0 := Initial({}, 2);
    var es := [Copy(0, Added(1)), Copy(1, Added(2)), Assign(0), Assign(1)];
    assert es[..4][..3] == es[..3] && es[..3][..2] == es[..2] && es[..2][..1] == es[..1] && es[..1][..0] == [];
    assert s0.mutators == [Idle, Idle];
    var s1 := Step(s0, es[0]).value;
    var s2 := Step(s1, es[1]).value;
    var s3 := Step(s2, es[2]).value;
    assert Run(s0, es[..1]) == Some(s1);
    assert Run(s0, es[..2]) == Some(s2);
    assert Run(s0, es[..3]) == Some(s3);
    var changes := [Added(1), Added(2)];
    assert changes[..1] == [Added(1)] && changes[..1][..0] == [];
    assert ChangedAll({}, changes[..1]) == {1};
  }

  /** Every copy contains the change it was made for. */
  ghost predicate CopiesChanged(s: State) {
    forall i :: 0 <= i < |s.mutators| && s.mutators[i].Copied? ==>
      s.mutators[i].copy == Changed(s.mutators[i].copy, s.mutators[i].change)
  }

  lemma {:induction false} RunCopies(streams: set<nat>, n: nat, es: seq<Event>)
    requires Run(Initial(streams, n), es).Some?
    ensures CopiesChanged(Run(Initial(streams, n), es).value)
  {
    hide Changed;
    if es != [] {
      RunCopies(streams, n, es[..|es| - 1]);
      StepCopies(Run(Initial(streams, n), es[..|es| - 1]).value, es[|es| - 1]);
    }
  }

  lemma StepCopies(s: State, e: Event)
    requires CopiesChanged(s) && Step(s, e).Some?
    ensures CopiesChanged(Step(s, e).value)
  {
  }

  /** With any number of such threads, an assignment loses nothing iff the set has
      not changed since it was copied, except for the stream in question. */
  lemma AssignmentExactIff(streams: set<nat>, n: nat, es: seq<Event>, i: nat)
    requires Run(Initial(streams, n), es).Some?
    requires var s := Run(Initial(streams, n), es).value;
             i < |s.mutators| && s.mutators[i].Copied? && s.streams == ChangedAll(streams, s.changes)
    ensures var s := Run(Initial(streams, n), es).value;
            var t := Step(s, Assign(i)).value;
            t.streams == ChangedAll(streams, t.changes)
            <==> forall y: nat :: y != s.mutators[i].change.stream ==> (y in s.mutators[i].copy <==> y in s.streams)
  {
    hide Run, Step;
    RunCopies(streams, n, es);
    AssignExact(streams, Run(Initial(streams, n), es).value, i);
  }

  lemma AssignExact(streams: set<nat>, s: State, i: nat)
    requires i < |s.mutators| && s.mutators[i].Copied? && s.streams == ChangedAll(streams, s.changes)
    requires CopiesChanged(s)
    ensures var t := Step(s, Assign(i)).value;
            t.streams == ChangedAll(streams, t.changes)
            <==> forall y: nat :: y != s.mutators[i].change.stream ==> (y in s.mutators[i].copy <==> y in s.streams)
  {
    var t := Step(s, Assign(i)).value;
    var c := s.mutators[i].change;
    assert t.changes[..|s.changes|] == s.changes;
    assert ChangedAll(streams, t.changes) == Changed(s.streams, c);
    SameButOne(s.mutators[i].copy, s.streams, c);
  }

  lemma SameButOne(a: set<nat>, b: set<nat>, c: Change)
    requires a == Changed(a, c)
    ensures a == Changed(b, c) <==> forall y: nat :: y != c.stream ==> (y in a <==> y in b)
  {
    assert c.stream in a <==> c.Added?;
    if forall y: nat :: y != c.stream ==> (y in a <==> y in b) {
      assert forall y: nat :: y in a <==> y in Changed(b, c);
    }
  }

  // ---- a capture stream ----

  /** The stream was not there at first, and is added before it is removed, each at
      most once. */
  ghost predicate Once(changes: seq<Change>, x: nat) {
    forall j, k :: 0 <= j < k < |changes| && changes[j].stream == x && changes[k].stream == x ==>
      changes[j].Added? && changes[k].Removed?
  }

  /** The messages of one contiguous stretch. */
  ghost predicate Stretch(begun: seq<Begun>, x: nat, a: nat, b: nat) {
    a <= b <= |begun| && forall k :: 0 <= k < |begun| ==> (x in begun[k].snapshot <==> a <= k < b)
  }

  ghost predicate Mentions(changes: seq<Change>, c: Change) {
    exists k :: 0 <= k < |changes| && changes[k] == c
  }

  ghost predicate Untouched(changes: seq<Change>, x: nat) {
    forall k :: 0 <= k < |changes| ==> changes[k].stream != x
  }

  ghost predicate Before(s: State, x: nat) {
    x !in s.streams && Untouched(s.changes, x) && Stretch(s.begun, x, |s.begun|, |s.begun|)
  }

  ghost predicate During(s: State, x: nat) {
    x in s.streams && Mentions(s.changes, Added(x)) && exists a: nat :: Stretch(s.begun, x, a, |s.begun|)
  }

  ghost predicate After(s: State, x: nat) {
    x !in s.streams && Mentions(s.changes, Removed(x)) && exists a: nat, b: nat :: Stretch(s.begun, x, a, b)
  }

  /** Before, during and after the stream's time in the set. */
  ghost predicate Phase(s: State, x: nat) {
    Before(s, x) || During(s, x) || After(s, x)
  }

  lemma StretchNext(begun: seq<Begun>, x: nat, a: nat, b: nat, next: Begun)
    requires Stretch(begun, x, a, b)
    ensures x !in next.snapshot ==> Stretch(begun + [next], x, a, b)
    ensures x in next.snapshot && b == |begun| ==> Stretch(begun + [next], x, a, b + 1)
    ensures x !in next.snapshot && b == |begun| && a == b ==> Stretch(begun + [next], x, a + 1, b + 1)
  {
  }

  lemma BeginPhase(s: State, e: Event, x: nat)
    requires Phase(s, x) && e.BeginWrite? && Step(s, e).Some?
    ensures Phase(Step(s, e).value, x)
  {
    var next := Begun(e.message, s.streams);
    if Before(s, x) {
      StretchNext(s.begun, x, |s.begun|, |s.begun|, next);
    } else if During(s, x) {
      var a: nat :| Stretch(s.begun, x, a, |s.begun|);
      StretchNext(s.begun, x, a, |s.begun|, next);
    } else {
      var a: nat, b: nat :| Stretch(s.begun, x, a, b);
      StretchNext(s.begun, x, a, b, next);
    }
  }

  lemma MentionsNext(changes: seq<Change>, next: Change, c: Change)
    requires Mentions(changes, c) || next == c
    ensures Mentions(changes + [next], c)
  {
    if next == c {
      assert (changes + [next])[|changes|] == c;
    } else {
      var k :| 0 <= k < |changes| && changes[k] == c;
      assert (changes + [next])[k] == c;
    }
  }

  /** A second change of a stream can only be its removal after its addition. */
  lemma OnceNext(changes: seq<Change>, next: Change, x: nat)
    requires Once(changes + [next], x) && next.stream == x
    ensures !Mentions(changes, Removed(x)) && (Mentions(changes, Added(x)) ==> next.Removed?)
    ensures Once(changes, x)
  {
    var all := changes + [next];
    assert forall k :: 0 <= k < |changes| ==> all[k] == changes[k];
    assert all[|changes|] == next;
  }

  lemma AssignPhase(streams: set<nat>, s: State, e: Event, x: nat)
    requires Linear(streams, s) && Phase(s, x) && e.Assign? && Step(s, e).Some?
    requires Once(Step(s, e).value.changes, x)
    ensures Phase(Step(s, e).value, x)
  {
    var c := s.mutators[0].change;
    var t := Step(s, e).value;
    if Mentions(s.changes, Added(x)) { MentionsNext(s.changes, c, Added(x)); }
    if Mentions(s.changes, Removed(x)) { MentionsNext(s.changes, c, Removed(x)); }
    MentionsNext(s.changes, c, c);
    if c.stream == x {
      OnceNext(s.changes, c, x);
      if c.Added? {
        assert Before(s, x) && During(t, x);
      } else {
        assert During(s, x) && After(t, x);
      }
    }
  }

  lemma StepPhase(streams: set<nat>, s: State, e: Event, x: nat)
    requires Linear(streams, s) && Phase(s, x) && Step(s, e).Some?
    requires Once(Step(s, e).value.changes, x)
    ensures Phase(Step(s, e).value, x)
  {
    if e.BeginWrite? {
      BeginPhase(s, e, x);
    } else if e.Assign? {
      AssignPhase(streams, s, e, x);
    }
  }

  lemma OnceBefore(s: State, e: Event, x: nat)
    requires Step(s, e).Some? && Once(Step(s, e).value.changes, x)
    ensures Once(s.changes, x)
  {
    var t := Step(s, e).value;
    assert forall k :: 0 <= k < |s.changes| ==> t.changes[k] == s.changes[k];
  }

  lemma {:induction false} RunPhase(streams: set<nat>, es: seq<Event>, x: nat)
    requires x !in streams && Run(Initial(streams, 1), es).Some?
    requires Once(Run(Initial(streams, 1), es).value.changes, x)
    ensures Phase(Run(Initial(streams, 1), es).value, x)
  {
    hide Step, Once, Phase, Linear;
    if es == [] {
      InitialPhase(streams, x);
    } else {
      var before := Run(Initial(streams, 1), es[..|es| - 1]).value;
      OnceBefore(before, es[|es| - 1], x);
      RunPhase(streams, es[..|es| - 1], x);
      RunLinear(streams, es[..|es| - 1]);
      StepPhase(streams, before, es[|es| - 1], x);
    }
  }

  lemma InitialPhase(streams: set<nat>, x: nat)
    requires x !in streams
    ensures Phase(Initial(streams, 1), x)
  {
    assert Before(Initial(streams, 1), x);
  }

  function Messages(begun: seq<Begun>): (ms: seq<string>)
    ensures |ms| == |begun| && forall k :: 0 <= k < |begun| ==> ms[k] == begun[k].message
  {
    seq(|begun|, k requires 0 <= k < |begun| => begun[k].message)
  }

  lemma MessagesNext(begun: seq<Begun>, a: nat)
    requires a < |begun|
    ensures var n := |begun| - 1;
            Messages(begun[a..]) == Messages(begun[..n][a..]) + [begun[n].message]
  {
    var n := |begun| - 1;
    assert begun[a..] == begun[..n][a..] + [begun[n]];
  }

  lemma StretchInit(begun: seq<Begun>, x: nat, a: nat, b: nat)
    requires begun != [] && Stretch(begun, x, a, b)
    ensures var n := |begun| - 1;
            (x in begun[n].snapshot ==> a <= n && b == n + 1 && Stretch(begun[..n], x, a, n))
            && (x !in begun[n].snapshot ==> Stretch(begun[..n], x, if a == b then 0 else a, if a == b then 0 else b))
  {
  }

  lemma {:induction false} StretchExpected(begun: seq<Begun>, x: nat, a: nat, b: nat)
    requires Stretch(begun, x, a, b)
    ensures a <= b <= |begun| && Expected(begun, x) == Messages(begun[a..b])
  {
    hide Messages;
    if begun == [] {
      assert begun[a..b] == [];
      NoMessages();
    } else {
      var n := |begun| - 1;
      StretchInit(begun, x, a, b);
      hide Stretch;
      if x in begun[n].snapshot {
        StretchExpected(begun[..n], x, a, n);
        assert begun[a..b] == begun[a..] && begun[..n][a..n] == begun[..n][a..];
        MessagesNext(begun, a);
      } else if a == b {
        StretchExpected(begun[..n], x, 0, 0);
        assert begun[a..b] == begun[..n][0..0];
      } else {
        StretchExpected(begun[..n], x, a, b);
        assert begun[a..b] == begun[..n][a..b];
      }
    }
  }

  lemma NoMessages()
    ensures Messages([]) == []
  {
  }

  /** A stream that one thread adds once and removes at most once receives, at the end
      of any write, exactly a contiguous stretch of the messages in their order: those
      begun while it was in the set. */
  lemma CaptureIsContiguous(streams: set<nat>, es: seq<Event>, x: nat)
    requires x !in streams && Run(Initial(streams, 1), es).Some?
    requires var s := Run(Initial(streams, 1), es).value;
             s.writer == Ready && Once(s.changes, x)
    ensures var s := Run(Initial(streams, 1), es).value;
            exists a: nat, b: nat :: Stretch(s.begun, x, a, b) && LogOf(s.logs, x) == Messages(s.begun[a..b])
                                     && (x in s.streams ==> b == |s.begun|)
  {
    hide Run, Once;
    RunPhase(streams, es, x);
    ExactlyOnce(streams, 1, es, x);
    var s := Run(Initial(streams, 1), es).value;
    var a: nat, b: nat :| Stretch(s.begun, x, a, b) && (x in s.streams ==> b == |s.begun|);
    StretchExpected(s.begun, x, a, b);
  }
}
