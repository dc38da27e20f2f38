/** The packet filter of one host under concurrency: the test itself and the shells
    that it leaves running in the background for timed blocks, interleaved command
    by command. */
module FirewallRuns {
  import opened Wrappers
  import opened Firewall

  // ---- programs ----

  /** A command, or the start of a background shell together with the rules that the
      shell takes over and will delete. */
  datatype Task = Do(command: Command) | Spawn(job: seq<Task>, taken: multiset<Rule>)

  datatype Thread = Thread(program: seq<Task>, start: multiset<Rule>, done: nat)

  datatype State = State(chains: Chains, threads: seq<Thread>, failed: bool)

  /** The rules that a thread has put in, or taken over, and not taken out again. */
  function Effect(held: multiset<Rule>, t: Task): multiset<Rule> {
    match t
    case Do(c) => if c.action == Delete then held - multiset{c.rule} else held + multiset{c.rule}
    case Spawn(_, taken) => held - taken
  }

  function Held(start: multiset<Rule>, done: seq<Task>): multiset<Rule> {
    if done == [] then start else Effect(Held(start, done[..|done| - 1]), done[|done| - 1])
  }

  /** A thread that deletes and hands over only what it holds. */
  ghost predicate Owns(start: multiset<Rule>, program: seq<Task>) {
    forall k :: 0 <= k < |program| ==> Allowed(Held(start, program[..k]), program[k])
  }

  ghost predicate Allowed(held: multiset<Rule>, t: Task)
    decreases t, 0
  {
    match t
    case Do(c) => c.action == Delete ==> c.rule in held
    case Spawn(job, taken) => taken <= held && OwnsJob(taken, job)
  }

  /** Owns, for the program of a background shell, which starts no others and in the
      end holds nothing. */
  ghost predicate OwnsJob(start: multiset<Rule>, job: seq<Task>)
  {
    Held(start, job) == multiset{}
    && forall k :: 0 <= k < |job| ==>
      job[k].Do? && (job[k].command.action == Delete ==> job[k].command.rule in Held(start, job[..k]))
  }

  // ---- steps ----

  predicate Enabled(s: State, i: nat) {
    i < |s.threads| && s.threads[i].done < |s.threads[i].program|
  }

  /** Thread i runs its next task.  A command that fails raises in the test and is
      ignored in a shell. */
  function Step(s: State, i: nat): State
    requires Enabled(s, i)
  {
    var t := s.threads[i];
    var threads := s.threads[i := t.(done := t.done + 1)];
    match t.program[t.done]
    case Do(c) =>
      var next := Execute(s.chains, c);
      if next.Some? then State(next.value, threads, s.failed) else State(s.chains, threads, true)
    case Spawn(job, taken) => State(s.chains, threads + [Thread(job, taken, 0)], s.failed)
  }

  /** Running the threads in the order of a schedule; None when it names a thread that
      has nothing to do. */
  function Run(s: State, schedule: seq<nat>): Option<State> {
    if schedule == [] then Some(s)
    else
      var before := Run(s, schedule[..|schedule| - 1]);
      var i := schedule[|schedule| - 1];
      if before.None? || !Enabled(before.value, i) then None else Some(Step(before.value, i))
  }

  // ---- the invariant ----

  function HeldBy(t: Thread): multiset<Rule> {
    Held(t.start, if t.done <= |t.program| then t.program[..t.done] else t.program)
  }

  function HeldByAll(threads: seq<Thread>): multiset<Rule> {
    if threads == [] then multiset{} else HeldByAll(threads[..|threads| - 1]) + HeldBy(threads[|threads| - 1])
  }

  /** The chains hold exactly what the threads together hold, and nothing failed. */
  ghost predicate Inv(s: State) {
    !s.failed && WellPlaced(s.chains) && Contents(s.chains) == HeldByAll(s.threads)
    && (forall i :: 0 <= i < |s.threads| ==> Sound(s.threads[i]))
    && (forall i :: 1 <= i < |s.threads| ==> CleansUp(s.threads[i]))
  }

  ghost predicate Sound(t: Thread) {
    t.done <= |t.program| && Owns(t.start, t.program)
  }

  ghost predicate CleansUp(t: Thread) {
    Held(t.start, t.program) == multiset{}
  }

  lemma {:induction false} HeldByAllUpdate(threads: seq<Thread>, i: nat, t: Thread)
    requires i < |threads|
    ensures HeldBy(threads[i]) <= HeldByAll(threads)
    ensures HeldByAll(threads[i := t]) == HeldByAll(threads) - HeldBy(threads[i]) + HeldBy(t)
  {
    hide HeldBy;
    var n := |threads| - 1;
    if i == n {
      assert threads[i := t][..n] == threads[..n];
    } else {
      assert threads[i := t][..n] == threads[..n][i := t];
      HeldByAllUpdate(threads[..n], i, t);
    }
  }

  lemma HeldByNext(t: Thread)
    requires t.done < |t.program|
    ensures HeldBy(t.(done := t.done + 1)) == Effect(HeldBy(t), t.program[t.done])
    ensures Owns(t.start, t.program) ==> Allowed(HeldBy(t), t.program[t.done])
  {
    assert t.program[..t.done + 1][..t.done] == t.program[..t.done];
  }

  lemma JobOwns(start: multiset<Rule>, job: seq<Task>)
    requires OwnsJob(start, job)
    ensures Owns(start, job)
  {
  }

  lemma NewShell(threads: seq<Thread>, job: seq<Task>, taken: multiset<Rule>)
    requires OwnsJob(taken, job)
    ensures var t := Thread(job, taken, 0);
            Sound(t) && CleansUp(t) && HeldByAll(threads + [t]) == HeldByAll(threads) + taken
  {
    var t := Thread(job, taken, 0);
    assert (threads + [t])[..|threads|] == threads;
    JobOwns(taken, job);
    assert HeldBy(t) == taken;
  }

  lemma DoKeeps(s: State, i: nat, c: Command)
    requires Inv(s) && Enabled(s, i) && s.threads[i].program[s.threads[i].done] == Do(c)
    ensures Inv(Step(s, i))
  {
    hide HeldByAll, HeldBy, Owns, Held, Contents, WellPlaced, Execute, OwnsJob;
    var t := s.threads[i];
    var next := t.(done := t.done + 1);
    assert Sound(t) && (i > 0 ==> CleansUp(t));
    HeldByNext(t);
    HeldByAllUpdate(s.threads, i, next);
    ExecuteContents(s.chains, c);
  }

  lemma SpawnKeeps(s: State, i: nat, job: seq<Task>, taken: multiset<Rule>)
    requires Inv(s) && Enabled(s, i) && s.threads[i].program[s.threads[i].done] == Spawn(job, taken)
    ensures Inv(Step(s, i))
  {
    hide HeldByAll, HeldBy, Owns, Held, Contents, WellPlaced, OwnsJob;
    var t := s.threads[i];
    var next := t.(done := t.done + 1);
    assert Sound(t) && (i > 0 ==> CleansUp(t));
    HeldByNext(t);
    HeldByAllUpdate(s.threads, i, next);
    NewShell(s.threads[i := next], job, taken);
  }

  /** A step keeps the invariant: in particular no command ever fails. */
  lemma StepKeeps(s: State, i: nat)
    requires Inv(s) && Enabled(s, i)
    ensures Inv(Step(s, i))
  {
    hide Inv, Step;
    match s.threads[i].program[s.threads[i].done]
    case Do(c) => DoKeeps(s, i, c);
    case Spawn(job, taken) => SpawnKeeps(s, i, job, taken);
  }

  lemma StepKeepsFirst(s: State, i: nat)
    requires Enabled(s, i)
    ensures var t := Step(s, i);
            t.threads != [] && t.threads[0].program == s.threads[0].program && t.threads[0].start == s.threads[0].start
  {
  }

  lemma {:induction false} RunKeeps(s: State, schedule: seq<nat>)
    requires Inv(s) && s.threads != [] && Run(s, schedule).Some?
    ensures var t := Run(s, schedule).value;
            Inv(t) && t.threads != []
            && t.threads[0].program == s.threads[0].program && t.threads[0].start == s.threads[0].start
  {
    hide Inv, Step, Enabled;
    if schedule != [] {
      var n := |schedule| - 1;
      RunKeeps(s, schedule[..n]);
      StepKeeps(Run(s, schedule[..n]).value, schedule[n]);
      StepKeepsFirst(Run(s, schedule[..n]).value, schedule[n]);
    }
  }

  // ---- what a test does ----

  datatype Op = Block(block: Block) | Unblock(block: Block) | Timed(block: Block)

  function Dos(commands: seq<Command>): (ts: seq<Task>)
    ensures |ts| == |commands| && forall k :: 0 <= k < |commands| ==> ts[k] == Do(commands[k])
  {
    seq(|commands|, k requires 0 <= k < |commands| => Do(commands[k]))
  }

  function Adding(b: Block): seq<Task> {
    Dos(BlockCommands(b))
  }

  function Deleting(b: Block): seq<Task> {
    Dos(UnblockCommands(b))
  }

  /** For a limited time a path is blocked and unblocked by the shell; packets are
      blocked by the test and unblocked by the shell. */
  function Tasks(op: Op): seq<Task> {
    match op
    case Block(b) => Adding(b)
    case Unblock(b) => Deleting(b)
    case Timed(b) =>
      if b.Path? then [Spawn(Adding(b) + Deleting(b), multiset{})]
      else Adding(b) + [Spawn(Deleting(b), multiset(Rules(b)))]
  }

  function Program(ops: seq<Op>): seq<Task> {
    if ops == [] then [] else Program(ops[..|ops| - 1]) + Tasks(ops[|ops| - 1])
  }

  function WithoutOne(blocks: seq<Block>, b: Block): seq<Block> {
    if blocks == [] then []
    else if blocks[|blocks| - 1] == b then blocks[..|blocks| - 1]
    else WithoutOne(blocks[..|blocks| - 1], b) + [blocks[|blocks| - 1]]
  }

  /** The blocks without a time limit that the test has made and not removed. */
  function Outstanding(ops: seq<Op>): seq<Block> {
    if ops == [] then []
    else
      var before := Outstanding(ops[..|ops| - 1]);
      match ops[|ops| - 1]
      case Block(b) => before + [b]
      case Unblock(b) => WithoutOne(before, b)
      case Timed(_) => before
  }

  /** The test unblocks only what it has blocked. */
  ghost predicate Disciplined(ops: seq<Op>) {
    forall k :: 0 <= k < |ops| && ops[k].Unblock? ==> ops[k].block in Outstanding(ops[..k])
  }

  lemma {:induction false} HeldSum(start: multiset<Rule>, p: seq<Task>, q: seq<Task>)
    ensures Held(start, p + q) == Held(Held(start, p), q)
  {
    if q == [] {
      assert p + q == p;
    } else {
      var n := |q| - 1;
      assert (p + q)[..|p + q| - 1] == p + q[..n];
      HeldSum(start, p, q[..n]);
    }
  }

  lemma OwnsSum(start: multiset<Rule>, p: seq<Task>, q: seq<Task>)
    requires Owns(start, p) && Owns(Held(start, p), q)
    ensures Owns(start, p + q)
  {
    hide Allowed, Held;
    forall k | 0 <= k < |p + q|
      ensures Allowed(Held(start, (p + q)[..k]), (p + q)[k])
    {
      if k < |p| {
        assert (p + q)[..k] == p[..k];
      } else {
        assert (p + q)[..k] == p + q[..k - |p|];
        HeldSum(start, p, q[..k - |p|]);
      }
    }
  }

  lemma {:induction false} AddingHeld(start: multiset<Rule>, action: Action, rules: seq<Rule>)
    requires action != Delete
    ensures Held(start, Dos(Commands(action, rules))) == start + multiset(rules)
  {
    var tasks := Dos(Commands(action, rules));
    if rules != [] {
      var n := |rules| - 1;
      assert tasks[..n] == Dos(Commands(action, rules[..n]));
      AddingHeld(start, action, rules[..n]);
      assert rules == rules[..n] + [rules[n]];
    }
  }

  lemma {:induction false} DeletingHeld(start: multiset<Rule>, rules: seq<Rule>)
    requires multiset(rules) <= start
    ensures Held(start, Dos(Commands(Delete, rules))) == start - multiset(rules)
  {
    var tasks := Dos(Commands(Delete, rules));
    if rules != [] {
      var n := |rules| - 1;
      assert rules == rules[..n] + [rules[n]];
      assert tasks[..n] == Dos(Commands(Delete, rules[..n]));
      DeletingHeld(start, rules[..n]);
    }
  }

  lemma DeletingOwns(start: multiset<Rule>, rules: seq<Rule>)
    requires multiset(rules) <= start
    ensures Owns(start, Dos(Commands(Delete, rules)))
  {
    var tasks := Dos(Commands(Delete, rules));
    forall k | 0 <= k < |tasks|
      ensures Allowed(Held(start, tasks[..k]), tasks[k])
    {
      DeletableAt(start, rules, k);
    }
  }

  lemma DeletableAt(start: multiset<Rule>, rules: seq<Rule>, k: nat)
    requires multiset(rules) <= start && k < |rules|
    ensures rules[k] in Held(start, Dos(Commands(Delete, rules))[..k])
  {
    assert rules == rules[..k] + [rules[k]] + rules[k + 1..];
    assert Dos(Commands(Delete, rules))[..k] == Dos(Commands(Delete, rules[..k]));
    DeletingHeld(start, rules[..k]);
  }

  /** Making a block. */
  lemma AddingBlock(start: multiset<Rule>, b: Block)
    ensures Held(start, Adding(b)) == start + multiset(Rules(b)) && Owns(start, Adding(b))
  {
    hide Rules, Held;
    AddingHeld(start, if b.Path? then Insert else Append, Rules(b));
  }

  lemma DeletingBlock(start: multiset<Rule>, b: Block)
    requires multiset(Rules(b)) <= start
    ensures Held(start, Deleting(b)) == start - multiset(Rules(b)) && Owns(start, Deleting(b))
  {
    hide Rules, Held, Owns;
    DeletingHeld(start, Rules(b));
    DeletingOwns(start, Rules(b));
  }

  lemma OwnsIsJob(start: multiset<Rule>, job: seq<Task>)
    requires Owns(start, job) && Held(start, job) == multiset{} && forall k :: 0 <= k < |job| ==> job[k].Do?
    ensures OwnsJob(start, job)
  {
    hide Held;
    assert forall k :: 0 <= k < |job| ==> Allowed(Held(start, job[..k]), job[k]);
  }

  /** The shells of timed blocks own what they delete and clean up. */
  lemma ShellsOwn(b: Block)
    ensures OwnsJob(multiset{}, Adding(b) + Deleting(b))
    ensures OwnsJob(multiset(Rules(b)), Deleting(b))
  {
    hide Rules, Held, Owns, OwnsJob;
    var none: multiset<Rule> := multiset{};
    AddingBlock(none, b);
    assert none + multiset(Rules(b)) == multiset(Rules(b));
    DeletingBlock(multiset(Rules(b)), b);
    HeldSum(none, Adding(b), Deleting(b));
    OwnsSum(none, Adding(b), Deleting(b));
    OwnsIsJob(none, Adding(b) + Deleting(b));
    OwnsIsJob(multiset(Rules(b)), Deleting(b));
  }

  lemma OneTask(held: multiset<Rule>, t: Task)
    requires Allowed(held, t)
    ensures Held(held, [t]) == Effect(held, t) && Owns(held, [t])
  {
    assert [t][..0] == [];
  }

  lemma TimedHeld(start: multiset<Rule>, b: Block)
    ensures Held(start, Tasks(Timed(b))) == start && Owns(start, Tasks(Timed(b)))
  {
    hide Rules, Held, Owns, OwnsJob;
    ShellsOwn(b);
    if b.Path? {
      OneTask(start, Spawn(Adding(b) + Deleting(b), multiset{}));
    } else {
      AddingBlock(start, b);
      var held := start + multiset(Rules(b));
      var t := Spawn(Deleting(b), multiset(Rules(b)));
      OneTask(held, t);
      HeldSum(start, Adding(b), [t]);
      OwnsSum(start, Adding(b), [t]);
    }
  }

  lemma AllRulesLast(blocks: seq<Block>)
    requires blocks != []
    ensures var n := |blocks| - 1;
            AllRules(blocks) == AllRules(blocks[..n]) + multiset(Rules(blocks[n]))
  {
  }

  lemma TakeOut(all: multiset<Rule>, some: multiset<Rule>, more: multiset<Rule>)
    requires some <= all
    ensures some <= all + more && (all + more) - some == (all - some) + more
  {
  }

  lemma {:induction false} AllRulesWithout(blocks: seq<Block>, b: Block)
    requires b in blocks
    ensures multiset(Rules(b)) <= AllRules(blocks)
    ensures AllRules(WithoutOne(blocks, b)) == AllRules(blocks) - multiset(Rules(b))
  {
    hide Rules, AllRules;
    var n := |blocks| - 1;
    AllRulesLast(blocks);
    if blocks[n] != b {
      var rest := WithoutOne(blocks[..n], b);
      AllRulesWithout(blocks[..n], b);
      AllRulesLast(rest + [blocks[n]]);
      assert (rest + [blocks[n]])[..|rest|] == rest;
      TakeOut(AllRules(blocks[..n]), multiset(Rules(b)), multiset(Rules(blocks[n])));
    }
  }

  /** What the program of a test holds after its operations: the rules of the blocks
      that are outstanding. */
  lemma {:induction false} ProgramHeld(ops: seq<Op>)
    requires Disciplined(ops)
    ensures Held(multiset{}, Program(ops)) == AllRules(Outstanding(ops))
    ensures Owns(multiset{}, Program(ops))
  {
    hide Rules, Held, Owns, OwnsJob, Adding, Deleting;
    var none: multiset<Rule> := multiset{};
    if ops == [] {
      EmptyProgram();
    } else {
      var n := |ops| - 1;
      assert forall k :: 0 <= k < n ==> ops[..n][k] == ops[k] && ops[..n][..k] == ops[..k];
      ProgramHeld(ops[..n]);
      OpHeld(Outstanding(ops[..n]), ops[n]);
      HeldSum(none, Program(ops[..n]), Tasks(ops[n]));
      OwnsSum(none, Program(ops[..n]), Tasks(ops[n]));
      assert ops[..n] + [ops[n]] == ops;
    }
  }

  lemma EmptyProgram()
    ensures Held(multiset{}, []) == multiset{} && Owns(multiset{}, [])
  {
  }

  lemma OpHeld(blocks: seq<Block>, op: Op)
    requires op.Unblock? ==> op.block in blocks
    ensures var after := match op
                         case Block(b) => blocks + [b]
                         case Unblock(b) => WithoutOne(blocks, b)
                         case Timed(_) => blocks;
            Held(AllRules(blocks), Tasks(op)) == AllRules(after) && Owns(AllRules(blocks), Tasks(op))
  {
    hide Rules, Held, Owns, OwnsJob, Adding, Deleting;
    match op
    case Block(b) =>
      AddingBlock(AllRules(blocks), b);
      assert (blocks + [b])[..|blocks|] == blocks;
    case Unblock(b) =>
      AllRulesWithout(blocks, b);
      DeletingBlock(AllRules(blocks), b);
    case Timed(b) => TimedHeld(AllRules(blocks), b);
  }

  // ---- every run ----

  /** The host with empty chains and a test that is about to begin. */
  function Begin(ops: seq<Op>): State {
    State(Chains([], []), [Thread(Program(ops), multiset{}, 0)], false)
  }

  lemma BeginInv(ops: seq<Op>)
    requires Disciplined(ops)
    ensures Inv(Begin(ops))
  {
    hide Owns;
    ProgramHeld(ops);
    var t := Begin(ops).threads[0];
    assert HeldByAll([]) == multiset{};
    assert HeldByAll([t]) == HeldBy(t) by { assert [t][..0] == []; }
    assert t.program[..0] == [];
  }

  /** However a disciplined test and its background shells interleave, no command
      fails, and the chains hold exactly what the threads hold. */
  lemma NothingFails(ops: seq<Op>, schedule: seq<nat>)
    requires Disciplined(ops) && Run(Begin(ops), schedule).Some?
    ensures Inv(Run(Begin(ops), schedule).value)
  {
    hide Inv;
    BeginInv(ops);
    RunKeeps(Begin(ops), schedule);
  }

  ghost predicate Finished(t: Thread) {
    t.done == |t.program|
  }

  lemma FinishedHeld(t: Thread)
    requires Finished(t)
    ensures HeldBy(t) == Held(t.start, t.program)
  {
    assert t.program[..t.done] == t.program;
  }

  lemma {:induction false} OnlyFirstHolds(threads: seq<Thread>)
    requires threads != [] && forall i :: 1 <= i < |threads| ==> HeldBy(threads[i]) == multiset{}
    ensures HeldByAll(threads) == HeldBy(threads[0])
  {
    var n := |threads| - 1;
    if n > 0 {
      OnlyFirstHolds(threads[..n]);
    } else {
      assert threads[..n] == [];
    }
  }

  lemma EmptyChains(c: Chains)
    requires Contents(c) == multiset{}
    ensures c == Chains([], [])
  {
    assert |multiset(c.output)| <= |Contents(c)| && |multiset(c.input)| <= |Contents(c)|;
  }

  ghost predicate AllFinished(s: State) {
    forall i :: 0 <= i < |s.threads| ==> Finished(s.threads[i])
  }

  /** A run that has finished leaves the rules of the blocks still outstanding, and
      nothing at all when every block was removed or timed. */
  lemma RunLeaves(ops: seq<Op>, schedule: seq<nat>)
    requires Disciplined(ops) && Run(Begin(ops), schedule).Some?
    requires AllFinished(Run(Begin(ops), schedule).value)
    ensures var end := Run(Begin(ops), schedule).value.chains;
            Contents(end) == AllRules(Outstanding(ops)) && (Outstanding(ops) == [] ==> end == Chains([], []))
  {
    hide Inv, Contents, Held, Owns, AllRules, Run, Program;
    BeginInv(ops);
    RunKeeps(Begin(ops), schedule);
    var end := Run(Begin(ops), schedule).value;
    ProgramHeld(ops);
    EndContents(end);
    if Outstanding(ops) == [] {
      NoRules();
      EmptyChains(end.chains);
    }
  }

  lemma NoRules()
    ensures AllRules([]) == multiset{}
  {
  }

  lemma EndContents(s: State)
    requires Inv(s) && s.threads != [] && AllFinished(s)
    ensures Contents(s.chains) == Held(s.threads[0].start, s.threads[0].program)
  {
    hide HeldBy, HeldByAll, Held, Contents;
    forall i | 0 <= i < |s.threads|
      ensures HeldBy(s.threads[i]) == Held(s.threads[i].start, s.threads[i].program)
    {
      FinishedHeld(s.threads[i]);
    }
    OnlyFirstHolds(s.threads);
  }

  // ---- who is blocked right now ----

  /** A thread between its operations: it holds exactly the rules of some blocks. */
  ghost predicate Steady(t: Thread, blocks: seq<Block>) {
    HeldBy(t) == AllRules(blocks)
  }

  lemma {:induction false} AllRulesSum(a: seq<Block>, b: seq<Block>)
    ensures AllRules(a + b) == AllRules(a) + AllRules(b)
  {
    hide Rules;
    if b == [] {
      assert a + b == a;
    } else {
      var n := |b| - 1;
      assert (a + b)[..|a + b| - 1] == a + b[..n];
      AllRulesSum(a, b[..n]);
    }
  }

  /** The test, after its first k operations, holds the blocks outstanding then. */
  lemma TestSteady(ops: seq<Op>, k: nat, t: Thread)
    requires Disciplined(ops) && k <= |ops|
    requires t == Thread(Program(ops), multiset{}, |Program(ops[..k])|) && t.done <= |t.program|
    ensures Steady(t, Outstanding(ops[..k]))
  {
    hide Held, AllRules, Owns, Program, Disciplined;
    ProgramPrefix(ops, k);
    DisciplinedPrefix(ops, k);
    ProgramHeld(ops[..k]);
  }

  lemma DisciplinedPrefix(ops: seq<Op>, k: nat)
    requires Disciplined(ops) && k <= |ops|
    ensures Disciplined(ops[..k])
  {
    hide Outstanding;
    assert forall j :: 0 <= j < k ==> ops[..k][j] == ops[j] && ops[..k][..j] == ops[..j];
  }

  lemma {:induction false} ProgramPrefix(ops: seq<Op>, k: nat)
    requires k <= |ops|
    ensures |Program(ops[..k])| <= |Program(ops)| && Program(ops)[..|Program(ops[..k])|] == Program(ops[..k])
  {
    hide Tasks;
    if k == |ops| {
      assert ops[..k] == ops;
    } else {
      var n := |ops| - 1;
      assert ops[..n][..k] == ops[..k];
      ProgramPrefix(ops[..n], k);
    }
  }

  /** The shell of a timed path block holds the block while it sleeps, and nothing
      before and after. */
  lemma PathShellSteady(b: Block, done: nat)
    requires done <= 2 * |Rules(b)|
    ensures var t := Thread(Adding(b) + Deleting(b), multiset{}, done);
            (done == 0 || done == |t.program| ==> Steady(t, [])) && (done == |Rules(b)| ==> Steady(t, [b]))
  {
    hide Rules, Held, Owns, OwnsJob;
    var t := Thread(Adding(b) + Deleting(b), multiset{}, done);
    ShellsOwn(b);
    ShellEnds(multiset{}, t.program);
    NoRules();
    OneBlock(b);
    if done == 0 {
      assert t.program[..0] == [];
      EmptyProgram();
    } else if done == |t.program| {
      assert t.program[..done] == t.program;
    } else if done == |Rules(b)| {
      assert t.program[..done] == Adding(b);
      AddingBlock(multiset{}, b);
    }
  }

  /** The shell of a timed packet block holds the block from the start until it has
      deleted it. */
  lemma PacketShellSteady(b: Block, done: nat)
    requires done <= |Rules(b)|
    ensures var t := Thread(Deleting(b), multiset(Rules(b)), done);
            (done == 0 ==> Steady(t, [b])) && (done == |Rules(b)| ==> Steady(t, []))
  {
    hide Rules, Held, Owns, OwnsJob;
    var t := Thread(Deleting(b), multiset(Rules(b)), done);
    ShellsOwn(b);
    ShellEnds(multiset(Rules(b)), t.program);
    NoRules();
    OneBlock(b);
    if done == |Rules(b)| {
      assert t.program[..done] == t.program;
    }
    if done == 0 {
      assert t.program[..0] == [];
      NothingDone(multiset(Rules(b)));
    }
  }

  lemma NothingDone(start: multiset<Rule>)
    ensures Held(start, []) == start
  {
  }

  lemma ShellEnds(start: multiset<Rule>, job: seq<Task>)
    requires OwnsJob(start, job)
    ensures Held(start, job) == multiset{}
  {
  }

  lemma OneBlock(b: Block)
    ensures AllRules([b]) == multiset(Rules(b))
  {
    hide Rules;
    assert [b][..0] == [];
    assert AllRules([]) == multiset{};
  }

  // ---- the shells of a run ----

  /** The timed blocks, in the order in which their shells are started. */
  function Timers(ops: seq<Op>): seq<Block> {
    if ops == [] then []
    else Timers(ops[..|ops| - 1]) + (if ops[|ops| - 1].Timed? then [ops[|ops| - 1].block] else [])
  }

  function ShellOf(b: Block): Task {
    if b.Path? then Spawn(Adding(b) + Deleting(b), multiset{}) else Spawn(Deleting(b), multiset(Rules(b)))
  }

  function ShellsOf(blocks: seq<Block>): (ts: seq<Task>)
    ensures |ts| == |blocks| && forall k :: 0 <= k < |blocks| ==> ts[k] == ShellOf(blocks[k])
  {
    seq(|blocks|, k requires 0 <= k < |blocks| => ShellOf(blocks[k]))
  }

  /** The shells that some tasks start, in order. */
  function Started(tasks: seq<Task>): seq<Task> {
    if tasks == [] then []
    else Started(tasks[..|tasks| - 1]) + (if tasks[|tasks| - 1].Spawn? then [tasks[|tasks| - 1]] else [])
  }

  lemma {:induction false} StartedSum(p: seq<Task>, q: seq<Task>)
    ensures Started(p + q) == Started(p) + Started(q)
  {
    if q == [] {
      assert p + q == p;
    } else {
      var n := |q| - 1;
      assert (p + q)[..|p + q| - 1] == p + q[..n];
      StartedSum(p, q[..n]);
    }
  }

  lemma {:induction false} StartedNone(tasks: seq<Task>)
    requires forall k :: 0 <= k < |tasks| ==> tasks[k].Do?
    ensures Started(tasks) == []
  {
    if tasks != [] {
      StartedNone(tasks[..|tasks| - 1]);
    }
  }

  lemma StartedByOp(op: Op)
    ensures Started(Tasks(op)) == if op.Timed? then [ShellOf(op.block)] else []
  {
    hide Rules;
    StartedNone(Adding(op.block));
    StartedNone(Deleting(op.block));
    if op.Timed? {
      var shell := [ShellOf(op.block)];
      assert shell[..0] == [];
      assert Started(shell) == shell;
      StartedSum(Adding(op.block), shell);
    }
  }

  /** A program starts exactly the shells of its timed blocks. */
  lemma {:induction false} StartedByProgram(ops: seq<Op>)
    ensures Started(Program(ops)) == ShellsOf(Timers(ops))
  {
    hide Tasks, ShellOf;
    if ops != [] {
      var n := |ops| - 1;
      StartedByProgram(ops[..n]);
      StartedByOp(ops[n]);
      StartedSum(Program(ops[..n]), Tasks(ops[n]));
    }
  }

  /** Thread i of a run, from 1 on, is the shell of the timed block number i - 1. */
  ghost predicate ShellsRun(ops: seq<Op>, s: State) {
    s.threads != [] && s.threads[0].program == Program(ops) && s.threads[0].done <= |Program(ops)|
    && |s.threads| == 1 + |Started(Program(ops)[..s.threads[0].done])|
    && forall i :: 1 <= i < |s.threads| ==> IsShell(s.threads[i], Started(Program(ops)[..s.threads[0].done])[i - 1])
  }

  predicate IsShell(t: Thread, shell: Task) {
    shell.Spawn? && t.program == shell.job && t.start == shell.taken && t.done <= |t.program|
    && forall k :: 0 <= k < |t.program| ==> t.program[k].Do?
  }

  lemma {:induction false} StartedAre(tasks: seq<Task>, ops: seq<Op>, j: nat)
    requires tasks <= Program(ops) && j < |Started(tasks)|
    ensures |Started(tasks)| <= |Timers(ops)| && Started(tasks)[j] == ShellOf(Timers(ops)[j])
  {
    hide Program, ShellOf;
    var rest := Program(ops)[|tasks|..];
    assert Program(ops) == tasks + rest;
    StartedSum(tasks, rest);
    StartedByProgram(ops);
  }

  lemma StepShells(ops: seq<Op>, s: State, i: nat)
    requires ShellsRun(ops, s) && Enabled(s, i)
    ensures ShellsRun(ops, Step(s, i))
  {
    hide Program, Execute, ShellOf;
    var t := s.threads[i];
    var done := s.threads[0].done;
    var p := Program(ops);
    if i == 0 {
      assert p[..done + 1][..done] == p[..done];
      if t.program[done].Spawn? {
        var started := Started(p[..done + 1]);
        assert started[|started| - 1] == p[done];
        StartedAre(p[..done + 1], ops, |started| - 1);
        ShellTasks(Timers(ops)[|started| - 1]);
      }
    } else {
      assert IsShell(t, Started(p[..done])[i - 1]);
    }
  }

  lemma ShellTasks(b: Block)
    ensures var shell := ShellOf(b);
            shell.Spawn? && forall k :: 0 <= k < |shell.job| ==> shell.job[k].Do?
  {
  }

  lemma {:induction false} RunShells(ops: seq<Op>, schedule: seq<nat>)
    requires Run(Begin(ops), schedule).Some?
    ensures ShellsRun(ops, Run(Begin(ops), schedule).value)
  {
    hide Step, Enabled, ShellsRun;
    if schedule == [] {
      BeginShells(ops);
    } else {
      var n := |schedule| - 1;
      RunShells(ops, schedule[..n]);
      StepShells(ops, Run(Begin(ops), schedule[..n]).value, schedule[n]);
    }
  }

  lemma BeginShells(ops: seq<Op>)
    ensures ShellsRun(ops, Begin(ops))
  {
    hide Program;
    assert Program(ops)[..0] == [];
  }

  // ---- who is blocked right now ----

  /** A shell stands between its operations: not begun, asleep or finished. */
  predicate Between(b: Block, done: nat) {
    done == 0 || done == |Rules(b)| || (b.Path? && done == 2 * |Rules(b)|)
  }

  /** What it blocks then. */
  function Blocking(b: Block, done: nat): seq<Block> {
    if done == (if b.Path? then |Rules(b)| else 0) then [b] else []
  }

  /** What the first n threads block, the test having done its first k operations. */
  function Current(ops: seq<Op>, k: nat, threads: seq<Thread>, n: nat): seq<Block>
    requires k <= |ops| && n <= |threads| <= |Timers(ops)| + 1
  {
    if n == 0 then []
    else if n == 1 then Outstanding(ops[..k])
    else Current(ops, k, threads, n - 1) + Blocking(Timers(ops)[n - 2], threads[n - 1].done)
  }

  /** The test has done its first k operations and is at none, and no shell is in the
      middle of its commands. */
  ghost predicate Quiet(ops: seq<Op>, k: nat, threads: seq<Thread>) {
    k <= |ops| && 1 <= |threads| <= |Timers(ops)| + 1 && threads[0].done == |Program(ops[..k])|
    && forall i :: 1 <= i < |threads| ==> Between(Timers(ops)[i - 1], threads[i].done)
  }

  lemma ShellSteady(b: Block, t: Thread)
    requires IsShell(t, ShellOf(b)) && Between(b, t.done)
    ensures Steady(t, Blocking(b, t.done))
  {
    hide Rules, Steady;
    if b.Path? {
      assert t.program == Adding(b) + Deleting(b);
      PathShellSteady(b, t.done);
    } else {
      PacketShellSteady(b, t.done);
    }
    assert t == Thread(t.program, t.start, t.done);
    RulesNonEmpty(b);
  }

  lemma RulesNonEmpty(b: Block)
    ensures |Rules(b)| > 0
  {
  }

  lemma {:induction false} CurrentHeld(ops: seq<Op>, k: nat, s: State, n: nat)
    requires Disciplined(ops) && ShellsRun(ops, s) && s.threads[0].start == multiset{}
    requires Quiet(ops, k, s.threads) && 1 <= n <= |s.threads|
    ensures HeldByAll(s.threads[..n]) == AllRules(Current(ops, k, s.threads, n))
  {
    hide HeldBy, AllRules, Outstanding, Between, Blocking, Program, ShellOf;
    var t := s.threads[n - 1];
    assert s.threads[..n][..n - 1] == s.threads[..n - 1];
    if n == 1 {
      assert s.threads[..0] == [];
      TestSteady(ops, k, t);
    } else {
      CurrentHeld(ops, k, s, n - 1);
      StartedAre(Program(ops)[..s.threads[0].done], ops, n - 2);
      ShellSteady(Timers(ops)[n - 2], t);
      AllRulesSum(Current(ops, k, s.threads, n - 1), Blocking(Timers(ops)[n - 2], t.done));
    }
  }

  /** What a host blocks at a quiet moment of a run. */
  function Now(ops: seq<Op>, k: nat, s: State): seq<Block>
    requires Quiet(ops, k, s.threads)
  {
    Current(ops, k, s.threads, |s.threads|)
  }

  lemma NowContents(ops: seq<Op>, schedule: seq<nat>, k: nat)
    requires Disciplined(ops) && Run(Begin(ops), schedule).Some?
    requires Quiet(ops, k, Run(Begin(ops), schedule).value.threads)
    ensures var s := Run(Begin(ops), schedule).value;
            WellPlaced(s.chains) && Contents(s.chains) == AllRules(Now(ops, k, s))
  {
    hide Run, Contents, WellPlaced, HeldByAll, AllRules, ShellsRun, Quiet, Current;
    var s := Run(Begin(ops), schedule).value;
    BeginInv(ops);
    RunKeeps(Begin(ops), schedule);
    RunShells(ops, schedule);
    CurrentHeld(ops, k, s, |s.threads|);
    assert s.threads[..|s.threads|] == s.threads;
  }

  /** At any quiet moment of any run, a segment is cut iff the test holds a block that
      means it, or a shell is asleep whose block means it. */
  lemma CutNow(ops: seq<Op>, schedule: seq<nat>, k: nat, chain: Chain, p: Segment)
    requires Disciplined(ops) && Run(Begin(ops), schedule).Some?
    requires Quiet(ops, k, Run(Begin(ops), schedule).value.threads)
    ensures var s := Run(Begin(ops), schedule).value;
            Cut(ChainOf(s.chains, chain), p) <==> exists j :: 0 <= j < |Now(ops, k, s)| && Cuts(Now(ops, k, s)[j], chain, p)
  {
    hide Run, Contents, WellPlaced, AllRules, Cut, Cuts, Quiet, Now;
    NowContents(ops, schedule, k);
    CutMeaning(Run(Begin(ops), schedule).value.chains, Now(ops, k, Run(Begin(ops), schedule).value), chain, p);
  }

  /** Two hosts, each at a quiet moment of a run of its own: a flow between them is cut
      in both directions or in none, and it is cut iff one of them currently blocks a
      path between the two addresses with one of the flow's ports. */
  lemma FlowCutNow(opsA: seq<Op>, scheduleA: seq<nat>, kA: nat, opsB: seq<Op>, scheduleB: seq<nat>, kB: nat,
                   a: int, x: int, pa: int, y: int)
    requires Disciplined(opsA) && Run(Begin(opsA), scheduleA).Some?
    requires Disciplined(opsB) && Run(Begin(opsB), scheduleB).Some?
    requires Quiet(opsA, kA, Run(Begin(opsA), scheduleA).value.threads)
    requires Quiet(opsB, kB, Run(Begin(opsB), scheduleB).value.threads)
    ensures var first, second := Run(Begin(opsA), scheduleA).value, Run(Begin(opsB), scheduleB).value;
            var cut := Meets(Now(opsA, kA, first), a, x, pa, y) || Meets(Now(opsB, kB, second), pa, y, a, x);
            Passes(first.chains, second.chains, Segment(Tcp, a, x, pa, y, {})) == !cut
            && Passes(second.chains, first.chains, Segment(Tcp, pa, y, a, x, {})) == !cut
  {
    hide Run, Contents, WellPlaced, AllRules, Passes, Meets, Quiet, Now;
    var first, second := Run(Begin(opsA), scheduleA).value, Run(Begin(opsB), scheduleB).value;
    NowContents(opsA, scheduleA, kA);
    NowContents(opsB, scheduleB, kB);
    FlowCutBothWays(first.chains, second.chains, Now(opsA, kA, first), Now(opsB, kB, second), a, x, pa, y);
  }
}
