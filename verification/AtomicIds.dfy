/** Ids that threads give to nodes on demand, without a lock: a load, an addition and a compare-and-swap are
    separate steps, and any other thread may step in between. */
module AtomicIds {

  type ThreadId = nat
  type Node = nat

  /** Where a thread is in its call for a node. */
  datatype Local =
    | Idle
    | Called(node: Node)             // about to load the id
    | Missed(node: Node)             // found none; about to draw one
    | Drew(node: Node, id: nat)      // about to swap it in
    | Lost(node: Node)               // another thread was first; about to load again
    | Returned(node: Node, id: nat)

  /** `ids` has 0 for a node without an id; `next` is the counter. */
  datatype State = State(next: nat, ids: map<Node, nat>, threads: map<ThreadId, Local>)

  const WORD: nat := 0x1_0000_0000_0000_0000

  function Id(s: State, n: Node): nat {
    if n in s.ids then s.ids[n] else 0
  }

  function At(s: State, t: ThreadId): Local {
    if t in s.threads then s.threads[t] else Idle
  }

  function Move(s: State, t: ThreadId, l: Local): State {
    s.(threads := s.threads[t := l])
  }

  /** The step of thread `t`; an idle thread calls for `n`. */
  function StepOf(s: State, t: ThreadId, n: Node): State {
    match At(s, t)
    case Idle => Move(s, t, Called(n))
    case Called(m) => Move(s, t, if Id(s, m) == 0 then Missed(m) else Returned(m, Id(s, m)))
    case Missed(m) =>
      var id := (s.next + 1) % WORD;
      Move(s.(next := id), t, Drew(m, id))
    case Drew(m, id) =>
      if Id(s, m) == 0 then Move(s.(ids := s.ids[m := id]), t, Returned(m, id)) else Move(s, t, Lost(m))
    case Lost(m) => Move(s, t, Returned(m, Id(s, m)))
    case Returned(_, _) => Move(s, t, Idle)
  }

  const START := State(0, map[], map[])

  /** A run: which thread steps next, and what it calls for if it is idle. */
  type Schedule = seq<(ThreadId, Node)>

  function Run(schedule: Schedule): State {
    if schedule == [] then START
    else
      var last := schedule[|schedule| - 1];
      StepOf(Run(schedule[..|schedule| - 1]), last.0, last.1)
  }

  // ----- what every step keeps -----

  /** Ids given or drawn are in use once, and below the counter. */
  ghost predicate Inv(s: State) {
    && (forall m, n :: Id(s, m) == Id(s, n) && Id(s, m) != 0 ==> m == n)
    && (forall m :: Id(s, m) <= s.next)
    && (forall t :: At(s, t).Drew? ==> 0 < At(s, t).id <= s.next)
    && (forall t, m :: At(s, t).Drew? ==> At(s, t).id != Id(s, m))
    && (forall t, u :: At(s, t).Drew? && At(s, u).Drew? && At(s, t).id == At(s, u).id ==> t == u)
    && (forall t :: At(s, t).Lost? ==> Id(s, At(s, t).node) != 0)
    && (forall t :: At(s, t).Returned? ==> At(s, t).id != 0 && Id(s, At(s, t).node) == At(s, t).id)
  }

  lemma SwapKeeps(s: State, t: ThreadId)
    requires Inv(s) && At(s, t).Drew?
    ensures Inv(StepOf(s, t, 0))
  {
    var s', m, id := StepOf(s, t, 0), At(s, t).node, At(s, t).id;
    assert forall u :: At(s', u) == if u == t then At(s', t) else At(s, u);
    assert forall n :: Id(s', n) == if n == m && Id(s, m) == 0 then id else Id(s, n);
    hide StepOf, Id, At;
  }

  lemma OtherKeeps(s: State, t: ThreadId, n: Node)
    requires Inv(s) && s.next + 1 < WORD && !At(s, t).Drew?
    ensures Inv(StepOf(s, t, n))
  {
    var s' := StepOf(s, t, n);
    assert forall u :: At(s', u) == if u == t then At(s', t) else At(s, u);
    assert forall m :: Id(s', m) == Id(s, m);
    assert s'.next == if At(s, t).Missed? then s.next + 1 else s.next;
    match At(s, t)
    case Called(m) =>
    case Missed(m) =>
    case Lost(m) =>
    case _ =>
  }

  lemma StepKeeps(s: State, t: ThreadId, n: Node)
    requires Inv(s) && s.next + 1 < WORD
    ensures Inv(StepOf(s, t, n))
    ensures StepOf(s, t, n).next <= s.next + 1
  {
    hide Inv;
    if At(s, t).Drew? {
      SwapKeeps(s, t);
    } else {
      OtherKeeps(s, t, n);
    }
  }

  lemma {:induction false} RunKeeps(schedule: Schedule)
    requires |schedule| < WORD
    ensures Inv(Run(schedule)) && Run(schedule).next <= |schedule|
  {
    if schedule != [] {
      var front := schedule[..|schedule| - 1];
      RunKeeps(front);
      StepKeeps(Run(front), schedule[|schedule| - 1].0, schedule[|schedule| - 1].1);
    }
  }

  /** An id, once given, never changes. */
  lemma {:induction false} IdNeverChanges(schedule: Schedule, n: nat, node: Node)
    requires n <= |schedule| && Id(Run(schedule[..n]), node) != 0
    ensures Id(Run(schedule), node) == Id(Run(schedule[..n]), node)
  {
    if n == |schedule| {
      assert schedule[..n] == schedule;
    } else {
      var front := schedule[..|schedule| - 1];
      assert front[..n] == schedule[..n];
      IdNeverChanges(front, n, node);
    }
  }

  /** Whatever the interleaving, and however far apart the calls: two calls return the same id exactly if
      they were for the same node, and no call returns 0. */
  lemma SameIdSameNode(schedule: Schedule, n: nat, t: ThreadId, u: ThreadId)
    requires n <= |schedule| < WORD
    requires At(Run(schedule[..n]), t).Returned? && At(Run(schedule), u).Returned?
    ensures var first, second := At(Run(schedule[..n]), t), At(Run(schedule), u);
            first.id != 0 && (first.id == second.id <==> first.node == second.node)
  {
    hide Run, Id, At;
    RunKeeps(schedule[..n]);
    RunKeeps(schedule);
    IdNeverChanges(schedule, n, At(Run(schedule[..n]), t).node);
  }
}
