/**
 The per-scope registry of dependencies: concurrent resolvers of one key share
 one computation. A resolver is a task that is cut at the points where it
 awaits; everything between two awaits is one action.
 */
module Dependencies {
  import opened Options

  type Key = nat
  type Task = nat

  datatype Outcome = Value(value: nat) | Failure(exn: nat) | Cancelled

  /** `DependencyCache`: pending until its computation ended one way or another. */
  datatype Entry = Pending | Finished(outcome: Outcome)

  /** Where a resolver stands; `from` is the entry that answered it, if any. */
  datatype Phase =
    | Waiting(entry: nat)
    | Computing(key: Key, entry: nat)
    | Done(outcome: Outcome, from: Option<nat>)

  datatype Event = Started(key: Key) | Removed(keys: set<Key>)

  /** Every entry ever made, every computation begun and every removal from the registry is remembered. */
  datatype State = State(caches: map<Key, nat>, entries: seq<Entry>, tasks: map<Task, Phase>, log: seq<Event>)

  datatype Action =
    | Resolve(task: Task, key: Key)
    | Complete(task: Task, outcome: Outcome)   // `compute()` ends; `Cancelled` is any BaseException
    | Wake(task: Task)
    | Abandon(task: Task)                      // a waiter is cancelled
    | Discard(key: Key)
    | Clear

  const EMPTY := State(map[], [], map[], [])

  predicate Enabled(s: State, a: Action) {
    match a
    case Resolve(t, _) => t !in s.tasks
    case Complete(t, _) => t in s.tasks && s.tasks[t].Computing? && s.tasks[t].entry < |s.entries|
    case Wake(t) =>
      && t in s.tasks && s.tasks[t].Waiting?
      && s.tasks[t].entry < |s.entries| && s.entries[s.tasks[t].entry].Finished?
    case Abandon(t) => t in s.tasks && s.tasks[t].Waiting?
    case _ => true
  }

  function Apply(s: State, a: Action): State {
    if !Enabled(s, a) then s
    else
      match a
      case Resolve(t, k) =>
        if k in s.caches then s.(tasks := s.tasks[t := Waiting(s.caches[k])])
        else
          var e := |s.entries|;
          State(s.caches[k := e], s.entries + [Pending], s.tasks[t := Computing(k, e)], s.log + [Started(k)])
      case Complete(t, o) =>
        var Computing(k, e) := s.tasks[t];
        var s1 := if o.Cancelled? then Without(s, {k}) else s;
        s1.(entries := s.entries[e := Finished(o)], tasks := s.tasks[t := Done(o, Some(e))])
      case Wake(t) => s.(tasks := s.tasks[t := Done(s.entries[s.tasks[t].entry].outcome, Some(s.tasks[t].entry))])
      case Abandon(t) => s.(tasks := s.tasks[t := Done(Cancelled, None)])
      case Discard(k) => Without(s, {k})
      case Clear => Without(s, s.caches.Keys)
  }

  function Without(s: State, keys: set<Key>): State {
    s.(caches := s.caches - keys, log := s.log + [Removed(keys * s.caches.Keys)])
  }

  function Run(s: State, actions: seq<Action>): State
    decreases |actions|
  {
    if actions == [] then s else Run(Apply(s, actions[0]), actions[1..])
  }

  // ----- invariants -----

  ghost predicate Computes(s: State, t: Task, e: nat) {
    t in s.tasks && s.tasks[t].Computing? && s.tasks[t].entry == e
  }

  ghost predicate PhaseFits(s: State, p: Phase) {
    match p
    case Waiting(e) => e < |s.entries|
    case Computing(_, e) => e < |s.entries| && s.entries[e].Pending?
    case Done(o, from) => from.Some? ==> from.value < |s.entries| && s.entries[from.value] == Finished(o)
  }

  /** A pending entry has exactly one task computing it, and whoever was answered has its entry's outcome. */
  ghost predicate Inv(s: State) {
    && (forall k | k in s.caches :: s.caches[k] < |s.entries|)
    && (forall t | t in s.tasks :: PhaseFits(s, s.tasks[t]))
    && (forall t, u, e | Computes(s, t, e) && Computes(s, u, e) :: t == u)
    && (forall e: nat | e < |s.entries| && s.entries[e].Pending? :: exists t :: Computes(s, t, e))
  }

  lemma ApplyKeeps(s: State, a: Action)
    requires Inv(s)
    ensures Inv(Apply(s, a))
  {
    hide Run;
    if Enabled(s, a) {
      match a
      case Resolve(t, k) =>
        if k in s.caches {
          MoveKeeps(s, t, Waiting(s.caches[k]));
        } else {
          PublishKeeps(s, t, k);
        }
      case Complete(t, o) => CompleteKeeps(s, t, o);
      case Wake(t) => MoveKeeps(s, t, Apply(s, a).tasks[t]);
      case Abandon(t) => MoveKeeps(s, t, Apply(s, a).tasks[t]);
      case _ =>
        var s' := Apply(s, a);
        SameComputers(s, s');
    }
  }

  /** Invariants that only concern who computes what survive any change that leaves that alone. */
  lemma SameComputers(s: State, s': State)
    requires Inv(s) && s'.entries == s.entries && s'.tasks == s.tasks
    requires forall k | k in s'.caches :: s'.caches[k] < |s'.entries|
    ensures Inv(s')
  {
    forall e: nat | e < |s'.entries| && s'.entries[e].Pending?
      ensures exists t :: Computes(s', t, e)
    {
      var t :| Computes(s, t, e);
      assert Computes(s', t, e);
    }
    forall t, u, e | Computes(s', t, e) && Computes(s', u, e)
      ensures t == u
    {
      assert Computes(s, t, e) && Computes(s, u, e);
    }
    forall t | t in s'.tasks
      ensures PhaseFits(s', s'.tasks[t])
    {
      assert PhaseFits(s, s.tasks[t]);
    }
  }

  /** A task that was not computing and does not start to. */
  lemma MoveKeeps(s: State, t: Task, p: Phase)
    requires Inv(s) && (t in s.tasks ==> !s.tasks[t].Computing?) && !p.Computing? && PhaseFits(s, p)
    ensures Inv(s.(tasks := s.tasks[t := p]))
  {
    var s' := s.(tasks := s.tasks[t := p]);
    forall e: nat | e < |s'.entries| && s'.entries[e].Pending?
      ensures exists u :: Computes(s', u, e)
    {
      var u :| Computes(s, u, e);
      assert Computes(s', u, e);
    }
    forall u, v, e | Computes(s', u, e) && Computes(s', v, e)
      ensures u == v
    {
      assert Computes(s, u, e) && Computes(s, v, e);
    }
    forall u | u in s'.tasks
      ensures PhaseFits(s', s'.tasks[u])
    {
      assert u != t ==> PhaseFits(s, s.tasks[u]);
    }
  }

  lemma PublishKeeps(s: State, t: Task, k: Key)
    requires Inv(s) && t !in s.tasks && k !in s.caches
    ensures Inv(Apply(s, Resolve(t, k)))
  {
    var s', e := Apply(s, Resolve(t, k)), |s.entries|;
    forall d: nat | d < |s'.entries| && s'.entries[d].Pending?
      ensures exists u :: Computes(s', u, d)
    {
      if d == e {
        assert Computes(s', t, d);
      } else {
        var u :| Computes(s, u, d);
        assert Computes(s', u, d);
      }
    }
    forall u, v, d | Computes(s', u, d) && Computes(s', v, d)
      ensures u == v
    {
      if u != t {
        assert Computes(s, u, d) && PhaseFits(s, s.tasks[u]);
      }
      if v != t {
        assert Computes(s, v, d) && PhaseFits(s, s.tasks[v]);
      }
    }
    forall u | u in s'.tasks
      ensures PhaseFits(s', s'.tasks[u])
    {
      assert u != t ==> PhaseFits(s, s.tasks[u]);
    }
  }

  lemma CompleteKeeps(s: State, t: Task, o: Outcome)
    requires Inv(s) && Enabled(s, Complete(t, o))
    ensures Inv(Apply(s, Complete(t, o)))
  {
    var s', e := Apply(s, Complete(t, o)), s.tasks[t].entry;
    assert Computes(s, t, e);
    forall d: nat | d < |s'.entries| && s'.entries[d].Pending?
      ensures exists u :: Computes(s', u, d)
    {
      var u :| Computes(s, u, d);
      assert Computes(s', u, d);
    }
    forall u, v, d | Computes(s', u, d) && Computes(s', v, d)
      ensures u == v
    {
      assert Computes(s, u, d) && Computes(s, v, d);
    }
    forall u | u in s'.tasks
      ensures PhaseFits(s', s'.tasks[u])
    {
      assert PhaseFits(s, s.tasks[u]) && PhaseFits(s, s.tasks[t]);
      if u != t && s.tasks[u].Computing? && s.tasks[u].entry == e {
        assert Computes(s, u, e);
      }
    }
  }

  lemma {:induction false} RunKeeps(s: State, actions: seq<Action>)
    requires Inv(s)
    ensures Inv(Run(s, actions))
    decreases |actions|
  {
    if actions != [] {
      ApplyKeeps(s, actions[0]);
      RunKeeps(Apply(s, actions[0]), actions[1..]);
    }
  }

  /** In every reachable state a pending entry has exactly one computing task, so no waiter is orphaned. */
  lemma NoOrphan(actions: seq<Action>, t: Task)
    requires var s := Run(EMPTY, actions); t in s.tasks && s.tasks[t].Waiting?
    ensures var s := Run(EMPTY, actions);
            var e := s.tasks[t].entry;
            || Enabled(s, Wake(t))
            || (exists u :: Computes(s, u, e) && (forall v :: Computes(s, v, e) ==> v == u)
                            && forall o :: Apply(Apply(s, Complete(u, o)), Wake(t)).tasks[t] == Done(o, Some(e)))
  {
    var s := Run(EMPTY, actions);
    var e := s.tasks[t].entry;
    RunKeeps(EMPTY, actions);
    if s.entries[e].Pending? {
      var u :| Computes(s, u, e);
      forall o
        ensures Apply(Apply(s, Complete(u, o)), Wake(t)).tasks[t] == Done(o, Some(e))
      {
        var s1 := Apply(s, Complete(u, o));
        assert s1.tasks[t] == Waiting(e) && s1.entries[e] == Finished(o);
      }
    }
  }

  /** All resolvers answered by one entry get the same outcome. */
  lemma SameOutcome(actions: seq<Action>, t: Task, u: Task)
    requires var s := Run(EMPTY, actions);
             && t in s.tasks && u in s.tasks && s.tasks[t].Done? && s.tasks[u].Done?
             && s.tasks[t].from.Some? && s.tasks[t].from == s.tasks[u].from
    ensures var s := Run(EMPTY, actions); s.tasks[t].outcome == s.tasks[u].outcome
  {
    RunKeeps(EMPTY, actions);
  }

  // ----- the key a resolver asked for -----

  lemma {:induction false} RunAppend(s: State, actions: seq<Action>, a: Action)
    ensures Run(s, actions + [a]) == Apply(Run(s, actions), a)
    decreases |actions|
  {
    hide Apply;
    if actions == [] {
      assert [a][1..] == [] && [] + [a] == [a];
      assert Run(Apply(s, a), []) == Apply(s, a);
    } else {
      assert (actions + [a])[1..] == actions[1..] + [a];
      RunAppend(Apply(s, actions[0]), actions[1..], a);
    }
  }

  /** The state in which the i-th action of a history is performed. */
  function Before(actions: seq<Action>, i: nat): State
    requires i <= |actions|
  {
    Run(EMPTY, actions[..i])
  }

  /** A task's first `resolve`: where in the history, and for which key. */
  datatype Asking = Asking(at: nat, key: Key)

  function AskOf(actions: seq<Action>, t: Task): (r: Option<Asking>)
    ensures r.Some? ==> r.value.at < |actions| && actions[r.value.at] == Resolve(t, r.value.key)
    ensures r.None? ==> forall k :: Resolve(t, k) !in actions
  {
    if actions == [] then None
    else
      var n := |actions| - 1;
      var r := AskOf(actions[..n], t);
      if r.Some? then r
      else if actions[n].Resolve? && actions[n].task == t then Some(Asking(n, actions[n].key))
      else None
  }

  /** The task whose `resolve` finds no entry for its key, and so makes the entry numbered `e`. */
  datatype Making = Making(task: Task, at: nat, key: Key)

  ghost predicate Makes(actions: seq<Action>, m: Making, e: nat) {
    && AskOf(actions, m.task) == Some(Asking(m.at, m.key))
    && m.key !in Before(actions, m.at).caches && |Before(actions, m.at).entries| == e
  }

  /** The computation of task `u` ends with `o`. */
  ghost predicate Ends(actions: seq<Action>, u: Task, o: Outcome) {
    exists i :: 0 <= i < |actions| && actions[i] == Complete(u, o) && Enabled(Before(actions, i), actions[i])
  }

  function EntryOf(p: Phase): Option<nat> {
    match p
    case Waiting(e) => Some(e)
    case Computing(_, e) => Some(e)
    case Done(_, from) => from
  }

  /** The entry a `resolve` of `k` is answered by: the one in the registry, or a new one. */
  function EntryFor(s: State, k: Key): nat {
    if k in s.caches then s.caches[k] else |s.entries|
  }

  /** Entry `e` was made for key `k`, and has the outcome of the computation that its maker started. */
  ghost predicate MadeFor(actions: seq<Action>, s: State, m: Making, e: nat) {
    && Makes(actions, m, e) && m.task in s.tasks && e < |s.entries|
    && match s.entries[e]
       case Pending => s.tasks[m.task] == Computing(m.key, e)
       case Finished(o) => Ends(actions, m.task, o)
  }

  /** A task in the state `s` after `actions`, and the entry that answers it. */
  ghost predicate AskedRight(actions: seq<Action>, s: State, t: Task)
    requires t in s.tasks
  {
    var ask := AskOf(actions, t);
    && ask.Some?
    && (EntryOf(s.tasks[t]).Some? ==>
          var e := EntryOf(s.tasks[t]).value;
          && e == EntryFor(Before(actions, ask.value.at), ask.value.key)
          && exists m :: MadeFor(actions, s, m, e) && m.key == ask.value.key && m.at <= ask.value.at)
  }

  ghost predicate Traced(actions: seq<Action>) {
    var s := Run(EMPTY, actions);
    && (forall t :: t in s.tasks <==> AskOf(actions, t).Some?)
    && (forall t | t in s.tasks :: AskedRight(actions, s, t))
    && (forall k | k in s.caches :: exists m :: MadeFor(actions, s, m, s.caches[k]) && m.key == k)
  }

  lemma AskStays(actions: seq<Action>, a: Action, t: Task)
    ensures AskOf(actions + [a], t)
         == if AskOf(actions, t).Some? then AskOf(actions, t)
            else if a.Resolve? && a.task == t then Some(Asking(|actions|, a.key)) else None
  {
    assert (actions + [a])[..|actions|] == actions;
  }

  lemma BeforeStays(actions: seq<Action>, a: Action, i: nat)
    requires i <= |actions|
    ensures Before(actions + [a], i) == Before(actions, i)
  {
    assert (actions + [a])[..i] == actions[..i];
  }

  lemma BeforeEnd(actions: seq<Action>, a: Action)
    ensures Before(actions + [a], |actions|) == Run(EMPTY, actions) == Before(actions, |actions|)
  {
    assert (actions + [a])[..|actions|] == actions == actions[..|actions|];
  }

  lemma EndsLater(actions: seq<Action>, a: Action, u: Task, o: Outcome)
    ensures Ends(actions, u, o) ==> Ends(actions + [a], u, o)
    ensures a == Complete(u, o) && Enabled(Run(EMPTY, actions), a) ==> Ends(actions + [a], u, o)
  {
    hide Enabled, Run;
    var all := actions + [a];
    BeforeEnd(actions, a);
    if i :| 0 <= i < |actions| && actions[i] == Complete(u, o) && Enabled(Before(actions, i), actions[i]) {
      BeforeStays(actions, a, i);
      assert all[i] == actions[i];
    }
    if a == Complete(u, o) && Enabled(Run(EMPTY, actions), a) {
      assert all[|actions|] == a;
    }
  }

  /** What was made stays made. */
  lemma MadeLater(actions: seq<Action>, a: Action, m: Making, e: nat)
    requires Inv(Run(EMPTY, actions)) && MadeFor(actions, Run(EMPTY, actions), m, e)
    ensures MadeFor(actions + [a], Apply(Run(EMPTY, actions), a), m, e)
  {
    var s := Run(EMPTY, actions);
    var s' := Apply(s, a);
    AskStays(actions, a, m.task);
    BeforeStays(actions, a, m.at);
    hide Run, Before;
    match s'.entries[e]
    case Pending =>
    case Finished(o) =>
      EndsLater(actions, a, m.task, o);
      if s.entries[e].Pending? && Enabled(s, a) && a.Complete? {
        assert Computes(s, m.task, e) && Computes(s, a.task, e);
      }
  }

  /** A new entry is made for the key it is looked up under. */
  lemma MadeNow(actions: seq<Action>, t: Task, k: Key) returns (m: Making)
    requires var s := Run(EMPTY, actions); t !in s.tasks && k !in s.caches && AskOf(actions, t).None?
    ensures var s := Run(EMPTY, actions);
            m == Making(t, |actions|, k) &&
            MadeFor(actions + [Resolve(t, k)], Apply(s, Resolve(t, k)), m, |s.entries|)
  {
    m := Making(t, |actions|, k);
    AskStays(actions, Resolve(t, k), t);
    BeforeEnd(actions, Resolve(t, k));
    hide Run, Before;
  }

  lemma TracedStep(actions: seq<Action>, a: Action)
    requires Traced(actions) && Inv(Run(EMPTY, actions))
    ensures Traced(actions + [a])
  {
    var s, all := Run(EMPTY, actions), actions + [a];
    var s' := Apply(s, a);
    RunAppend(EMPTY, actions, a);
    hide Run, Before, MadeFor, AskedRight, Apply;
    forall t
      ensures t in s'.tasks <==> AskOf(all, t).Some?
      ensures t in s'.tasks ==> AskedRight(all, s', t)
    {
      TaskTraced(actions, a, t);
    }
    forall k | k in s'.caches
      ensures exists m :: MadeFor(all, s', m, s'.caches[k]) && m.key == k
    {
      KeyTraced(actions, a, k);
    }
  }

  lemma KeyTraced(actions: seq<Action>, a: Action, k: Key)
    requires Traced(actions) && Inv(Run(EMPTY, actions)) && k in Apply(Run(EMPTY, actions), a).caches
    ensures var s' := Apply(Run(EMPTY, actions), a);
            exists m :: MadeFor(actions + [a], s', m, s'.caches[k]) && m.key == k
  {
    var s := Run(EMPTY, actions);
    hide Run, Before, MadeFor, AskedRight;
    if k in s.caches && Apply(s, a).caches[k] == s.caches[k] {
      var m :| MadeFor(actions, s, m, s.caches[k]) && m.key == k;
      MadeLater(actions, a, m, s.caches[k]);
    } else {
      var m := MadeNow(actions, a.task, a.key);
    }
  }

  lemma TaskTraced(actions: seq<Action>, a: Action, t: Task)
    requires Traced(actions) && Inv(Run(EMPTY, actions))
    ensures var s' := Apply(Run(EMPTY, actions), a);
            && (t in s'.tasks <==> AskOf(actions + [a], t).Some?)
            && (t in s'.tasks ==> AskedRight(actions + [a], s', t))
  {
    var s := Run(EMPTY, actions);
    AskStays(actions, a, t);
    BeforeEnd(actions, a);
    hide Run, Before, MadeFor, Inv;
    if t in s.tasks {
      TaskLater(actions, a, t);
    } else if a.Resolve? && a.task == t && a.key in s.caches {
      var m :| MadeFor(actions, s, m, s.caches[a.key]) && m.key == a.key;
      MadeLater(actions, a, m, s.caches[a.key]);
      MadeEarlier(actions, s, m, s.caches[a.key]);
    } else if a.Resolve? && a.task == t {
      var m := MadeNow(actions, t, a.key);
    }
  }

  lemma MadeEarlier(actions: seq<Action>, s: State, m: Making, e: nat)
    requires MadeFor(actions, s, m, e)
    ensures m.at < |actions|
  {
  }

  lemma TaskLater(actions: seq<Action>, a: Action, t: Task)
    requires Inv(Run(EMPTY, actions)) && t in Run(EMPTY, actions).tasks && AskedRight(actions, Run(EMPTY, actions), t)
    ensures t in Apply(Run(EMPTY, actions), a).tasks && AskedRight(actions + [a], Apply(Run(EMPTY, actions), a), t)
  {
    var s := Run(EMPTY, actions);
    var s' := Apply(s, a);
    AskStays(actions, a, t);
    BeforeStays(actions, a, AskOf(actions, t).value.at);
    hide Run, Before, Makes, Ends;
    if EntryOf(s'.tasks[t]).Some? {
      assert EntryOf(s.tasks[t]) == EntryOf(s'.tasks[t]);
      var e := EntryOf(s.tasks[t]).value;
      var m :| MadeFor(actions, s, m, e) && m.key == AskOf(actions, t).value.key && m.at <= AskOf(actions, t).value.at;
      MadeLater(actions, a, m, e);
    }
  }

  lemma {:induction false} AllTraced(actions: seq<Action>)
    ensures Traced(actions)
    decreases |actions|
  {
    if actions != [] {
      var n := |actions| - 1;
      AllTraced(actions[..n]);
      RunKeeps(EMPTY, actions[..n]);
      TracedStep(actions[..n], actions[n]);
      assert actions == actions[..n] + [actions[n]];
    }
  }

  /**
   Whoever is answered, after any history, asked for the key that the answering
   entry was made for, and gets the outcome of the computation its maker
   started; the entry is the one the registry had for that key when the task
   resolved, or the task made it.
   */
  lemma OwnKey(actions: seq<Action>, t: Task) returns (ask: Asking, m: Making)
    requires var s := Run(EMPTY, actions); t in s.tasks && s.tasks[t].Done? && s.tasks[t].from.Some?
    ensures AskOf(actions, t) == Some(ask)
    ensures var Done(o, from) := Run(EMPTY, actions).tasks[t];
            && from == Some(EntryFor(Before(actions, ask.at), ask.key))
            && Makes(actions, m, from.value) && m.key == ask.key && m.at <= ask.at
            && Ends(actions, m.task, o)
  {
    AllTraced(actions);
    RunKeeps(EMPTY, actions);
    var s := Run(EMPTY, actions);
    ask := AskOf(actions, t).value;
    hide Run, Before, Makes, Ends;
    assert AskedRight(actions, s, t) && PhaseFits(s, s.tasks[t]);
    var e := s.tasks[t].from.value;
    m :| MadeFor(actions, s, m, e) && m.key == ask.key && m.at <= ask.at;
  }

  // ----- what the registry remembers -----

  /**
   The entry of a key stays unless it is discarded, cleared, or a computation
   of that key is cancelled: an ordinary failure is remembered like a value.
   */
  lemma StaysCached(s: State, a: Action, k: Key)
    requires k in s.caches
    ensures var s' := Apply(s, a);
            (k in s'.caches && s'.caches[k] == s.caches[k]) <==>
            !(a == Discard(k) || a.Clear? || (a.Complete? && a.outcome.Cancelled? && InFlight(s, a.task, k)
                                              && Enabled(s, a)))
  {
  }

  /** A waiter that is cancelled gets no outcome of the entry, and leaves entry and registry to the others. */
  lemma AbandonAlone(s: State, t: Task)
    requires t in s.tasks && s.tasks[t].Waiting?
    ensures var s' := Apply(s, Abandon(t));
            && t in s'.tasks && s'.tasks[t] == Done(Cancelled, None)
            && s'.entries == s.entries && s'.caches == s.caches
  {
  }

  /** An action moves no other task, and a key enters the registry only by its own `resolve`. */
  lemma OthersStay(s: State, a: Action, u: Task, k: Key)
    ensures var s' := Apply(s, a);
            && ((a.Discard? || a.Clear? || a.task != u) ==> (u in s'.tasks <==> u in s.tasks))
            && ((a.Discard? || a.Clear? || a.task != u) && u in s.tasks ==> s'.tasks[u] == s.tasks[u])
            && (k !in s.caches && k in s'.caches ==> a.Resolve? && a.key == k)
  {
  }

  /**
   Who computed gets its own outcome. The next resolver of the key gets it, too,
   unless the computation was cancelled: then it starts anew.
   */
  lemma NextResolver(s: State, t: Task, k: Key, o: Outcome, v: Task)
    requires Inv(s) && InFlight(s, t, k) && k in s.caches && s.caches[k] == s.tasks[t].entry && v !in s.tasks
    ensures var s' := Apply(Apply(s, Complete(t, o)), Resolve(v, k));
            && t in s'.tasks && v in s'.tasks
            && s'.tasks[t] == Done(o, Some(s.caches[k]))
            && (InFlight(s', v, k) <==> o.Cancelled?)
            && (!o.Cancelled? ==> Apply(s', Wake(v)).tasks[v] == Done(o, Some(s.caches[k])))
  {
    assert PhaseFits(s, s.tasks[t]);
  }

  // ----- at most once -----

  /** How often the provider of `k` was started. */
  function Starts(log: seq<Event>, k: Key): nat {
    if log == [] then 0 else Starts(log[..|log| - 1], k) + if log[|log| - 1] == Started(k) then 1 else 0
  }

  /** How often an entry of `k` was removed, by cancellation, `discard` or `clear`. */
  function Removals(log: seq<Event>, k: Key): nat {
    if log == [] then 0
    else
      var last := log[|log| - 1];
      Removals(log[..|log| - 1], k) + if last.Removed? && k in last.keys then 1 else 0
  }

  ghost predicate Counted(s: State) {
    forall k :: Starts(s.log, k) == Removals(s.log, k) + if k in s.caches then 1 else 0
  }

  lemma Logged(log: seq<Event>, v: Event, k: Key)
    ensures Starts(log + [v], k) == Starts(log, k) + if v == Started(k) then 1 else 0
    ensures Removals(log + [v], k) == Removals(log, k) + if v.Removed? && k in v.keys then 1 else 0
  {
    assert (log + [v])[..|log + [v]| - 1] == log;
  }

  lemma CountedKeeps(s: State, a: Action)
    requires Counted(s)
    ensures Counted(Apply(s, a))
  {
    hide Starts, Removals;
    var s' := Apply(s, a);
    forall k
      ensures Starts(s'.log, k) == Removals(s'.log, k) + if k in s'.caches then 1 else 0
    {
      if s'.log != s.log {
        Logged(s.log, s'.log[|s.log|], k);
        assert s'.log == s.log + [s'.log[|s.log|]];
      }
    }
  }

  lemma {:induction false} RunCounted(s: State, actions: seq<Action>)
    requires Counted(s)
    ensures Counted(Run(s, actions))
    decreases |actions|
  {
    if actions != [] {
      CountedKeeps(s, actions[0]);
      RunCounted(Apply(s, actions[0]), actions[1..]);
    }
  }

  /** In every history a provider has been started once more than its entry was removed, if it has one now. */
  lemma StartsAgain(actions: seq<Action>, k: Key)
    ensures var s := Run(EMPTY, actions);
            Starts(s.log, k) == Removals(s.log, k) + if k in s.caches then 1 else 0
  {
    assert Counted(EMPTY);
    RunCounted(EMPTY, actions);
  }

  // ----- one computation at a time -----

  /** Task `t` is computing key `k`. */
  predicate InFlight(s: State, t: Task, k: Key) {
    t in s.tasks && s.tasks[t].Computing? && s.tasks[t].key == k
  }

  /** Every computing task holds its key's entry. */
  ghost predicate Held(s: State) {
    forall t, k | InFlight(s, t, k) :: k in s.caches && s.caches[k] == s.tasks[t].entry
  }

  /** The action takes away the entry of a key that some task is computing. */
  predicate Harms(s: State, a: Action) {
    (a.Discard? || a.Clear?) &&
    exists t | t in s.tasks :: s.tasks[t].Computing? && (a.Discard? ==> s.tasks[t].key == a.key)
  }

  /** Two computations of one key. */
  ghost predicate Doubled(s: State) {
    exists t, u, k :: t != u && InFlight(s, t, k) && InFlight(s, u, k)
  }

  lemma HeldSingle(s: State)
    requires Inv(s) && Held(s)
    ensures !Doubled(s)
  {
    if t, u, k :| t != u && InFlight(s, t, k) && InFlight(s, u, k) {
      assert Computes(s, t, s.caches[k]) && Computes(s, u, s.caches[k]);
      assert false;
    }
  }

  /** An action keeps this if and only if it takes no entry away from under a computation. */
  lemma HeldKeeps(s: State, a: Action)
    requires Inv(s) && Held(s)
    ensures Held(Apply(s, a)) <==> !Harms(s, a)
  {
    var s' := Apply(s, a);
    if Harms(s, a) {
      var t :| t in s.tasks && s.tasks[t].Computing? && (a.Discard? ==> s.tasks[t].key == a.key);
      assert InFlight(s', t, s.tasks[t].key) && InFlight(s, t, s.tasks[t].key);
    } else {
      forall t, k | InFlight(s', t, k)
        ensures k in s'.caches && s'.caches[k] == s'.tasks[t].entry
      {
        if InFlight(s, t, k) && a.Complete? && Enabled(s, a) && InFlight(s, a.task, k) {
          HeldSingle(s);
        }
      }
    }
  }

  /** Otherwise the next `resolve` of that key starts a second computation beside the first. */
  lemma HarmDoubles(s: State, a: Action, t: Task, k: Key, u: Task)
    requires Harms(s, a) && InFlight(s, t, k) && (a.Discard? ==> k == a.key) && u !in s.tasks
    ensures var s' := Apply(Apply(s, a), Resolve(u, k)); InFlight(s', t, k) && InFlight(s', u, k) && t != u
  {
  }

  lemma {:induction false} FreshTask(s: State) returns (u: Task)
    ensures u !in s.tasks
  {
    u := Above(s.tasks.Keys);
  }

  lemma {:induction false} Above(ts: set<Task>) returns (u: Task)
    ensures forall t | t in ts :: t < u
    decreases |ts|
  {
    u := 0;
    if ts != {} {
      var t :| t in ts;
      var v := Above(ts - {t});
      u := if t < v then v else t + 1;
      forall w | w in ts
        ensures w < u
      {
        assert w == t || w in ts - {t};
      }
    }
  }

  // ----- over histories -----

  /** No action of the history takes an entry away from under a computation. */
  predicate Gentle(s: State, actions: seq<Action>)
    decreases |actions|
  {
    actions == [] || (!Harms(s, actions[0]) && Gentle(Apply(s, actions[0]), actions[1..]))
  }

  /** Whatever is resolved next, at whatever point of the history, no key is computed twice at a time. */
  ghost predicate OneAtATime(s: State, actions: seq<Action>)
    decreases |actions|
  {
    && !Doubled(s)
    && (forall u, k :: !Doubled(Apply(s, Resolve(u, k))))
    && (actions == [] || OneAtATime(Apply(s, actions[0]), actions[1..]))
  }

  lemma {:induction false} GentleSingle(s: State, actions: seq<Action>)
    requires Inv(s) && Held(s)
    ensures Gentle(s, actions) ==> OneAtATime(s, actions)
    decreases |actions|
  {
    HeldSingle(s);
    forall u, k
      ensures !Doubled(Apply(s, Resolve(u, k)))
    {
      ApplyKeeps(s, Resolve(u, k));
      HeldKeeps(s, Resolve(u, k));
      HeldSingle(Apply(s, Resolve(u, k)));
    }
    if actions != [] && !Harms(s, actions[0]) {
      ApplyKeeps(s, actions[0]);
      HeldKeeps(s, actions[0]);
      GentleSingle(Apply(s, actions[0]), actions[1..]);
    }
  }

  lemma {:induction false} SingleGentle(s: State, actions: seq<Action>)
    requires Inv(s) && Held(s) && OneAtATime(s, actions)
    ensures Gentle(s, actions)
    decreases |actions|
  {
    if actions != [] {
      var a := actions[0];
      if Harms(s, a) {
        var t :| t in s.tasks && s.tasks[t].Computing? && (a.Discard? ==> s.tasks[t].key == a.key);
        var u := FreshTask(s);
        HarmDoubles(s, a, t, s.tasks[t].key, u);
        assert Doubled(Apply(Apply(s, a), Resolve(u, s.tasks[t].key)));
        assert false;
      }
      ApplyKeeps(s, a);
      HeldKeeps(s, a);
      SingleGentle(Apply(s, a), actions[1..]);
    }
  }

  /**
   At most once, exactly: no key is, or can next be, computed twice at a time
   during a history if and only if none of its `discard`s and `clear`s hits a
   key that some task is computing.
   */
  lemma AtMostOnce(actions: seq<Action>)
    ensures Gentle(EMPTY, actions) <==> OneAtATime(EMPTY, actions)
  {
    hide Gentle, OneAtATime;
    GentleSingle(EMPTY, actions);
    if OneAtATime(EMPTY, actions) {
      SingleGentle(EMPTY, actions);
    }
  }

  /** A scope may be cleared whenever nothing is being computed: at most once goes on holding. */
  lemma IdleClear(s: State, a: Action)
    requires Inv(s) && Held(s) && (a.Clear? || a.Discard?)
    requires forall t | t in s.tasks :: !s.tasks[t].Computing?
    ensures Held(Apply(s, a)) && !Doubled(Apply(s, a))
  {
    ApplyKeeps(s, a);
    HeldKeeps(s, a);
    HeldSingle(Apply(s, a));
  }

  /**
   The harm goes on: a cancelled computation removes whatever entry its key has
   by then, so with two in flight a third can start beside the second.
   */
  lemma CancelRestarts(s: State, t: Task, u: Task, k: Key, v: Task)
    requires Inv(s) && t != u && InFlight(s, t, k) && InFlight(s, u, k) && v !in s.tasks
    ensures var s' := Apply(Apply(s, Complete(t, Cancelled)), Resolve(v, k));
            InFlight(s', u, k) && InFlight(s', v, k) && u != v
  {
    assert PhaseFits(s, s.tasks[t]);
  }

  // ----- the store as it is written -----

  class DependencyStore {
    var caches: map<Key, nat>
    var entries: seq<Entry>
    var tasks: map<Task, Phase>
    var log: seq<Event>

    constructor ()
      ensures Now() == EMPTY && Valid()
    {
      caches, entries, tasks, log := map[], [], map[], [];
    }

    ghost function Now(): State
      reads this
    {
      State(caches, entries, tasks, log)
    }

    ghost predicate Valid()
      reads this
    {
      Inv(Now())
    }

    /** `set_result` and `set_exception`; false stands for the error raised on an entry that is not pending. */
    method Settle(entry: nat, outcome: Outcome) returns (ok: bool)
      requires entry < |entries|
      modifies this`entries
      ensures ok <==> old(entries)[entry].Pending?
      ensures entries == if ok then old(entries)[entry := Finished(outcome)] else old(entries)
    {
      ok := entries[entry].Pending?;
      if ok {
        entries := entries[entry := Finished(outcome)];
      }
    }

    /** `resolve` up to its first await: park on the key's entry, or publish one and start computing. */
    method Begin(task: Task, key: Key)
      requires Valid() && task !in tasks
      modifies this
      ensures Valid() && Now() == Apply(old(Now()), Resolve(task, key))
    {
      ApplyKeeps(Now(), Resolve(task, key));
      if key in caches {
        tasks := tasks[task := Waiting(caches[key])];
      } else {
        var entry := |entries|;
        entries := entries + [Pending];
        caches := caches[key := entry];
        tasks := tasks[task := Computing(key, entry)];
        log := log + [Started(key)];
      }
    }

    /** The rest of `resolve` for the resolver that computes; the entry is always still pending, so nothing raises. */
    method End(task: Task, outcome: Outcome)
      requires Valid() && task in tasks && tasks[task].Computing?
      modifies this
      ensures Valid() && Now() == Apply(old(Now()), Complete(task, outcome))
    {
      ApplyKeeps(Now(), Complete(task, outcome));
      assert PhaseFits(Now(), tasks[task]);
      var Computing(key, entry) := tasks[task];
      var ok := Settle(entry, outcome);
      assert ok;
      if outcome.Cancelled? {
        log := log + [Removed({key} * caches.Keys)];
        caches := caches - {key};
      }
      tasks := tasks[task := Done(outcome, Some(entry))];
    }

    /** The rest of `resolve` for a resolver that waits, once its entry is finished. */
    method Answer(task: Task)
      requires Valid() && task in tasks && tasks[task].Waiting?
      requires tasks[task].entry < |entries| && entries[tasks[task].entry].Finished?
      modifies this
      ensures Valid() && Now() == Apply(old(Now()), Wake(task))
    {
      ApplyKeeps(Now(), Wake(task));
      var entry := tasks[task].entry;
      tasks := tasks[task := Done(entries[entry].outcome, Some(entry))];
    }

    method Forget(key: Key)
      requires Valid()
      modifies this`caches, this`log
      ensures Valid() && Now() == Apply(old(Now()), Discard(key))
    {
      ApplyKeeps(Now(), Discard(key));
      log := log + [Removed({key} * caches.Keys)];
      caches := caches - {key};
    }

    method ForgetAll()
      requires Valid()
      modifies this`caches, this`log
      ensures Valid() && Now() == Apply(old(Now()), Clear)
    {
      ApplyKeeps(Now(), Clear);
      log := log + [Removed(caches.Keys)];
      assert caches.Keys * caches.Keys == caches.Keys && caches - caches.Keys == map[];
      caches := map[];
    }
  }
}
