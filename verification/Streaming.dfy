/**
 The suspend / resume handshake of a stream: producers pause at tagged points
 while a suspension is requested, and one `resume` lets them go on. Sections
 under the state lock are single actions; so is the wake-up of a coroutine.
 */
module Streaming {
  import opened Options

  type Tag = nat
  type Producer = nat
  type Requester = nat

  /**
   `first` marks the producer that created the resume signal and owns it; the
   others wait on futures of their own, completed when the signal is done.
   `Leaving` is the owner after its wait, before it takes the lock again.
   */
  datatype Phase = Free | Blocked(signal: nat, first: bool) | Leaving(signal: nat)

  /** `Noticed` is `wait_to_suspend` after its wait, before its final section. */
  datatype Request = Idle | Asking(signal: nat) | Noticed

  /** Every suspend and resume signal ever made, and whether it is done; which of them are current. */
  datatype State = State(
    suspends: seq<bool>,
    resumes: seq<bool>,
    suspendSignal: Option<nat>,
    tags: seq<Tag>,
    resumeSignal: Option<nat>,
    producers: map<Producer, Phase>,
    requesters: map<Requester, Request>
  )

  const QUIET := State([], [], None, [], None, map[], map[])

  datatype Action =
    | Pause(producer: Producer, tag: Option<Tag>)   // `_wait_for_continue` up to its await
    | Release(producer: Producer)                   // the awaited future is done
    | CancelProducer(producer: Producer)            // the waiting coroutine is cancelled
    | CleanUp(producer: Producer)                   // the owner's final section
    | Ask(requester: Requester, tags: seq<Tag>)     // `wait_to_suspend` up to its await
    | Notice(requester: Requester)                  // suspended, timed out or cancelled
    | Finish(requester: Requester)                  // its final section
    | Resume

  function PhaseOf(s: State, p: Producer): Phase {
    if p in s.producers then s.producers[p] else Free
  }

  function RequestOf(s: State, r: Requester): Request {
    if r in s.requesters then s.requesters[r] else Idle
  }

  predicate Is(signals: seq<bool>, f: nat) {
    f < |signals| && signals[f]
  }

  function Done(signals: seq<bool>, f: nat): (r: seq<bool>)
    ensures |r| == |signals|
  {
    if f < |signals| then signals[f := true] else signals
  }

  /** Whether a break point with this tag has to block. */
  predicate Blocks(s: State, tag: Option<Tag>) {
    s.suspendSignal.Some? && (s.tags == [] || (tag.Some? && tag.value in s.tags))
  }

  /** A resume signal that producers are waiting for. */
  predicate Pending(s: State) {
    s.resumeSignal.Some? && !Is(s.resumes, s.resumeSignal.value)
  }

  function Paused(s: State, p: Producer): State
    requires s.suspendSignal.Some?
  {
    if Pending(s) then s.(producers := s.producers[p := Blocked(s.resumeSignal.value, false)])
    else
      var f := |s.resumes|;
      s.(suspends := Done(s.suspends, s.suspendSignal.value), resumes := s.resumes + [false],
         resumeSignal := Some(f), producers := s.producers[p := Blocked(f, true)])
  }

  function Apply(s: State, a: Action): State {
    match a
    case Pause(p, tag) => if PhaseOf(s, p).Free? && Blocks(s, tag) then Paused(s, p) else s
    case Release(p) =>
      var phase := PhaseOf(s, p);
      if phase.Blocked? && Is(s.resumes, phase.signal)
      then s.(producers := s.producers[p := if phase.first then Leaving(phase.signal) else Free]) else s
    case CancelProducer(p) =>
      var phase := PhaseOf(s, p);
      if !phase.Blocked? then s
      else if phase.first
      then s.(resumes := Done(s.resumes, phase.signal), producers := s.producers[p := Leaving(phase.signal)])
      else s.(producers := s.producers[p := Free])
    case CleanUp(p) =>
      var phase := PhaseOf(s, p);
      if !phase.Leaving? then s
      else if s.resumeSignal == Some(phase.signal)
      then s.(producers := s.producers[p := Free], resumes := Done(s.resumes, phase.signal), resumeSignal := None)
      else s.(producers := s.producers[p := Free])
    case Ask(r, tags) =>
      if !RequestOf(s, r).Idle? then s
      else if s.suspendSignal.Some? && !Is(s.suspends, s.suspendSignal.value) then s   // StreamStateError
      else
        var f := |s.suspends|;
        s.(suspends := s.suspends + [false], suspendSignal := Some(f), tags := tags,
           requesters := s.requesters[r := Asking(f)])
    case Notice(r) =>
      var request := RequestOf(s, r);
      if request.Asking?
      then s.(suspends := Done(s.suspends, request.signal), requesters := s.requesters[r := Noticed]) else s
    case Finish(r) =>
      if RequestOf(s, r).Noticed?
      then s.(suspendSignal := None, tags := [], requesters := s.requesters[r := Idle]) else s
    case Resume => if Pending(s) then s.(resumes := Done(s.resumes, s.resumeSignal.value)) else s
  }

  function Run(s: State, actions: seq<Action>): State
    decreases |actions|
  {
    if actions == [] then s else Run(Apply(s, actions[0]), actions[1..])
  }

  // ----- producers -----

  /** Each blocked producer waits for the current resume signal or for one that is done. */
  ghost predicate NoneStranded(s: State) {
    && (s.resumeSignal.Some? ==> s.resumeSignal.value < |s.resumes|)
    && (forall p :: Held(s, PhaseOf(s, p)))
  }

  ghost predicate Held(s: State, phase: Phase) {
    match phase
    case Free => true
    case Blocked(f, _) => f < |s.resumes| && (Is(s.resumes, f) || s.resumeSignal == Some(f))
    case Leaving(f) => Is(s.resumes, f)
  }

  lemma ApplyKeeps(s: State, a: Action)
    requires NoneStranded(s)
    ensures NoneStranded(Apply(s, a))
  {
    var s' := Apply(s, a);
    forall p
      ensures Held(s', PhaseOf(s', p))
    {
      assert Held(s, PhaseOf(s, p));
      if a.CleanUp? {
        assert Held(s, PhaseOf(s, a.producer));
      }
    }
  }

  lemma {:induction false} RunKeeps(s: State, actions: seq<Action>)
    requires NoneStranded(s)
    ensures NoneStranded(Run(s, actions))
    decreases |actions|
  {
    if actions != [] {
      ApplyKeeps(s, actions[0]);
      RunKeeps(Apply(s, actions[0]), actions[1..]);
    }
  }

  /** After any actions whatever, one `resume` releases every producer blocked at that moment. */
  lemma ResumeReleasesAll(actions: seq<Action>, p: Producer)
    ensures var s := Run(QUIET, actions);
            var s' := Apply(s, Resume);
            PhaseOf(s, p).Blocked? ==>
              && PhaseOf(s', p) == PhaseOf(s, p) && Is(s'.resumes, PhaseOf(s, p).signal)
              && !PhaseOf(Apply(s', Release(p)), p).Blocked?
  {
    RunKeeps(QUIET, actions);
    assert Held(Run(QUIET, actions), PhaseOf(Run(QUIET, actions), p));
  }

  /**
   And nothing else lets a blocked producer go: it stays blocked through every
   action but a resume, its own cancellation, and the cancellation of the
   producer that owns the signal.
   */
  lemma StaysBlocked(s: State, a: Action, p: Producer)
    requires NoneStranded(s) && PhaseOf(s, p).Blocked? && !Is(s.resumes, PhaseOf(s, p).signal)
    ensures var f := PhaseOf(s, p).signal;
            var s' := Apply(s, a);
            (PhaseOf(s', p) == PhaseOf(s, p) && !Is(s'.resumes, f)) <==>
            !(a.Resume? || (a.CancelProducer? && (a.producer == p || PhaseOf(s, a.producer) == Blocked(f, true))))
  {
    assert Held(s, PhaseOf(s, p));
    if a.CancelProducer? || a.CleanUp? {
      assert Held(s, PhaseOf(s, a.producer));
    }
  }

  /** A blocked producer whose signal is done goes on: released, and, if it owned the signal, after its clean-up. */
  lemma GoesOn(s: State, p: Producer)
    requires PhaseOf(s, p).Blocked? && Is(s.resumes, PhaseOf(s, p).signal)
    ensures var s' := Apply(s, Release(p));
            && PhaseOf(s', p) == (if PhaseOf(s, p).first then Leaving(PhaseOf(s, p).signal) else Free)
            && PhaseOf(Apply(s', CleanUp(p)), p).Free?
            && (PhaseOf(s, p).first ==> Apply(s', CleanUp(p)).resumeSignal != Some(PhaseOf(s, p).signal))
  {
  }

  /**
   The first producer to block since the last resume owns the signal: its
   cancellation lets go everyone who joined it, theirs lets go only themselves.
   */
  lemma OwnerReleases(s: State, p: Producer, q: Producer, tag: Option<Tag>, tag': Option<Tag>)
    requires NoneStranded(s) && p != q && PhaseOf(s, p).Free? && PhaseOf(s, q).Free? && !Pending(s)
    requires Blocks(s, tag) && Blocks(s, tag')
    ensures var s' := Apply(Apply(s, Pause(p, tag)), Pause(q, tag'));
            && PhaseOf(s', p).Blocked? && PhaseOf(s', q).Blocked?
            && PhaseOf(Apply(Apply(s', CancelProducer(p)), Release(q)), q).Free?
            && PhaseOf(Apply(Apply(s', CancelProducer(q)), Release(p)), p) == PhaseOf(s', p)
            && PhaseOf(Apply(s', CancelProducer(q)), q).Free?
  {
  }

  // ----- requesters -----

  /**
   A request learns that a producer blocked if and only if that producer is the
   first since the last resume: one that joins others already blocked leaves
   the suspend signal as it is.
   */
  lemma PauseNotices(s: State, p: Producer, tag: Option<Tag>)
    requires PhaseOf(s, p).Free? && Blocks(s, tag) && s.suspendSignal.value < |s.suspends|
    requires !Is(s.suspends, s.suspendSignal.value)
    ensures Is(Apply(s, Pause(p, tag)).suspends, s.suspendSignal.value) <==> !Pending(s)
  {
  }

  /** A request that waits, for a signal that is not done and no longer current. */
  ghost predicate Displaced(s: State, r: Requester) {
    && RequestOf(s, r).Asking? && RequestOf(s, r).signal < |s.suspends|
    && !Is(s.suspends, RequestOf(s, r).signal) && s.suspendSignal != Some(RequestOf(s, r).signal)
  }

  ghost predicate Current(s: State, r: Requester) {
    && RequestOf(s, r).Asking? && RequestOf(s, r).signal < |s.suspends|
    && !Is(s.suspends, RequestOf(s, r).signal) && s.suspendSignal == Some(RequestOf(s, r).signal)
  }

  /** Each signal is waited for by the request that made it, and by no other. */
  ghost predicate Owned(s: State) {
    && (s.suspendSignal.Some? ==> s.suspendSignal.value < |s.suspends|)
    && (forall r :: RequestOf(s, r).Asking? ==> RequestOf(s, r).signal < |s.suspends|)
    && (forall r, q | RequestOf(s, r).Asking? && RequestOf(s, q).Asking? ::
          RequestOf(s, r).signal == RequestOf(s, q).signal ==> r == q)
  }

  lemma OwnedKeeps(s: State, a: Action)
    requires Owned(s)
    ensures Owned(Apply(s, a))
  {
    var s' := Apply(s, a);
    assert forall r :: RequestOf(s', r).Asking? ==> RequestOf(s', r) == RequestOf(s, r) || (a.Ask? && a.requester == r);
  }

  /** A current request is displaced by exactly one thing: an earlier request finishing after it. */
  lemma FinishDisplaces(s: State, a: Action, r: Requester)
    requires Owned(s) && Current(s, r)
    ensures Displaced(Apply(s, a), r) <==> a.Finish? && RequestOf(s, a.requester).Noticed?
  {
  }

  /** Once displaced, a request is never answered: only its own timeout or cancellation ends it. */
  lemma {:induction false} DisplacedStays(s: State, actions: seq<Action>, r: Requester)
    requires Owned(s) && Displaced(s, r) && Notice(r) !in actions
    ensures Displaced(Run(s, actions), r)
    decreases |actions|
  {
    if actions != [] {
      var a := actions[0];
      assert a in actions;
      OwnedKeeps(s, a);
      if a.Notice? && RequestOf(s, a.requester).Asking? {
        assert RequestOf(s, a.requester).signal != RequestOf(s, r).signal;
      }
      assert Displaced(Apply(s, a), r);
      forall b | b in actions[1..]
        ensures b in actions
      {
      }
      DisplacedStays(Apply(s, a), actions[1..], r);
    }
  }

  /** It happens: the second request is made while the first has been noticed but has not finished. */
  lemma DisplacedReachable()
    ensures Displaced(Run(QUIET, [Ask(1, []), Pause(5, None), Ask(2, []), Notice(1), Finish(1)]), 2)
  {
    var s1 := Apply(QUIET, Ask(1, []));
    var s2 := Apply(s1, Pause(5, None));
    var s3 := Apply(s2, Ask(2, []));
    var s4 := Apply(s3, Notice(1));
    var s5 := Apply(s4, Finish(1));
    assert s3.suspends == [true, false] && s3.suspendSignal == Some(1) && RequestOf(s3, 2) == Asking(1);
    assert s5.suspends == [true, false] && s5.suspendSignal == None && RequestOf(s5, 2) == Asking(1);
    assert Run(s4, [Finish(1)]) == Run(s5, []) == s5;
    assert Run(s3, [Notice(1), Finish(1)]) == s5;
    assert Run(s2, [Ask(2, []), Notice(1), Finish(1)]) == s5;
    assert Run(s1, [Pause(5, None), Ask(2, []), Notice(1), Finish(1)]) == s5;
  }

  // ----- which break points block, from the history of requests -----

  lemma {:induction false} RunAppend(s: State, actions: seq<Action>, a: Action)
    ensures Run(s, actions + [a]) == Apply(Run(s, actions), a)
    decreases |actions|
  {
    hide Apply;
    if actions == [] {
      assert [a][1..] == [] && [] + [a] == [a];
      assert Run(Apply(s, a), []) == Apply(s, a);
    } else {
      assert (actions + [a])[1..] == actions[1..] + [a];
      RunAppend(Apply(s, actions[0]), actions[1..], a);
    }
  }

  /**
   The tags asked for by the last request that was accepted, unless a request
   has finished since; nothing if there is none.
   */
  function AskedTags(actions: seq<Action>): Option<seq<Tag>> {
    if actions == [] then None
    else
      var earlier := actions[..|actions| - 1];
      var s := Run(QUIET, earlier);
      match actions[|actions| - 1]
      case Ask(r, tags) =>
        if RequestOf(s, r).Idle? && RequestOf(Apply(s, Ask(r, tags)), r).Asking? then Some(tags)
        else AskedTags(earlier)
      case Finish(r) => if RequestOf(s, r).Noticed? then None else AskedTags(earlier)
      case _ => AskedTags(earlier)
  }

  lemma {:induction false} TagsKept(actions: seq<Action>)
    ensures var s := Run(QUIET, actions);
            if AskedTags(actions).Some? then s.suspendSignal.Some? && s.tags == AskedTags(actions).value
            else s.suspendSignal.None?
    decreases |actions|
  {
    if actions != [] {
      var n := |actions| - 1;
      TagsKept(actions[..n]);
      RunAppend(QUIET, actions[..n], actions[n]);
      assert actions == actions[..n] + [actions[n]];
      hide Run;
    }
  }

  /**
   After any actions, a producer that comes to a break point blocks if and
   only if that request asked for no tags or for the break point's.
   */
  lemma TagFilter(actions: seq<Action>, p: Producer, tag: Option<Tag>)
    requires PhaseOf(Run(QUIET, actions), p).Free?
    ensures PhaseOf(Apply(Run(QUIET, actions), Pause(p, tag)), p).Blocked? <==>
              match AskedTags(actions)
              case None => false
              case Some(tags) => tags == [] || (tag.Some? && tag.value in tags)
  {
    TagsKept(actions);
  }

  /** A current signal that is not done has a request waiting for it. */
  ghost predicate Waited(s: State) {
    s.suspendSignal.Some? && !Is(s.suspends, s.suspendSignal.value) ==>
      exists q :: RequestOf(s, q) == Asking(s.suspendSignal.value)
  }

  lemma WaitedKeeps(s: State, a: Action)
    requires Owned(s) && Waited(s)
    ensures Waited(Apply(s, a))
  {
    var s' := Apply(s, a);
    if s'.suspendSignal.Some? && !Is(s'.suspends, s'.suspendSignal.value) {
      if s'.suspendSignal == s.suspendSignal {
        var q :| RequestOf(s, q) == Asking(s.suspendSignal.value);
        assert RequestOf(s', q) == Asking(s'.suspendSignal.value);
      } else {
        assert a.Ask? && RequestOf(s', a.requester) == Asking(s'.suspendSignal.value);
      }
    }
  }

  lemma {:induction false} RunWaited(s: State, actions: seq<Action>)
    requires Owned(s) && Waited(s)
    ensures Owned(Run(s, actions)) && Waited(Run(s, actions))
    decreases |actions|
  {
    if actions != [] {
      OwnedKeeps(s, actions[0]);
      WaitedKeeps(s, actions[0]);
      RunWaited(Apply(s, actions[0]), actions[1..]);
    }
  }

  /** A request that was noticed finishes idle, and may ask again. */
  lemma FinishesIdle(s: State, r: Requester, tags: seq<Tag>)
    requires RequestOf(s, r).Noticed?
    ensures var s' := Apply(s, Finish(r));
            RequestOf(s', r).Idle? && RequestOf(Apply(s', Ask(r, tags)), r).Asking?
  {
  }

  /** After any actions, a new request is accepted if and only if no other still waits for the current signal. */
  lemma AskAccepted(actions: seq<Action>, r: Requester, tags: seq<Tag>)
    requires RequestOf(Run(QUIET, actions), r).Idle?
    ensures var s := Run(QUIET, actions);
            RequestOf(Apply(s, Ask(r, tags)), r).Asking? <==> !exists q :: Current(s, q)
  {
    RunWaited(QUIET, actions);
    var s := Run(QUIET, actions);
    if s.suspendSignal.Some? && !Is(s.suspends, s.suspendSignal.value) {
      var q :| RequestOf(s, q) == Asking(s.suspendSignal.value);
      assert Current(s, q);
    }
  }

  // ----- the stream as it is written -----

  class SuspendObjectStream {
    var suspends: seq<bool>
    var resumes: seq<bool>
    var suspendSignal: Option<nat>
    var suspendTags: seq<Tag>
    var resumeSignal: Option<nat>
    var producers: map<Producer, Phase>
    var requesters: map<Requester, Request>

    constructor ()
      ensures Now() == QUIET && Valid()
    {
      suspends, resumes, suspendSignal, suspendTags, resumeSignal := [], [], None, [], None;
      producers, requesters := map[], map[];
    }

    ghost function Now(): State
      reads this
    {
      State(suspends, resumes, suspendSignal, suspendTags, resumeSignal, producers, requesters)
    }

    ghost predicate Valid()
      reads this
    {
      NoneStranded(Now()) && Owned(Now())
    }

    /** False if nothing asks this break point to block. */
    method WaitForContinue(p: Producer, tag: Option<Tag>) returns (blocked: bool)
      requires Valid() && PhaseOf(Now(), p).Free?
      modifies this
      ensures Valid() && Now() == Apply(old(Now()), Pause(p, tag))
      ensures blocked <==> Blocks(old(Now()), tag)
    {
      ApplyKeeps(Now(), Pause(p, tag));
      OwnedKeeps(Now(), Pause(p, tag));
      assert suspendSignal.Some? ==> suspendSignal.value < |suspends|;
      assert resumeSignal.Some? ==> resumeSignal.value < |resumes|;
      hide NoneStranded, Owned;
      if suspendSignal.None? {
        return false;
      }
      if suspendTags != [] {
        if tag.None? || tag.value !in suspendTags {
          return false;
        }
      }
      if resumeSignal.Some? && !resumes[resumeSignal.value] {
        producers := producers[p := Blocked(resumeSignal.value, false)];
      } else {
        assert suspends[suspendSignal.value] ==> Done(suspends, suspendSignal.value) == suspends;
        if !suspends[suspendSignal.value] {
          suspends := suspends[suspendSignal.value := true];
        }
        var f := |resumes|;
        resumes := resumes + [false];
        resumeSignal := Some(f);
        producers := producers[p := Blocked(f, true)];
      }
      return true;
    }

    /** The `finally` part of the owner; its signal is always done by then, so the cancel the code guards never runs. */
    method LeaveSuspension(p: Producer)
      requires Valid() && p in producers && producers[p].Leaving?
      modifies this
      ensures Valid() && Now() == Apply(old(Now()), CleanUp(p))
    {
      ApplyKeeps(Now(), CleanUp(p));
      OwnedKeeps(Now(), CleanUp(p));
      var fut := producers[p].signal;
      assert Held(Now(), PhaseOf(Now(), p));
      assert resumes[fut] && Done(resumes, fut) == resumes;
      hide NoneStranded, Owned;
      if resumeSignal == Some(fut) {
        resumeSignal := None;
      }
      producers := producers[p := Free];
    }

    /** `wait_to_suspend`; false stands for the error raised while another request still waits. */
    method RequestSuspend(r: Requester, tags: seq<Tag>) returns (ok: bool)
      requires Valid() && RequestOf(Now(), r).Idle?
      modifies this
      ensures Valid() && Now() == Apply(old(Now()), Ask(r, tags))
      ensures ok <==> RequestOf(Now(), r).Asking?
    {
      ApplyKeeps(Now(), Ask(r, tags));
      OwnedKeeps(Now(), Ask(r, tags));
      if suspendSignal.Some? {
        if suspends[suspendSignal.value] {
          suspendSignal := None;
        } else {
          return false;
        }
      }
      suspendTags := tags;
      var f := |suspends|;
      suspends := suspends + [false];
      suspendSignal := Some(f);
      requesters := requesters[r := Asking(f)];
      return true;
    }

    method FinishRequest(r: Requester)
      requires Valid() && r in requesters && requesters[r].Noticed?
      modifies this
      ensures Valid() && Now() == Apply(old(Now()), Finish(r))
    {
      ApplyKeeps(Now(), Finish(r));
      OwnedKeeps(Now(), Finish(r));
      suspendSignal := None;
      suspendTags := [];
      requesters := requesters[r := Idle];
    }

    /** Afterwards no producer is blocked on a signal that is not done. */
    method ResumeAll()
      requires Valid()
      modifies this`resumes
      ensures Valid() && Now() == Apply(old(Now()), Resume)
      ensures forall p :: PhaseOf(Now(), p).Blocked? ==> Is(resumes, PhaseOf(Now(), p).signal)
    {
      ApplyKeeps(Now(), Resume);
      OwnedKeeps(Now(), Resume);
      assert forall p :: Held(Now(), PhaseOf(Now(), p));
      if resumeSignal.Some? && !resumes[resumeSignal.value] {
        resumes := resumes[resumeSignal.value := true];
      }
    }
  }
}
