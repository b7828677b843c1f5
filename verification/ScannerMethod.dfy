/**
 The scan over the nodes themselves: CONTINUE and BREAK_LOOP nodes are objects,
 and configuring one changes it wherever it is used.
 */
module ScannerMethod {
  import opened Options
  import opened Machine
  import opened Scanner

  /** `target` is `_target_pos` once `_configured` is set. */
  class LoopControlNode {
    const isContinue: bool
    var target: Option<nat>

    constructor (isContinue: bool)
      ensures this.isContinue == isContinue && target == None
    {
      this.isContinue := isContinue;
      target := None;
    }

    function Now(): Mark
      reads this
    {
      Mark(isContinue, target)
    }
  }

  type Child = Part<LoopControlNode>

  /** Every loop-control node of a child, and those the scan visits. */
  ghost function Controls(k: Child): set<LoopControlNode>
    decreases k
  {
    match k
    case Ctl(c) => {c}
    case Compose(kids) => ControlsOf(kids)
    case _ => {}
  }

  ghost function ControlsOf(kids: seq<Child>): set<LoopControlNode>
    decreases kids
  {
    set i, c | 0 <= i < |kids| && c in Controls(kids[i]) :: c
  }

  ghost function Visited(k: Child): set<LoopControlNode>
    decreases k
  {
    match k
    case Ctl(c) => {c}
    case Compose(kids) => if Boundary(k) then {} else VisitedOf(kids)
    case _ => {}
  }

  ghost function VisitedOf(kids: seq<Child>): set<LoopControlNode>
    decreases kids
  {
    set i, c | 0 <= i < |kids| && c in Visited(kids[i]) :: c
  }

  /** What the nodes hold at one moment. */
  type Snapshot = map<LoopControlNode, Mark>

  ghost function Snap(nodes: set<LoopControlNode>): Snapshot
    reads nodes
  {
    map c | c in nodes :: c.Now()
  }

  /** A child as the value `Scanner` works on. */
  ghost function View(k: Child, m: Snapshot): Part<Mark>
    decreases k
  {
    match k
    case Plain(i) => Plain(i)
    case Ctl(c) => Ctl(if c in m then m[c] else Mark(c.isContinue, None))
    case Compose(kids) => Compose(ViewOf(kids, m))
    case Sealed(t) => Sealed(t)
  }

  ghost function ViewOf(kids: seq<Child>, m: Snapshot): (r: seq<Part<Mark>>)
    ensures |r| == |kids|
    decreases kids
  {
    seq(|kids|, i requires 0 <= i < |kids| => View(kids[i], m))
  }

  /** What one scan does to a node: the first loop to see it decides. */
  function Aimed(m: Mark, cont: nat, brk: nat): Mark {
    if m.target.Some? then m else m.(target := Some(if m.isContinue then cont else brk))
  }

  /** If visited nodes are aimed and all others untouched, the children read as `Scan` says. */
  lemma {:induction false} ViewScans(k: Child, m: Snapshot, m': Snapshot, cont: nat, brk: nat)
    requires Guarded(View(k, m)) && Controls(k) <= m.Keys && Controls(k) <= m'.Keys
    requires forall c | c in Controls(k) :: m'[c] == m[c] || m'[c] == Aimed(m[c], cont, brk)
    requires forall c | c in Visited(k) :: c in Controls(k) && m'[c] == Aimed(m[c], cont, brk)
    ensures View(k, m') == ScanOne(View(k, m), cont, brk)
    decreases k
  {
    if k.Compose? {
      BoundarySeen(k, m);
      if Boundary(k) {
        ViewKept(k, m, m', cont, brk);
      } else {
        VisitedControls(k.kids);
        forall i | 0 <= i < |k.kids|
          ensures ViewOf(k.kids, m')[i] == ScanOne(ViewOf(k.kids, m)[i], cont, brk)
        {
          assert ViewOf(k.kids, m)[i] in ViewOf(k.kids, m);
          VisitedControl(k.kids[i]);
          ViewScans(k.kids[i], m, m', cont, brk);
        }
      }
    }
  }

  lemma BoundarySeen(k: Child, m: Snapshot)
    ensures Boundary(View(k, m)) == Boundary(k)
  {
    if k.Compose? && k.kids != [] {
      assert ViewOf(k.kids, m)[0] == View(k.kids[0], m);
    }
  }

  lemma {:induction false} ViewKept(k: Child, m: Snapshot, m': Snapshot, cont: nat, brk: nat)
    requires Configured(View(k, m)) && Controls(k) <= m.Keys && Controls(k) <= m'.Keys
    requires forall c | c in Controls(k) :: m'[c] == m[c] || m'[c] == Aimed(m[c], cont, brk)
    ensures View(k, m') == View(k, m)
    decreases k
  {
    if k.Compose? {
      forall i | 0 <= i < |k.kids|
        ensures ViewOf(k.kids, m')[i] == ViewOf(k.kids, m)[i]
      {
        assert ViewOf(k.kids, m)[i] in ViewOf(k.kids, m);
        ViewKept(k.kids[i], m, m', cont, brk);
      }
    }
  }

  lemma {:induction false} VisitedControl(k: Child)
    ensures Visited(k) <= Controls(k)
    decreases k, 1
  {
    if k.Compose? {
      VisitedControls(k.kids);
    }
  }

  lemma {:induction false} VisitedControls(kids: seq<Child>)
    ensures VisitedOf(kids) <= ControlsOf(kids)
    decreases kids, 0
  {
    forall i | 0 <= i < |kids|
      ensures Visited(kids[i]) <= Controls(kids[i])
    {
      VisitedControl(kids[i]);
    }
  }

  /**
   `_configure_loop_control_nodes`. Every node it visits gets the loop's slot
   unless a loop inside configured it before, and nothing else changes, however
   often a node is used.
   */
  method ConfigureLoopControlNodes(kids: seq<Child>, cont: nat, brk: nat)
    modifies VisitedOf(kids)
    ensures forall c | c in VisitedOf(kids) :: c.Now() == Aimed(old(Snap(VisitedOf(kids)))[c], cont, brk)
    decreases kids
  {
    ghost var was := Snap(VisitedOf(kids));
    for i := 0 to |kids|
      invariant forall c | c in VisitedOf(kids) ::
                  c.Now() == if c in VisitedOf(kids[..i]) then Aimed(was[c], cont, brk) else was[c]
    {
      var child := kids[i];
      assert VisitedOf(kids[..i + 1]) == VisitedOf(kids[..i]) + Visited(child) by {
        VisitedStep(kids, i);
      }
      VisitedPart(kids, i);
      if child.Ctl? {
        if child.control.target.None? {
          child.control.target := Some(if child.control.isContinue then cont else brk);
        }
      } else if child.Compose? && !Boundary(child) {
        ConfigureLoopControlNodes(child.kids, cont, brk);
      }
    }
    assert kids[..|kids|] == kids;
  }

  lemma VisitedPart(kids: seq<Child>, i: nat)
    requires i < |kids|
    ensures Visited(kids[i]) <= VisitedOf(kids)
  {
  }

  lemma VisitedStep(kids: seq<Child>, i: nat)
    requires i < |kids|
    ensures VisitedOf(kids[..i + 1]) == VisitedOf(kids[..i]) + Visited(kids[i])
  {
    var a, b := kids[..i + 1], kids[..i];
    assert forall j | 0 <= j < i :: a[j] == b[j];
    assert a[i] == kids[i];
    forall c | c in VisitedOf(a)
      ensures c in VisitedOf(b) + Visited(kids[i])
    {
      var j :| 0 <= j < |a| && c in Visited(a[j]);
    }
    forall c | c in VisitedOf(b)
      ensures c in VisitedOf(a)
    {
      var j :| 0 <= j < |b| && c in Visited(b[j]);
      assert c in Visited(a[j]);
    }
    forall c | c in Visited(kids[i])
      ensures c in VisitedOf(a)
    {
      assert c in Visited(a[i]);
    }
  }

  /** The scan of a loop's body slot, on nodes, is the scan of `Scanner` on what they hold. */
  method ScanBodySlot(kids: seq<Child>, cont: nat, brk: nat)
    requires forall k | k in ViewOf(kids, Snap(ControlsOf(kids))) :: Guarded(k)
    modifies VisitedOf(kids)
    ensures ViewOf(kids, Snap(ControlsOf(kids))) == Scan(old(ViewOf(kids, Snap(ControlsOf(kids)))), cont, brk)
  {
    ghost var m := Snap(ControlsOf(kids));
    VisitedControls(kids);
    ConfigureLoopControlNodes(kids, cont, brk);
    ghost var m' := Snap(ControlsOf(kids));
    forall i | 0 <= i < |kids|
      ensures View(kids[i], m') == ScanOne(View(kids[i], m), cont, brk)
    {
      assert ViewOf(kids, m)[i] in ViewOf(kids, m);
      VisitedControl(kids[i]);
      VisitedPart(kids, i);
      assert Controls(kids[i]) <= ControlsOf(kids);
      ViewScans(kids[i], m, m', cont, brk);
    }
  }
}
