/** Runs of the pointer operations of one tag. */
module BspDrive {
  import opened Geometry
  import opened BspTree
  import opened BspLayout
  import opened BspOps
  import opened BspRuns
  import opened BspTag
  import opened BspHeap
  import opened BspNodes
  import opened BspWorkspace

  /** What the compositor calls; an operation on a container that does not apply is not called. */
  datatype Command =
    | Insert(c: Container, side: Side)
    | Treat(c: Container, action: Action)
    | Close(c: Container, lost: bool)
    | Leave(c: Container)
    | Drag(c: Container, n: nat, fact: real, passed: bool)
    | Alter(c: Container, fullscreen: bool, maximized: bool, minimized: bool, floating: bool)
    | Idle
    | Configure(to: Setting, serving: bool)

  ghost function About(cmd: Command): set<Container> {
    if cmd.Idle? || cmd.Configure? then {} else {cmd.c}
  }

  /** The state of a container but for its place and box. */
  datatype Look = Look(fullscreen: bool, maximized: bool, minimized: bool, floating: bool)

  ghost function LookOf(c: Container): Look
    reads c`fullscreen, c`maximized, c`minimized, c`floating
  {
    Look(c.fullscreen, c.maximized, c.minimized, c.floating)
  }

  ghost function Looks(cs: set<Container>): map<Container, Look>
    reads cs`fullscreen, cs`maximized, cs`minimized, cs`floating
  {
    map c | c in cs :: LookOf(c)
  }

  /** The states after a command: an insertion ends floating, and nothing else changes them but a change of state. */
  ghost function Seen(d: Desk<Container>, m: map<Container, Look>, cmd: Command): map<Container, Look> {
    match cmd
    case Insert(c, _) => if c in m && !Present(d.s, c) then m[c := m[c].(floating := false)] else m
    case Alter(c, fullscreen, maximized, minimized, floating) =>
      m[c := Look(fullscreen, maximized, minimized, floating)]
    case _ => m
  }

  /** The command as a step of the state machine; only the box of an inserted container is read off it. */
  ghost predicate Tells(d: Desk<Container>, m: map<Container, Look>, cmd: Command, e: Event<Container>) {
    match cmd
    case Insert(c, side) =>
      && c in m && e.Do? && e.op.Add? && e.op.side == side
      && e.op.guest == Guest(c, !m[c].fullscreen && !m[c].maximized, m[c].minimized || d.at.floats, e.op.guest.win)
    case Treat(c, action) => e == Do(On(c, action))
    case Close(c, lost) => c in m && e == Event.Close(c, lost || m[c].minimized)
    case Leave(c) => e == Event.Leave(c)
    case Drag(c, n, fact, passed) => e == Event.Drag(c, n, fact, passed)
    case Alter(c, fullscreen, maximized, _, floating) => e == Do(On(c, Mark(!fullscreen && !maximized, floating)))
    case Idle => e == Do(Flush)
    case Configure(to, serving) => e == Event.Change(to, serving)
  }

  /** The commands, one after the other, as steps of the state machine. */
  ghost predicate Told(d: Desk<Container>, m: map<Container, Look>, cmds: seq<Command>, es: seq<Event<Container>>)
    decreases |cmds|
  {
    && |es| == |cmds|
    && (cmds != [] ==>
          Tells(d, m, cmds[0], es[0]) && Told(Step(d, es[0]), Seen(d, m, cmds[0]), cmds[1..], es[1..]))
  }

  /** The states after all the commands. */
  ghost function SeenAll(d: Desk<Container>, m: map<Container, Look>, cmds: seq<Command>, es: seq<Event<Container>>)
    : map<Container, Look>
    requires |es| == |cmds|
    decreases |cmds|
  {
    if cmds == [] then m else SeenAll(Step(d, es[0]), Seen(d, m, cmds[0]), cmds[1..], es[1..])
  }

  lemma {:induction false} ToldThen(d: Desk<Container>, m: map<Container, Look>,
                                    cmds: seq<Command>, es: seq<Event<Container>>, cmd: Command, e: Event<Container>)
    requires Told(d, m, cmds, es)
    requires Tells(Run(d, es), SeenAll(d, m, cmds, es), cmd, e)
    ensures Told(d, m, cmds + [cmd], es + [e])
    ensures SeenAll(d, m, cmds + [cmd], es + [e]) == Seen(Run(d, es), SeenAll(d, m, cmds, es), cmd)
    ensures Run(d, es + [e]) == Step(Run(d, es), e)
    decreases |cmds|
  {
    if cmds == [] {
      assert (cmds + [cmd])[1..] == [] && (es + [e])[1..] == [];
    } else {
      assert (cmds + [cmd])[1..] == cmds[1..] + [cmd] && (es + [e])[1..] == es[1..] + [e];
      ToldThen(Step(d, es[0]), Seen(d, m, cmds[0]), cmds[1..], es[1..], cmd, e);
    }
  }

  ghost predicate Ready(w: Workspace, cs: set<Container>)
    reads w, w.NodesIn(), w.WindowsIn(), cs
  {
    w.Valid() && forall c :: c in cs && c.bspNode != null ==> c in w.WindowsIn()
  }

  ghost function DeskOf(w: Workspace): Desk<Container>
    requires w.Valid()
    reads w, w.NodesIn(), w.WindowsIn()
  {
    Desk(w.Abs(), w.now)
  }

  /** Only one of the containers looks different. */
  lemma LooksBut(cs: set<Container>, m: map<Container, Look>, c: Container)
    requires c in cs && m.Keys == cs && forall x :: x in cs && x != c ==> LookOf(x) == m[x]
    ensures Looks(cs) == m[c := LookOf(c)]
  {
  }

  method DoInsert(w: Workspace, c: Container, side: Side, ghost cs: set<Container>) returns (ghost e: Event<Container>)
    requires Ready(w, cs) && c in cs
    modifies w, c, w.NodesIn(), w.WindowsIn()`win
    ensures Ready(w, cs) && w.WindowsIn() <= old(w.WindowsIn()) + cs
    ensures forall n :: n in w.NodesIn() ==> n in old(w.NodesIn()) || fresh(n)
    ensures e == Do(Add(old(GuestOf(c, w.now.floats)), side)) && DeskOf(w) == Step(old(DeskOf(w)), e)
    ensures Looks(cs) == Seen(old(DeskOf(w)), old(Looks(cs)), Insert(c, side))
  {
    e := Do(Add(GuestOf(c, w.now.floats), side));
    w.NodeTells(c);
    if c.bspNode == null {
      DoInsertAbsent(w, c, side, cs);
    }
  }

  method DoInsertAbsent(w: Workspace, c: Container, side: Side, ghost cs: set<Container>)
    requires Ready(w, cs) && c in cs && c.bspNode == null
    modifies w, c, w.NodesIn(), w.WindowsIn()`win
    ensures Ready(w, cs) && w.WindowsIn() <= old(w.WindowsIn()) + cs
    ensures forall n :: n in w.NodesIn() ==> n in old(w.NodesIn()) || fresh(n)
    ensures DeskOf(w) == Step(old(DeskOf(w)), Do(Add(old(GuestOf(c, w.now.floats)), side)))
    ensures Looks(cs) == old(Looks(cs))[c := old(LookOf(c)).(floating := false)]
  {
    ghost var m := Looks(cs);
    w.InsertContainer(c, side);
    LooksBut(cs, m, c);
  }

  method DoTreat(w: Workspace, c: Container, action: Action, ghost cs: set<Container>)
    requires Ready(w, cs) && c in cs && !action.Mark?
    modifies w, w.NodesIn(), w.WindowsIn()`win, w.WindowsIn()`bspNode
    ensures Ready(w, cs) && w.WindowsIn() <= old(w.WindowsIn()) && w.NodesIn() <= old(w.NodesIn())
    ensures DeskOf(w) == Step(old(DeskOf(w)), Do(On(c, action)))
  {
    w.NodeTells(c);
    if c.bspNode == null {
      return;
    }
    match action {
      case Drop => w.RemoveContainer(c, true);
      case Show => w.EnableContainer(c);
      case Hide => w.DisableContainer(c);
      case Rotate => w.ToggleSplit(c);
      case Resize(fact) => w.SetFactor(c, fact);
      case Focus => w.FocusContainer(c);
    }
  }

  method DoClose(w: Workspace, c: Container, lost: bool, ghost cs: set<Container>)
    requires Ready(w, cs) && c in cs
    modifies w, w.NodesIn(), w.WindowsIn()`win, w.WindowsIn()`bspNode
    ensures Ready(w, cs) && w.WindowsIn() <= old(w.WindowsIn()) && w.NodesIn() <= old(w.NodesIn())
    ensures DeskOf(w) == Step(old(DeskOf(w)), Event.Close(c, lost || old(c.minimized)))
    ensures Looks(cs) == old(Looks(cs))
  {
    w.NodeTells(c);
    if c.bspNode != null {
      w.CloseContainer(c, lost);
    }
  }

  method DoLeave(w: Workspace, c: Container, ghost cs: set<Container>)
    requires Ready(w, cs) && c in cs
    modifies w, w.NodesIn(), w.WindowsIn()`win, w.WindowsIn()`bspNode
    ensures Ready(w, cs) && w.WindowsIn() <= old(w.WindowsIn()) && w.NodesIn() <= old(w.NodesIn())
    ensures DeskOf(w) == Step(old(DeskOf(w)), Event.Leave(c))
    ensures Looks(cs) == old(Looks(cs))
  {
    w.NodeTells(c);
    if c.bspNode != null {
      w.LeaveTag(c);
    }
  }

  method DoDrag(w: Workspace, c: Container, n: nat, fact: real, passed: bool, ghost cs: set<Container>)
    requires Ready(w, cs) && c in cs
    modifies w, w.NodesIn()
    ensures Ready(w, cs) && w.WindowsIn() == old(w.WindowsIn()) && w.NodesIn() == old(w.NodesIn())
    ensures DeskOf(w) == Step(old(DeskOf(w)), Event.Drag(c, n, fact, passed))
    ensures Looks(cs) == old(Looks(cs))
  {
    w.NodeTells(c);
    if c.bspNode != null {
      w.DragLine(c, n, fact, passed);
    }
  }

  method DoAlter(w: Workspace, c: Container, fullscreen: bool, maximized: bool, minimized: bool, floating: bool,
                 ghost cs: set<Container>)
    requires Ready(w, cs) && c in cs
    modifies w, c
    ensures Ready(w, cs) && w.WindowsIn() == old(w.WindowsIn()) && w.NodesIn() == old(w.NodesIn())
    ensures DeskOf(w) == Step(old(DeskOf(w)), Do(On(c, Mark(!fullscreen && !maximized, floating))))
    ensures Looks(cs) == old(Looks(cs))[c := Look(fullscreen, maximized, minimized, floating)]
  {
    ghost var m := Looks(cs);
    w.NodeTells(c);
    if c.bspNode != null {
      w.MarkContainer(c, fullscreen, maximized, floating);
    } else {
      w.AlterOutside(c, fullscreen, maximized, floating);
    }
    w.Minimize(c, minimized);
    LooksBut(cs, m, c);
  }

  method DoIdle(w: Workspace, ghost cs: set<Container>)
    requires Ready(w, cs)
    modifies w, w.NodesIn(), w.WindowsIn()`win
    ensures Ready(w, cs) && w.WindowsIn() == old(w.WindowsIn()) && w.NodesIn() == old(w.NodesIn())
    ensures DeskOf(w) == Step(old(DeskOf(w)), Do(Flush))
    ensures Looks(cs) == old(Looks(cs))
  {
    w.FlushLayout();
  }

  /** A change of setting that can happen is carried out, any other one refused. */
  method DoConfigure(w: Workspace, to: Setting, serving: bool, ghost cs: set<Container>)
    requires Ready(w, cs)
    modifies w
    ensures Ready(w, cs) && w.WindowsIn() == old(w.WindowsIn()) && w.NodesIn() == old(w.NodesIn())
    ensures DeskOf(w) == Step(old(DeskOf(w)), Event.Change(to, serving))
    ensures Looks(cs) == old(Looks(cs))
  {
    if to.Valid() && (serving ==> to == w.now.(area := to.area)) {
      w.ChangeSetting(to, serving);
    }
  }

  /** A command that treats a container in the tree, or takes it out. */
  method PerformInside(w: Workspace, cmd: Command, ghost cs: set<Container>) returns (ghost e: Event<Container>)
    requires Ready(w, cs) && About(cmd) <= cs && (cmd.Treat? || cmd.Close? || cmd.Leave? || cmd.Drag?)
    requires !(cmd.Treat? && cmd.action.Mark?)
    modifies w, w.NodesIn(), w.WindowsIn()`win, w.WindowsIn()`bspNode
    ensures Ready(w, cs) && w.WindowsIn() <= old(w.WindowsIn()) && w.NodesIn() <= old(w.NodesIn())
    ensures Tells(old(DeskOf(w)), old(Looks(cs)), cmd, e) && DeskOf(w) == Step(old(DeskOf(w)), e)
    ensures Looks(cs) == old(Looks(cs))
  {
    match cmd {
      case Treat(c, action) =>
        e := Do(On(c, action));
        DoTreat(w, c, action, cs);
      case Close(c, lost) =>
        e := Event.Close(c, lost || c.minimized);
        DoClose(w, c, lost, cs);
      case Leave(c) =>
        e := Event.Leave(c);
        DoLeave(w, c, cs);
      case Drag(c, n, fact, passed) =>
        e := Event.Drag(c, n, fact, passed);
        DoDrag(w, c, n, fact, passed, cs);
    }
  }

  /** A command, as a step of the state machine. */
  method Perform(w: Workspace, cmd: Command, ghost cs: set<Container>) returns (ghost e: Event<Container>)
    requires Ready(w, cs) && About(cmd) <= cs && !(cmd.Treat? && cmd.action.Mark?)
    modifies w, About(cmd), w.NodesIn(), w.WindowsIn()
    ensures Ready(w, cs) && w.WindowsIn() <= old(w.WindowsIn()) + cs
    ensures forall n :: n in w.NodesIn() ==> n in old(w.NodesIn()) || fresh(n)
    ensures Tells(old(DeskOf(w)), old(Looks(cs)), cmd, e) && DeskOf(w) == Step(old(DeskOf(w)), e)
    ensures Looks(cs) == Seen(old(DeskOf(w)), old(Looks(cs)), cmd)
    ensures cmd.Insert? ==> e == Do(Add(old(GuestOf(cmd.c, w.now.floats)), cmd.side))
  {
    match cmd {
      case Insert(c, side) =>
        e := DoInsert(w, c, side, cs);
      case Alter(c, fullscreen, maximized, minimized, floating) =>
        e := Do(On(c, Mark(!fullscreen && !maximized, floating)));
        DoAlter(w, c, fullscreen, maximized, minimized, floating, cs);
      case Idle =>
        e := Do(Flush);
        DoIdle(w, cs);
      case Configure(to, serving) =>
        e := Event.Change(to, serving);
        DoConfigure(w, to, serving, cs);
      case _ =>
        e := PerformInside(w, cmd, cs);
    }
  }

  ghost function AboutAll(cmds: seq<Command>): set<Container> {
    if cmds == [] then {} else About(cmds[0]) + AboutAll(cmds[1..])
  }

  lemma {:induction false} AboutEach(cmds: seq<Command>, i: nat)
    requires i < |cmds|
    ensures About(cmds[i]) <= AboutAll(cmds)
  {
    if i > 0 { AboutEach(cmds[1..], i - 1); }
  }

  lemma UpTo(cmds: seq<Command>, i: nat)
    requires i < |cmds|
    ensures cmds[..i] + [cmds[i]] == cmds[..i + 1]
  {
  }

  lemma {:induction false} AboutExist(cmds: seq<Command>)
    ensures forall c :: c in AboutAll(cmds) ==> allocated(c)
  {
    if cmds != [] { AboutExist(cmds[1..]); }
  }

  /**
   Every run of calls on the pointers is a run of the state machine: the tree stays proper, and
   its value, its focus, the request for a layout and the setting are those of the machine.
   */
  method Execute(w: Workspace, cmds: seq<Command>) returns (ghost es: seq<Event<Container>>)
    requires Ready(w, AboutAll(cmds)) && forall cmd :: cmd in cmds ==> !(cmd.Treat? && cmd.action.Mark?)
    modifies w, AboutAll(cmds), w.NodesIn(), w.WindowsIn()
    ensures w.Valid() && DeskOf(w) == Run(old(DeskOf(w)), es)
    ensures Told(old(DeskOf(w)), old(Looks(AboutAll(cmds))), cmds, es)
  {
    es := [];
    ghost var cs := AboutAll(cmds);
    ghost var (d, m) := (DeskOf(w), Looks(cs));
    for i := 0 to |cmds|
      invariant Ready(w, cs) && w.WindowsIn() <= old(w.WindowsIn()) + cs
      invariant forall n :: n in w.NodesIn() ==> n in old(w.NodesIn()) || fresh(n)
      invariant Told(d, m, cmds[..i], es)
      invariant DeskOf(w) == Run(d, es) && Looks(cs) == SeenAll(d, m, cmds[..i], es)
    {
      AboutEach(cmds, i);
      UpTo(cmds, i);
      ghost var e := Perform(w, cmds[i], cs);
      ToldThen(d, m, cmds[..i], es, cmds[i], e);
      es := es + [e];
    }
    assert cmds[..|cmds|] == cmds;
  }

  /** From a tag without windows: what the machine says of its runs from an empty tag holds of the pointers. */
  method Begin(at: Setting, cmds: seq<Command>) returns (w: Workspace, ghost es: seq<Event<Container>>)
    requires at.Valid() && forall cmd :: cmd in cmds ==> !(cmd.Treat? && cmd.action.Mark?)
    requires forall c :: c in AboutAll(cmds) ==> c.bspNode == null
    modifies AboutAll(cmds)
    ensures w.Valid() && DeskOf(w) == Run(Empty(at), es)
    ensures Told(Empty(at), old(Looks(AboutAll(cmds))), cmds, es)
  {
    AboutExist(cmds);
    w := new Workspace(at);
    assert Looks(AboutAll(cmds)) == old(Looks(AboutAll(cmds)));
    es := Execute(w, cmds);
  }
}
