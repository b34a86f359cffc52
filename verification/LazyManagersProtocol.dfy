/**
 Concurrent lookups, listings and resets of the kcp and kubeconfig providers. A lookup settles its
 target without a lock, reads the table under the shared lock, gives the lock up, takes it
 exclusively and looks again. A reset holds the lock from its first step to its last.
 */
module LazyManagersProtocol {
  import opened Wrappers
  import opened LazyManagers

  /** What a caller got: the manager with this number, for this target, after so many resets. */
  datatype Answer = Answer(epoch: nat, target: string, id: nat)

  /** A manager; the one that a reset makes is not published before the configuration has been read. */
  datatype Made = Made(epoch: nat, target: string, published: bool)

  /** The fields of the provider that a reset writes. */
  datatype Registers = Registers(table: Table<nat>, defaultTarget: string, server: string)

  /** The server and the default target that a reset has taken over. */
  datatype Taken = Taken(server: string, defaultTarget: string)

  /** A reset that has returned: where it failed, what it took over, and the targets of the table if it replaced that. */
  datatype Reset = Reset(before: Registers, after: Registers, failedAt: Option<Stage>, taken: Option<Taken>, found: Option<set<string>>)

  datatype Pc =
    | Idle
    | Asked(target: string)
    | Missed(target: string)                                // the table had nothing, the lock is given up
    | Rechecking(target: string)
    | Creating(target: string)
    | Collecting(todo: seq<string>, got: seq<Answer>)       // GetTargetManagers
    | Configuring(before: Registers)                        // kcp reads its configuration first
    | Connecting(before: Registers, taken: Option<Taken>)
    | Listing(before: Registers, taken: Option<Taken>, id: nat)
    | Deriving(before: Registers, taken: Option<Taken>)     // kcp, the table is replaced

  /** `made` has every manager ever made, and `closes` counts how often each was closed. `listed` are
      the targets of the last table that was put in place, and `resets` are those that have returned. */
  datatype State = State(
    table: Table<nat>,
    defaultTarget: string,
    server: string,
    listed: set<string>,
    epoch: nat,
    made: seq<Made>,
    closes: seq<nat>,
    answers: seq<Answer>,
    resets: seq<Reset>,
    exclusive: Option<nat>,
    pcs: map<nat, Pc>)

  /** What the configuration says, and which targets there are besides the default. */
  datatype Reading = Unreadable | Readable(server: string, default': string, targets: set<string>)

  /** What the outside contributes to the next step of a caller: whether clients can be made, and what can be read. */
  datatype Action =
    | Ask(t: nat, target: string)
    | AskAll(t: nat, order: seq<string>)
    | CallReset(t: nat)
    | Advance(t: nat, connects: bool, reading: Reading)

  function PcOf(s: State, t: nat): Pc {
    if t in s.pcs then s.pcs[t] else Idle
  }

  function Goto(s: State, t: nat, pc: Pc): State {
    s.(pcs := s.pcs[t := pc])
  }

  function Enter(s: State, t: nat, pc: Pc): State {
    if s.exclusive == None then Goto(s, t, pc).(exclusive := Some(t)) else s
  }

  function Release(s: State, t: nat): State {
    Goto(s, t, Idle).(exclusive := None)
  }

  function RegistersOf(s: State): Registers {
    Registers(s.table, s.defaultTarget, s.server)
  }

  /** The constructor's own reset has succeeded. */
  function Start(server: string, default': string, targets: set<string>): State {
    var table := AfterReset(default', 0, targets);
    var first := Reset(Registers(map[], "", ""), Registers(table, default', server), None, Some(Taken(server, default')), Some(table.Keys));
    State(table, default', server, table.Keys, 0, [Made(0, default', true)], [0], [], [first], None, map[])
  }

  function Tell(s: State, answers: seq<Answer>): State {
    s.(answers := s.answers + answers)
  }

  /** A new manager gets the next number. */
  function Publish(s: State, target: string): State {
    s.(table := s.table[target := Some(|s.made|)],
       made := s.made + [Made(s.epoch, target, true)],
       closes := s.closes + [0])
  }

  predicate Held(table: Table<nat>, id: nat) {
    exists t :: t in table && table[t] == Some(id)
  }

  function ClosedOnce(closes: seq<nat>, table: Table<nat>): (r: seq<nat>)
    ensures |r| == |closes|
    ensures forall i: nat :: i < |r| ==> r[i] == closes[i] + if Held(table, i) then 1 else 0
  {
    seq(|closes|, i requires 0 <= i < |closes| => closes[i] + if Held(table, i) then 1 else 0)
  }

  /** The table is replaced. Only the kubeconfig provider closes the managers that it drops. */
  function Install(kcp: bool, s: State, id: nat, default': string, targets: set<string>): State {
    var table := AfterReset(default', id, targets);
    s.(table := table,
       listed := table.Keys,
       epoch := s.epoch + 1,
       made := if id < |s.made| then s.made[id := Made(s.epoch + 1, default', true)] else s.made,
       closes := if kcp then s.closes else ClosedOnce(s.closes, s.table))
  }

  /** The client that a reset makes for its default target. */
  function Make(s: State): State {
    s.(made := s.made + [Made(s.epoch + 1, "", false)], closes := s.closes + [0])
  }

  function Discard(kcp: bool, s: State, id: nat): State {
    if !kcp && id < |s.closes| then s.(closes := s.closes[id := s.closes[id] + 1]) else s
  }

  function Collect(kcp: bool, s: State, t: nat, todo: seq<string>, got: seq<Answer>, connects: bool): State {
    if todo == [] then Release(Tell(s, got), t)
    else
      var target, rest := todo[0], todo[1..];
      match Hit(s.table, target)
      case Some(id) => Goto(s, t, Collecting(rest, got + [Answer(s.epoch, target, id)]))
      case None =>
        if MayCreate(kcp, s.table, target) && connects then
          Goto(Publish(s, target), t, Collecting(rest, got + [Answer(s.epoch, target, |s.made|)]))
        else Release(s, t)
  }

  function Progress(kcp: bool, s: State, t: nat, connects: bool, reading: Reading): State {
    match PcOf(s, t)
    case Idle => s
    case Asked(target) => if s.exclusive == None then Lookup(s, t, target) else s
    case Missed(target) => Enter(s, t, Rechecking(target))
    case Rechecking(target) =>
      (match Hit(s.table, target)
       case Some(id) => Release(Tell(s, [Answer(s.epoch, target, id)]), t)
       case None => if MayCreate(kcp, s.table, target) then Goto(s, t, Creating(target)) else Release(s, t))
    case Creating(target) =>
      if connects then Release(Tell(Publish(s, target), [Answer(s.epoch, target, |s.made|)]), t) else Release(s, t)
    case Collecting(todo, got) => Collect(kcp, s, t, todo, got, connects)
    case _ => ResetStep(kcp, s, t, connects, reading)
  }

  /** A reset returns. */
  function Log(s: State, before: Registers, failedAt: Option<Stage>, taken: Option<Taken>): State {
    var found := if failedAt == None || failedAt == Some(AtDerive) then Some(s.listed) else None;
    s.(resets := s.resets + [Reset(before, RegistersOf(s), failedAt, taken, found)])
  }

  function TakeOver(s: State, server: string, defaultTarget: string): State {
    s.(server := server, defaultTarget := defaultTarget)
  }

  function ResetStep(kcp: bool, s: State, t: nat, connects: bool, reading: Reading): State {
    match PcOf(s, t)
    case Configuring(before) =>
      (match reading
       case Unreadable => Release(Log(s, before, Some(AtConfig), None), t)
       case Readable(server, default', _) =>
         var taken := Some(Taken(server, default'));
         var s1 := TakeOver(s, server, default');
         if default' == "" then Release(Log(s1, before, Some(AtWorkspace), taken), t) else Goto(s1, t, Connecting(before, taken)))
    case Connecting(before, taken) =>
      if connects then Goto(Make(s), t, Listing(before, taken, |s.made|)) else Release(Log(s, before, Some(AtConnect), taken), t)
    case Listing(before, taken, id) =>
      (match reading
       case Unreadable => Release(Log(Discard(kcp, s, id), before, Some(AtListing), taken), t)
       case Readable(_, default', targets) =>
         if kcp then Goto(Install(true, s, id, s.defaultTarget, targets), t, Deriving(before, taken))
         else
           var s1 := TakeOver(Install(false, s, id, default', targets), s.server, default');
           Release(Log(s1, before, None, Some(Taken(s.server, default'))), t))
    case Deriving(before, taken) => Release(Log(s, before, if connects then None else Some(AtDerive), taken), t)
    case _ => s
  }

  function Lookup(s: State, t: nat, target: string): State {
    match Hit(s.table, target)
    case Some(id) => Goto(Tell(s, [Answer(s.epoch, target, id)]), t, Idle)
    case None => Goto(s, t, Missed(target))
  }

  function Step(kcp: bool, s: State, a: Action): State {
    match a
    case Ask(t, target) =>
      if PcOf(s, t).Idle? then Goto(s, t, Asked(if kcp && target == "" then s.defaultTarget else target)) else s
    case AskAll(t, order) =>
      if PcOf(s, t).Idle? && (forall k :: k in order ==> k in s.table) && (forall k :: k in s.table ==> k in order) then Enter(s, t, Collecting(order, [])) else s
    case CallReset(t) =>
      if PcOf(s, t).Idle? then Enter(s, t, if kcp then Configuring(RegistersOf(s)) else Connecting(RegistersOf(s), None)) else s
    case Advance(t, connects, reading) => Progress(kcp, s, t, connects, reading)
  }

  function Run(kcp: bool, s: State, actions: seq<Action>): State {
    if actions == [] then s else Step(kcp, Run(kcp, s, actions[..|actions| - 1]), actions[|actions| - 1])
  }

  // ----- the invariant

  predicate Inside(pc: Pc) {
    !pc.Idle? && !pc.Asked? && !pc.Missed?
  }

  ghost predicate LockInv(s: State) {
    && (forall t :: t in s.pcs && Inside(s.pcs[t]) ==> s.exclusive == Some(t))
    && (s.exclusive.Some? ==> Inside(PcOf(s, s.exclusive.value)))
  }

  /** The manager that the holder of the lock is about to install. */
  ghost function Pending(s: State): Option<nat> {
    if s.exclusive.Some? && PcOf(s, s.exclusive.value).Listing? then Some(PcOf(s, s.exclusive.value).id) else None
  }

  /** The table has the published managers of this epoch, and each target at most one per epoch. */
  ghost predicate TableInv(s: State) {
    && (forall k :: k in s.table && s.table[k].Some? ==>
          s.table[k].value < |s.made| && s.made[s.table[k].value] == Made(s.epoch, k, true))
    && (forall i: nat :: i < |s.made| && s.made[i].published ==>
          s.made[i].epoch <= s.epoch && (s.made[i].epoch == s.epoch ==> Hit(s.table, s.made[i].target) == Some(i)))
    && (forall i: nat, j: nat :: i < |s.made| && j < |s.made| && s.made[i].published && s.made[i] == s.made[j] ==> i == j)
  }

  /** kcp closes nothing; otherwise all but the managers in the table and the pending one were closed, once. */
  ghost predicate ClosesInv(kcp: bool, s: State, pending: Option<nat>) {
    && |s.closes| == |s.made|
    && (pending.Some? ==> pending.value < |s.made| && !s.made[pending.value].published)
    && (forall i: nat :: i < |s.closes| ==>
          s.closes[i] == if kcp || Held(s.table, i) || pending == Some(i) then 0 else 1)
  }

  ghost predicate ListedInv(kcp: bool, s: State) {
    s.listed <= s.table.Keys && (kcp ==> s.table.Keys == s.listed)
  }

  predicate Genuine(s: State, a: Answer) {
    a.id < |s.made| && s.made[a.id] == Made(a.epoch, a.target, true)
  }

  ghost predicate AllGenuine(s: State, answers: seq<Answer>) {
    forall i :: 0 <= i < |answers| ==> Genuine(s, answers[i])
  }

  /** What does not depend on where the callers are. */
  ghost predicate Core(kcp: bool, s: State, pending: Option<nat>) {
    TableInv(s) && ClosesInv(kcp, s, pending) && ListedInv(kcp, s) && AllGenuine(s, s.answers)
  }

  /** A target that is being connected to has no manager yet: nobody else can have made one. */
  ghost predicate PcInv(kcp: bool, s: State, pc: Pc) {
    && (pc.Creating? ==> Hit(s.table, pc.target) == None && MayCreate(kcp, s.table, pc.target))
    && (pc.Collecting? ==> AllGenuine(s, pc.got))
  }

  ghost predicate PcsInv(kcp: bool, s: State) {
    forall t :: t in s.pcs ==> PcInv(kcp, s, s.pcs[t])
  }

  ghost predicate Inv(kcp: bool, s: State) {
    LockInv(s) && Core(kcp, s, Pending(s)) && PcsInv(kcp, s)
  }

  // ----- what the steps do to the table and the managers

  lemma TellKeepsCore(kcp: bool, s: State, pending: Option<nat>, answers: seq<Answer>)
    requires Core(kcp, s, pending) && AllGenuine(s, answers)
    ensures Core(kcp, Tell(s, answers), pending)
  {
  }

  lemma HitIsGenuine(kcp: bool, s: State, pending: Option<nat>, target: string)
    requires Core(kcp, s, pending) && Hit(s.table, target).Some?
    ensures Genuine(s, Answer(s.epoch, target, Hit(s.table, target).value))
  {
  }

  lemma PublishKeepsTable(s: State, target: string)
    requires TableInv(s) && Hit(s.table, target) == None
    ensures TableInv(Publish(s, target))
  {
    var s' := Publish(s, target);
    forall i: nat | i < |s'.made| && s'.made[i].published
      ensures s'.made[i].epoch <= s.epoch && (s'.made[i].epoch == s.epoch ==> Hit(s'.table, s'.made[i].target) == Some(i))
    {
      if i < |s.made| {
        assert s'.made[i] == s.made[i];
      }
    }
    forall i: nat, j: nat | i < |s'.made| && j < |s'.made| && s'.made[i].published && s'.made[i] == s'.made[j]
      ensures i == j
    {
      if s'.made[i].epoch == s.epoch {
        assert Hit(s'.table, s'.made[i].target) == Some(i) && Hit(s'.table, s'.made[j].target) == Some(j);
      } else {
        assert i < |s.made| && j < |s.made|;
      }
    }
  }

  lemma PublishKeepsCore(kcp: bool, s: State, target: string)
    requires Core(kcp, s, None) && Hit(s.table, target) == None && MayCreate(kcp, s.table, target)
    ensures Core(kcp, Publish(s, target), None)
    ensures forall a :: Genuine(s, a) ==> Genuine(Publish(s, target), a)
    ensures Genuine(Publish(s, target), Answer(s.epoch, target, |s.made|))
  {
    PublishKeepsTable(s, target);
    hide TableInv;
    var s' := Publish(s, target);
    assert s'.table[target] == Some(|s.made|);
    assert Held(s'.table, |s.made|);
    forall i: nat | i < |s.made|
      ensures Held(s'.table, i) <==> Held(s.table, i)
    {
      SameHeld(s, target, i);
    }
  }

  lemma SameHeld(s: State, target: string, i: nat)
    requires i < |s.made| && Hit(s.table, target) == None
    ensures Held(Publish(s, target).table, i) <==> Held(s.table, i)
  {
    var table := Publish(s, target).table;
    if Held(s.table, i) {
      var k :| k in s.table && s.table[k] == Some(i);
      assert table[k] == Some(i);
    }
  }

  lemma MakeKeepsCore(kcp: bool, s: State)
    requires Core(kcp, s, None)
    ensures Core(kcp, Make(s), Some(|s.made|))
  {
    if Held(s.table, |s.made|) {
      assert false;
    }
  }

  lemma DiscardKeepsCore(kcp: bool, s: State, id: nat)
    requires Core(kcp, s, Some(id))
    ensures Core(kcp, Discard(kcp, s, id), None)
  {
    if Held(s.table, id) {
      assert false;
    }
  }

  lemma InstallKeepsTable(kcp: bool, s: State, id: nat, default': string, targets: set<string>)
    requires Core(kcp, s, Some(id))
    ensures TableInv(Install(kcp, s, id, default', targets))
  {
  }

  lemma InstallKeepsCore(kcp: bool, s: State, id: nat, default': string, targets: set<string>)
    requires Core(kcp, s, Some(id))
    ensures Core(kcp, Install(kcp, s, id, default', targets), None)
  {
    InstallKeepsTable(kcp, s, id, default', targets);
    var s' := Install(kcp, s, id, default', targets);
    assert s'.table[default'] == Some(id);
    assert Held(s'.table, id);
    assert forall i: nat :: Held(s'.table, i) ==> i == id;
    if Held(s.table, id) {
      assert false;
    }
    hide TableInv, Held;
  }

  // ----- where the callers are

  /** The holder of the lock is the only one inside, so what it does to the table concerns no one else. */
  lemma HolderMoves(kcp: bool, s: State, s1: State, t: nat, pc: Pc)
    requires LockInv(s) && s.exclusive == Some(t)
    requires s1.pcs == s.pcs && s1.exclusive == s.exclusive && PcInv(kcp, s1, pc)
    ensures Inside(pc) ==> LockInv(Goto(s1, t, pc)) && PcsInv(kcp, Goto(s1, t, pc))
    ensures !Inside(pc) ==> LockInv(Release(s1, t)) && PcsInv(kcp, Release(s1, t)) && Pending(Release(s1, t)) == None
    ensures Inside(pc) ==> Pending(Goto(s1, t, pc)) == if pc.Listing? then Some(pc.id) else None
  {
    hide MayCreate, Hit;
  }

  /** Somebody outside moves on, and takes the lock if that needs it. */
  lemma OutsiderMoves(kcp: bool, s: State, t: nat, pc: Pc)
    requires Inv(kcp, s) && !Inside(PcOf(s, t)) && PcInv(kcp, s, pc) && !pc.Listing?
    ensures !Inside(pc) ==> Inv(kcp, Goto(s, t, pc))
    ensures Inside(pc) ==> Inv(kcp, Enter(s, t, pc))
  {
    hide MayCreate, Hit, TableInv, ClosesInv, ListedInv;
    var s' := if Inside(pc) then Enter(s, t, pc) else Goto(s, t, pc);
    assert LockInv(s') && Pending(s') == Pending(s);
    SameCore(kcp, s, s', Pending(s));
    forall u | u in s'.pcs
      ensures PcInv(kcp, s', s'.pcs[u])
    {
      assert u == t || s'.pcs[u] == s.pcs[u];
    }
  }

  lemma SameCore(kcp: bool, s: State, s': State, pending: Option<nat>)
    requires Core(kcp, s, pending)
    requires s' == s.(pcs := s'.pcs, exclusive := s'.exclusive, resets := s'.resets, server := s'.server, defaultTarget := s'.defaultTarget)
    ensures Core(kcp, s', pending)
    ensures forall a :: Genuine(s', a) <==> Genuine(s, a)
  {
  }

  lemma HolderSteps(kcp: bool, s: State, s1: State, t: nat, pc: Pc)
    requires LockInv(s) && s.exclusive == Some(t)
    requires s1.pcs == s.pcs && s1.exclusive == s.exclusive && PcInv(kcp, s1, pc)
    requires Core(kcp, s1, if pc.Listing? then Some(pc.id) else None)
    ensures Inv(kcp, if Inside(pc) then Goto(s1, t, pc) else Release(s1, t))
  {
    hide MayCreate, Hit, TableInv, ClosesInv, ListedInv, PcInv;
    HolderMoves(kcp, s, s1, t, pc);
    var s' := if Inside(pc) then Goto(s1, t, pc) else Release(s1, t);
    SameCore(kcp, s1, s', Pending(s'));
  }

  lemma LookupKeepsInv(kcp: bool, s: State, t: nat, target: string)
    requires Inv(kcp, s) && !Inside(PcOf(s, t))
    ensures Inv(kcp, Lookup(s, t, target))
  {
    hide TableInv, ClosesInv, ListedInv, MayCreate;
    match Hit(s.table, target)
    case Some(id) =>
      var answers := [Answer(s.epoch, target, id)];
      HitIsGenuine(kcp, s, Pending(s), target);
      TellKeepsCore(kcp, s, Pending(s), answers);
      assert Pending(Tell(s, answers)) == Pending(s);
      assert forall a :: Genuine(Tell(s, answers), a) <==> Genuine(s, a);
      OutsiderMoves(kcp, Tell(s, answers), t, Idle);
    case None => OutsiderMoves(kcp, s, t, Missed(target));
  }

  lemma RecheckKeepsInv(kcp: bool, s: State, t: nat, connects: bool, reading: Reading)
    requires Inv(kcp, s) && PcOf(s, t).Rechecking?
    ensures Inv(kcp, Progress(kcp, s, t, connects, reading))
  {
    hide TableInv, ClosesInv, ListedInv, Core, PcsInv, MayCreate, Tell;
    var target := PcOf(s, t).target;
    assert s.exclusive == Some(t) && Pending(s) == None && Core(kcp, s, None) by { HolderIsInside(kcp, s, t); }
    match Hit(s.table, target)
    case Some(id) =>
      var answers := [Answer(s.epoch, target, id)];
      HitIsGenuine(kcp, s, None, target);
      TellKeepsCore(kcp, s, None, answers);
      TellKeepsPcs(s, answers);
      HolderSteps(kcp, s, Tell(s, answers), t, Idle);
    case None =>
      HolderSteps(kcp, s, s, t, if MayCreate(kcp, s.table, target) then Creating(target) else Idle);
  }

  lemma TellKeepsPcs(s: State, answers: seq<Answer>)
    ensures Tell(s, answers).pcs == s.pcs && Tell(s, answers).exclusive == s.exclusive
  {
  }

  lemma HolderIsInside(kcp: bool, s: State, t: nat)
    requires Inv(kcp, s) && Inside(PcOf(s, t))
    ensures s.exclusive == Some(t) && Core(kcp, s, Pending(s)) && PcInv(kcp, s, PcOf(s, t))
    ensures Pending(s) == if PcOf(s, t).Listing? then Some(PcOf(s, t).id) else None
  {
  }

  lemma CreateKeepsInv(kcp: bool, s: State, t: nat, connects: bool, reading: Reading)
    requires Inv(kcp, s) && PcOf(s, t).Creating?
    ensures Inv(kcp, Progress(kcp, s, t, connects, reading))
  {
    hide TableInv, ClosesInv, ListedInv, Core, PcsInv, MayCreate, Tell, Hit;
    var target := PcOf(s, t).target;
    HolderIsInside(kcp, s, t);
    if connects {
      var answers := [Answer(s.epoch, target, |s.made|)];
      PublishKeepsCore(kcp, s, target);
      TellKeepsCore(kcp, Publish(s, target), None, answers);
      TellKeepsPcs(Publish(s, target), answers);
      HolderSteps(kcp, s, Tell(Publish(s, target), answers), t, Idle);
    } else {
      HolderSteps(kcp, s, s, t, Idle);
    }
  }

  lemma CollectKeepsInv(kcp: bool, s: State, t: nat, connects: bool, reading: Reading)
    requires Inv(kcp, s) && PcOf(s, t).Collecting?
    ensures Inv(kcp, Progress(kcp, s, t, connects, reading))
  {
    hide TableInv, ClosesInv, ListedInv, Core, PcsInv, MayCreate, Tell;
    var todo, got := PcOf(s, t).todo, PcOf(s, t).got;
    HolderIsInside(kcp, s, t);
    if todo == [] {
      TellKeepsCore(kcp, s, None, got);
      TellKeepsPcs(s, got);
      HolderSteps(kcp, s, Tell(s, got), t, Idle);
    } else {
      var target := todo[0];
      match Hit(s.table, target)
      case Some(id) =>
        HitIsGenuine(kcp, s, None, target);
        HolderSteps(kcp, s, s, t, Collecting(todo[1..], got + [Answer(s.epoch, target, id)]));
      case None =>
        if MayCreate(kcp, s.table, target) && connects {
          PublishKeepsCore(kcp, s, target);
          HolderSteps(kcp, s, Publish(s, target), t, Collecting(todo[1..], got + [Answer(s.epoch, target, |s.made|)]));
        } else {
          HolderSteps(kcp, s, s, t, Idle);
        }
    }
  }

  lemma LogKeepsCore(kcp: bool, s: State, pending: Option<nat>, before: Registers, failedAt: Option<Stage>, taken: Option<Taken>)
    requires Core(kcp, s, pending)
    ensures Core(kcp, Log(s, before, failedAt, taken), pending)
    ensures Log(s, before, failedAt, taken).pcs == s.pcs && Log(s, before, failedAt, taken).exclusive == s.exclusive
  {
    SameCore(kcp, s, Log(s, before, failedAt, taken), pending);
  }

  /** The holder of the lock ends a reset. */
  lemma ReturnKeepsInv(kcp: bool, s: State, s1: State, t: nat, before: Registers, failedAt: Option<Stage>, taken: Option<Taken>)
    requires LockInv(s) && s.exclusive == Some(t)
    requires s1.pcs == s.pcs && s1.exclusive == s.exclusive && Core(kcp, s1, None)
    ensures Inv(kcp, Release(Log(s1, before, failedAt, taken), t))
  {
    hide LockInv, Core, Log, Release, Inv;
    LogKeepsCore(kcp, s1, None, before, failedAt, taken);
    HolderSteps(kcp, s, Log(s1, before, failedAt, taken), t, Idle);
  }

  lemma ConfigureKeepsInv(kcp: bool, s: State, t: nat, connects: bool, reading: Reading)
    requires Inv(kcp, s) && PcOf(s, t).Configuring?
    ensures Inv(kcp, ResetStep(kcp, s, t, connects, reading))
  {
    hide TableInv, ClosesInv, ListedInv, Core, PcsInv, Log;
    HolderIsInside(kcp, s, t);
    var before := PcOf(s, t).before;
    match reading
    case Unreadable => ReturnKeepsInv(kcp, s, s, t, before, Some(AtConfig), None);
    case Readable(server, default', _) =>
      var taken := Some(Taken(server, default'));
      var s1 := TakeOver(s, server, default');
      SameCore(kcp, s, s1, None);
      if default' == "" {
        ReturnKeepsInv(kcp, s, s1, t, before, Some(AtWorkspace), taken);
      } else {
        HolderSteps(kcp, s, s1, t, Connecting(before, taken));
      }
  }

  lemma ConnectKeepsInv(kcp: bool, s: State, t: nat, connects: bool, reading: Reading)
    requires Inv(kcp, s) && PcOf(s, t).Connecting?
    ensures Inv(kcp, ResetStep(kcp, s, t, connects, reading))
  {
    hide TableInv, ClosesInv, ListedInv, Core, PcsInv, Log;
    HolderIsInside(kcp, s, t);
    var before, taken := PcOf(s, t).before, PcOf(s, t).taken;
    if connects {
      MakeKeepsCore(kcp, s);
      HolderSteps(kcp, s, Make(s), t, Listing(before, taken, |s.made|));
    } else {
      ReturnKeepsInv(kcp, s, s, t, before, Some(AtConnect), taken);
    }
  }

  lemma ListKeepsInv(kcp: bool, s: State, t: nat, connects: bool, reading: Reading)
    requires Inv(kcp, s) && PcOf(s, t).Listing?
    ensures Inv(kcp, ResetStep(kcp, s, t, connects, reading))
  {
    hide TableInv, ClosesInv, ListedInv, Core, PcsInv, Log, AfterReset, ClosedOnce;
    HolderIsInside(kcp, s, t);
    var before, taken, id := PcOf(s, t).before, PcOf(s, t).taken, PcOf(s, t).id;
    match reading
    case Unreadable =>
      DiscardKeepsCore(kcp, s, id);
      ReturnKeepsInv(kcp, s, Discard(kcp, s, id), t, before, Some(AtListing), taken);
    case Readable(_, default', targets) =>
      if kcp {
        InstallKeepsCore(kcp, s, id, s.defaultTarget, targets);
        HolderSteps(kcp, s, Install(kcp, s, id, s.defaultTarget, targets), t, Deriving(before, taken));
      } else {
        InstallKeepsCore(kcp, s, id, default', targets);
        var installed := Install(kcp, s, id, default', targets);
        var s1 := TakeOver(installed, s.server, default');
        SameCore(kcp, installed, s1, None);
        ReturnKeepsInv(kcp, s, s1, t, before, None, Some(Taken(s.server, default')));
      }
  }

  lemma DeriveKeepsInv(kcp: bool, s: State, t: nat, connects: bool, reading: Reading)
    requires Inv(kcp, s) && PcOf(s, t).Deriving?
    ensures Inv(kcp, ResetStep(kcp, s, t, connects, reading))
  {
    hide TableInv, ClosesInv, ListedInv, Core, PcsInv, Log;
    HolderIsInside(kcp, s, t);
    ReturnKeepsInv(kcp, s, s, t, PcOf(s, t).before, if connects then None else Some(AtDerive), PcOf(s, t).taken);
  }

  lemma StepKeepsInv(kcp: bool, s: State, a: Action)
    requires Inv(kcp, s)
    ensures Inv(kcp, Step(kcp, s, a))
  {
    hide Inv, Lookup, Progress, Enter, Goto;
    match a
    case Ask(t, target) =>
      if PcOf(s, t).Idle? { OutsiderMoves(kcp, s, t, Asked(if kcp && target == "" then s.defaultTarget else target)); }
    case AskAll(t, order) => if PcOf(s, t).Idle? { OutsiderMoves(kcp, s, t, Collecting(order, [])); }
    case CallReset(t) =>
      if PcOf(s, t).Idle? {
        OutsiderMoves(kcp, s, t, if kcp then Configuring(RegistersOf(s)) else Connecting(RegistersOf(s), None));
      }
    case Advance(t, connects, reading) => ProgressKeepsInv(kcp, s, t, connects, reading);
  }

  lemma ProgressKeepsInv(kcp: bool, s: State, t: nat, connects: bool, reading: Reading)
    requires Inv(kcp, s)
    ensures Inv(kcp, Progress(kcp, s, t, connects, reading))
  {
    hide Inv, Enter, Goto, Collect, Release, Tell, Publish, ResetStep, Lookup;
    match PcOf(s, t)
    case Idle =>
    case Asked(target) => LookupKeepsInv(kcp, s, t, target);
    case Missed(target) => OutsiderMoves(kcp, s, t, Rechecking(target));
    case Rechecking(_) => RecheckKeepsInv(kcp, s, t, connects, reading);
    case Creating(_) => CreateKeepsInv(kcp, s, t, connects, reading);
    case Collecting(_, _) => CollectKeepsInv(kcp, s, t, connects, reading);
    case Configuring(_) => ConfigureKeepsInv(kcp, s, t, connects, reading);
    case Connecting(_, _) => ConnectKeepsInv(kcp, s, t, connects, reading);
    case Listing(_, _, _) => ListKeepsInv(kcp, s, t, connects, reading);
    case Deriving(_, _) => DeriveKeepsInv(kcp, s, t, connects, reading);
  }

  lemma StartInv(kcp: bool, server: string, default': string, targets: set<string>)
    ensures Inv(kcp, Start(server, default', targets))
  {
    var s := Start(server, default', targets);
    assert s.table[default'] == Some(0);
    assert Held(s.table, 0);
  }

  lemma {:induction false} RunKeepsInv(kcp: bool, server: string, default': string, targets: set<string>, actions: seq<Action>)
    ensures Inv(kcp, Run(kcp, Start(server, default', targets), actions))
  {
    hide Inv, Step, Start;
    if actions == [] {
      StartInv(kcp, server, default', targets);
    } else {
      var before := actions[..|actions| - 1];
      RunKeepsInv(kcp, server, default', targets, before);
      StepKeepsInv(kcp, Run(kcp, Start(server, default', targets), before), actions[|actions| - 1]);
    }
  }

  // ----- what holds in every run

  /** Between two resets a target gets at most one manager, and everybody who asks for it gets that one. */
  lemma CallersShareOneManager(kcp: bool, server: string, default': string, targets: set<string>, actions: seq<Action>, a: Answer, b: Answer)
    requires var s := Run(kcp, Start(server, default', targets), actions);
             a in s.answers && b in s.answers && a.epoch == b.epoch && a.target == b.target
    ensures a == b
    ensures var s := Run(kcp, Start(server, default', targets), actions);
            forall i: nat :: i < |s.made| && s.made[i] == Made(a.epoch, a.target, true) ==> i == a.id
    ensures var s := Run(kcp, Start(server, default', targets), actions);
            a.epoch == s.epoch ==> Hit(s.table, a.target) == Some(a.id) && a.id < |s.closes| && s.closes[a.id] == 0
  {
    RunKeepsInv(kcp, server, default', targets, actions);
    var s := Run(kcp, Start(server, default', targets), actions);
    assert Genuine(s, a) && Genuine(s, b);
    hide Run, Start;
    if a.epoch == s.epoch {
      assert a.target in s.table && s.table[a.target] == Some(a.id);
      assert Held(s.table, a.id);
    }
  }

  /** The kubeconfig provider closes no manager twice, and none but those that a reset has dropped or could not use. */
  lemma DroppedManagersAreClosedOnce(server: string, default': string, targets: set<string>, actions: seq<Action>, id: nat)
    requires id < |Run(false, Start(server, default', targets), actions).made|
    ensures var s := Run(false, Start(server, default', targets), actions);
            |s.closes| == |s.made| && s.closes[id] == if Held(s.table, id) || Pending(s) == Some(id) then 0 else 1
    ensures var s := Run(false, Start(server, default', targets), actions);
            s.made[id].published ==> (s.closes[id] == 1 <==> s.made[id].epoch < s.epoch)
  {
    RunKeepsInv(false, server, default', targets, actions);
    var s := Run(false, Start(server, default', targets), actions);
    hide Run, Start;
    if s.made[id].published && s.made[id].epoch == s.epoch {
      assert s.made[id].target in s.table && s.table[s.made[id].target] == Some(id);
      assert Held(s.table, id);
    }
  }

  /** Asking for a workspace never adds one: the kcp table lists what the last reset has found. */
  lemma KcpListsWhatWasFound(server: string, default': string, targets: set<string>, actions: seq<Action>, a: Answer)
    ensures var s := Run(true, Start(server, default', targets), actions);
            s.table.Keys == s.listed && (a in s.answers && a.epoch == s.epoch ==> a.target in s.listed)
  {
    RunKeepsInv(true, server, default', targets, actions);
    var s := Run(true, Start(server, default', targets), actions);
    if a in s.answers && a.epoch == s.epoch {
      CallersShareOneManager(true, server, default', targets, actions, a, a);
    }
  }

  /** How many steps the holder of the lock has left at most. */
  function Budget(pc: Pc): nat {
    match pc
    case Collecting(todo, _) => 1 + |todo|
    case Rechecking(_) => 2
    case Configuring(_) => 4
    case Connecting(_, _) => 3
    case Listing(_, _, _) => 2
    case Deriving(_, _) => 1
    case Creating(_) => 1
    case _ => 0
  }

  /** Whatever connects and whatever can be read, the holder of the lock gives it up after boundedly many steps of its own. */
  lemma LockIsReleased(kcp: bool, server: string, default': string, targets: set<string>, actions: seq<Action>, t: nat, connects: bool, reading: Reading)
    requires Run(kcp, Start(server, default', targets), actions).exclusive == Some(t)
    ensures var s := Run(kcp, Start(server, default', targets), actions);
            var s' := Progress(kcp, s, t, connects, reading);
            s'.exclusive == None || (s'.exclusive == Some(t) && Budget(PcOf(s', t)) < Budget(PcOf(s, t)))
  {
    RunKeepsInv(kcp, server, default', targets, actions);
    hide Run, Start, AfterReset, ClosedOnce;
  }
}
