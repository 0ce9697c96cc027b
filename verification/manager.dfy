/** The hub manager under every interleaving of its lock-protected sections. */
module Manager {

  /** How far a spectator's session has come: watching (it may have been kicked), or inside
      Unsubscribe after its first section found hub `h`, or after its second section found the
      hub empty, or finished. */
  datatype Phase = Watching | Found(h: nat) | SawEmpty(h: nat) | Finished

  datatype Session = Session(game: string, hub: nat, phase: Phase)

  datatype HubState = HubState(game: string, subs: set<nat>, cancels: nat)

  datatype State = State(
    registry: map<string, nat>,
    hubs: map<nat, HubState>,
    sessions: map<nat, Session>,
    hubGauge: int,
    subGauge: int)

  function Init(): State { State(map[], map[], map[], 0, 0) }

  /** One lock-protected section. */
  datatype Step =
    | Subscribe(session: nat, game: string, newHub: nat)
    | Broadcast(hub: nat, kicked: set<nat>)
    | Lookup(session: nat)
    | Detach(session: nat)
    | TearDown(session: nat)

  predicate Enabled(s: State, step: Step) {
    match step
    case Subscribe(x, g, h) => x !in s.sessions && (g !in s.registry ==> h !in s.hubs)
    case Broadcast(h, kicked) => h in s.hubs && kicked <= s.hubs[h].subs
    case Lookup(x) => x in s.sessions && s.sessions[x].phase == Watching
    case Detach(x) => x in s.sessions && s.sessions[x].phase.Found? && s.sessions[x].phase.h in s.hubs
    case TearDown(x) => x in s.sessions && s.sessions[x].phase.SawEmpty? && s.sessions[x].phase.h in s.hubs
  }

  /** Get or create the game's hub and attach, all under the manager's lock. */
  function DoSubscribe(s: State, x: nat, g: string, newHub: nat): State
    requires g in s.registry ==> s.registry[g] in s.hubs
  {
    var ready := if g in s.registry then s
      else s.(registry := s.registry[g := newHub], hubs := s.hubs[newHub := HubState(g, {}, 0)],
              hubGauge := s.hubGauge + 1);
    var h := ready.registry[g];
    ready.(
      hubs := ready.hubs[h := ready.hubs[h].(subs := ready.hubs[h].subs + {x})],
      sessions := ready.sessions[x := Session(g, h, Watching)],
      subGauge := ready.subGauge + 1)
  }

  /** A broadcast drops the subscribers whose buffers are full. */
  function DoBroadcast(s: State, h: nat, kicked: set<nat>): State
    requires h in s.hubs && kicked <= s.hubs[h].subs
  {
    s.(hubs := s.hubs[h := s.hubs[h].(subs := s.hubs[h].subs - kicked)], subGauge := s.subGauge - |kicked|)
  }

  function SetPhase(s: State, x: nat, phase: Phase): State
    requires x in s.sessions
  {
    s.(sessions := s.sessions[x := s.sessions[x].(phase := phase)])
  }

  /** Unsubscribe's first section: read the registered hub, or be done when there is none. */
  function DoLookup(s: State, x: nat): State
    requires x in s.sessions
  {
    var g := s.sessions[x].game;
    SetPhase(s, x, if g in s.registry then Found(s.registry[g]) else Finished)
  }

  /** Its second section: remove the subscriber if it is still attached; go on only when empty. */
  function DoDetach(s: State, x: nat): State
    requires x in s.sessions && s.sessions[x].phase.Found? && s.sessions[x].phase.h in s.hubs
  {
    var h := s.sessions[x].phase.h;
    var hub := s.hubs[h];
    var after := s.(
      hubs := s.hubs[h := hub.(subs := hub.subs - {x})],
      subGauge := if x in hub.subs then s.subGauge - 1 else s.subGauge);
    SetPhase(after, x, if hub.subs - {x} == {} then SawEmpty(h) else Finished)
  }

  /** Its third section: close the hub if it is still registered and still empty. */
  function DoTearDown(s: State, x: nat): State
    requires x in s.sessions && s.sessions[x].phase.SawEmpty? && s.sessions[x].phase.h in s.hubs
  {
    var g, h := s.sessions[x].game, s.sessions[x].phase.h;
    var after := if g in s.registry && s.registry[g] == h && s.hubs[h].subs == {} then
        s.(registry := s.registry - {g}, hubs := s.hubs[h := s.hubs[h].(cancels := s.hubs[h].cancels + 1)],
              hubGauge := s.hubGauge - 1)
      else s;
    SetPhase(after, x, Finished)
  }

  // ---- The invariant ----

  /** The sessions attached to their hub. */
  ghost function Attached(s: State): set<nat> {
    set x | x in s.sessions && s.sessions[x].hub in s.hubs && x in s.hubs[s.sessions[x].hub].subs
  }

  /** The hub a session's unsubscription still concerns, or will concern. */
  predicate Concerns(s: State, x: nat, h: nat) {
    && x in s.sessions && h in s.hubs && s.sessions[x].game == s.hubs[h].game
    && match s.sessions[x].phase
       case Watching => true
       case Found(k) => k == h
       case SawEmpty(k) => k == h
       case Finished => false
  }

  ghost predicate Registered(s: State, h: nat) {
    h in s.hubs && s.hubs[h].game in s.registry && s.registry[s.hubs[h].game] == h
  }

  /** A registered hub exists, is for that game, and some session will still look after it. */
  ghost predicate RegistryOk(s: State, g: string) {
    g in s.registry ==>
      && s.registry[g] in s.hubs && s.hubs[s.registry[g]].game == g
      && exists x :: Concerns(s, x, s.registry[g])
  }

  /** A hub is cancelled once, exactly when it is no longer registered, and then has no
      subscribers; its subscribers are sessions that have not yet passed their second section. */
  ghost predicate HubOk(s: State, h: nat) {
    h in s.hubs ==>
      && s.hubs[h].cancels == (if Registered(s, h) then 0 else 1)
      && (s.hubs[h].subs != {} ==> Registered(s, h))
      && forall x :: x in s.hubs[h].subs ==>
           x in s.sessions && s.sessions[x].hub == h &&
           (s.sessions[x].phase == Watching || s.sessions[x].phase == Found(h))
  }

  /** A session's hub, and any hub its unsubscription has found, are hubs of its game. */
  ghost predicate SessionOk(s: State, x: nat) {
    x in s.sessions ==>
      var Session(g, h, phase) := s.sessions[x];
      && h in s.hubs && s.hubs[h].game == g
      && (phase.Found? || phase.SawEmpty? ==> phase.h in s.hubs && s.hubs[phase.h].game == g)
  }

  ghost predicate Inv(s: State) {
    && (forall g :: RegistryOk(s, g)) && (forall h :: HubOk(s, h)) && (forall x :: SessionOk(s, x))
    && s.hubGauge == |s.registry| && s.subGauge == |Attached(s)|
  }

  ghost predicate Next(s: State, step: Step, s': State) {
    && Enabled(s, step)
    && match step
       case Subscribe(x, g, h) => (g in s.registry ==> s.registry[g] in s.hubs) && s' == DoSubscribe(s, x, g, h)
       case Broadcast(h, kicked) => s' == DoBroadcast(s, h, kicked)
       case Lookup(x) => s' == DoLookup(s, x)
       case Detach(x) => s' == DoDetach(s, x)
       case TearDown(x) => s' == DoTearDown(s, x)
  }

  // ---- Every section keeps it ----

  /** What Subscribe leaves unchanged, and the hub it attaches to. */
  lemma SubscribeEffect(s: State, x: nat, g: string, k: nat, s': State)
    requires g in s.registry ==> s.registry[g] in s.hubs && s.hubs[s.registry[g]].game == g
    requires Enabled(s, Subscribe(x, g, k)) && s' == DoSubscribe(s, x, g, k)
    ensures s'.registry == if g in s.registry then s.registry else s.registry[g := k]
    ensures s'.sessions == s.sessions[x := Session(g, s'.registry[g], Watching)]
    ensures s'.registry[g] in s'.hubs && s'.hubs[s'.registry[g]].game == g
    ensures s'.hubs[s'.registry[g]].subs == (if g in s.registry then s.hubs[s.registry[g]].subs else {}) + {x}
    ensures s'.hubs[s'.registry[g]].cancels == if g in s.registry then s.hubs[s.registry[g]].cancels else 0
    ensures forall h :: h != s'.registry[g] ==>
      (h in s'.hubs <==> h in s.hubs) && (h in s.hubs ==> s'.hubs[h] == s.hubs[h])
  {}

  /** The hub a new session attaches to. */
  lemma JoinedHubOk(s: State, x: nat, g: string, k: nat, s': State)
    requires RegistryOk(s, g) && (g in s.registry ==> HubOk(s, s.registry[g])) && Next(s, Subscribe(x, g, k), s')
    ensures HubOk(s', s'.registry[g])
  {
    SubscribeEffect(s, x, g, k, s');
    var h := s'.registry[g];
    assert Registered(s', h);
    assert g in s.registry ==> Registered(s, h);
  }

  lemma OtherHubOk(s: State, x: nat, g: string, k: nat, s': State, h: nat)
    requires RegistryOk(s, g) && HubOk(s, h) && Next(s, Subscribe(x, g, k), s')
    requires g in s'.registry && h != s'.registry[g]
    ensures HubOk(s', h)
  {
    SubscribeEffect(s, x, g, k, s');
    if h in s'.hubs {
      assert s'.hubs[h] == s.hubs[h];
      assert Registered(s', h) <==> Registered(s, h);
    }
  }

  lemma HubKeptOnSubscribe(s: State, x: nat, g: string, k: nat, s': State, h: nat)
    requires Inv(s) && Next(s, Subscribe(x, g, k), s')
    ensures HubOk(s', h)
  {
    assert g in s'.registry;
    if h == s'.registry[g] {
      JoinedHubOk(s, x, g, k, s');
    } else {
      OtherHubOk(s, x, g, k, s', h);
    }
  }

  lemma HubKeptOnTearDown(s: State, x: nat, s': State, h: nat)
    requires Inv(s) && Next(s, TearDown(x), s')
    ensures HubOk(s', h)
  {
    assert HubOk(s, h) && SessionOk(s, x);
    if h in s'.hubs && h != s.sessions[x].phase.h {
      assert s'.hubs[h] == s.hubs[h];
      assert Registered(s', h) <==> Registered(s, h);
    }
  }

  lemma HubKept(s: State, step: Step, s': State, h: nat)
    requires Inv(s) && Next(s, step, s')
    ensures HubOk(s', h)
  {
    assert HubOk(s, h);
    match step
    case Subscribe(x, g, k) =>
      HubKeptOnSubscribe(s, x, g, k, s', h);
    case TearDown(x) =>
      HubKeptOnTearDown(s, x, s', h);
    case Lookup(x) =>
      assert SessionOk(s, x);
    case _ =>
  }

  lemma SessionKeptOnSubscribe(s: State, x: nat, g: string, k: nat, s': State, y: nat)
    requires SessionOk(s, y) && RegistryOk(s, g) && Next(s, Subscribe(x, g, k), s')
    ensures SessionOk(s', y)
  {}

  lemma SessionKeptOnLookup(s: State, x: nat, s': State, y: nat)
    requires SessionOk(s, y) && Next(s, Lookup(x), s')
    requires RegistryOk(s, s.sessions[x].game)
    ensures SessionOk(s', y)
  {}

  lemma SessionKeptOtherwise(s: State, step: Step, s': State, y: nat)
    requires SessionOk(s, y) && Next(s, step, s') && (step.Broadcast? || step.Detach? || step.TearDown?)
    ensures SessionOk(s', y)
  {}

  lemma SessionKept(s: State, step: Step, s': State, y: nat)
    requires Inv(s) && Next(s, step, s')
    ensures SessionOk(s', y)
  {
    match step
    case Subscribe(x, g, k) => SessionKeptOnSubscribe(s, x, g, k, s', y);
    case Lookup(x) => SessionKeptOnLookup(s, x, s', y);
    case _ => SessionKeptOtherwise(s, step, s', y);
  }

  /** Whoever looked after a hub still does, unless that very session has just moved on. */
  lemma ConcernsKept(s: State, step: Step, s': State, y: nat, h: nat)
    requires Inv(s) && Next(s, step, s') && Concerns(s, y, h) && Registered(s, h)
    requires (step.Detach? || step.TearDown?) ==> step.session != y
    ensures Concerns(s', y, h)
  {
    assert SessionOk(s, y) && HubOk(s, h);
  }

  lemma RegistryKept(s: State, step: Step, s': State, g: string)
    requires Inv(s) && Next(s, step, s')
    ensures RegistryOk(s', g)
  {
    assert RegistryOk(s, g);
    if g in s'.registry {
      if g !in s.registry || step.Subscribe? {
        assert g in s.registry ==> s.registry[g] == s'.registry[g];
        SubscribeRegisters(s, step, s', g);
      } else {
        var h := s.registry[g];
        var y :| Concerns(s, y, h);
        if (step.Detach? || step.TearDown?) && step.session == y {
          OtherLooks(s, step, s', h);
        } else {
          ConcernsKept(s, step, s', y, h);
        }
      }
    }
  }

  lemma SubscribeRegisters(s: State, step: Step, s': State, g: string)
    requires Inv(s) && Next(s, step, s') && step.Subscribe? && g in s'.registry
    ensures RegistryOk(s', g)
  {
    assert RegistryOk(s, g) && RegistryOk(s, step.game);
    if g == step.game {
      assert Concerns(s', step.session, s'.registry[g]);
    } else {
      var y :| Concerns(s, y, s.registry[g]);
      assert Concerns(s', y, s.registry[g]);
    }
  }

  lemma Pick<T>(a: set<T>) returns (x: T)
    requires a != {}
    ensures x in a
  {
    x :| x in a;
  }

  /** A session that moves on without closing its registered hub leaves another one behind. */
  lemma OtherLooks(s: State, step: Step, s': State, h: nat)
    requires Inv(s) && Next(s, step, s') && (step.Detach? || step.TearDown?)
    requires Concerns(s, step.session, h) && Registered(s, h) && Registered(s', h)
    ensures exists y :: Concerns(s', y, h)
  {
    var x := step.session;
    assert HubOk(s, h) && SessionOk(s, x);
    if step.Detach? && s.hubs[h].subs - {x} == {} {
      assert Concerns(s', x, h);
    } else {
      assert step.TearDown? ==> x !in s.hubs[h].subs && s.hubs[h].subs != {};
      assert s.hubs[h].subs - {x} != {};
      var z := Pick(s.hubs[h].subs - {x});
      assert SessionOk(s, z);
      assert Concerns(s', z, h);
    }
  }

  lemma SizeWith<K, V>(m: map<K, V>, k: K, v: V)
    ensures |m[k := v]| == |m| + if k in m then 0 else 1
  {}

  lemma SizeWithout<K, V>(m: map<K, V>, k: K)
    requires k in m
    ensures |m - {k}| == |m| - 1
  {}

  lemma RegistrySize(s: State, step: Step, s': State)
    requires s.hubGauge == |s.registry| && Next(s, step, s')
    ensures s'.hubGauge == |s'.registry|
  {
    match step
    case Subscribe(x, g, h) =>
      SizeWith(s.registry, g, h);
    case TearDown(x) =>
      if s'.registry != s.registry {
        SizeWithout(s.registry, s.sessions[x].game);
      }
    case _ =>
  }

  lemma SizeAfter<T>(a: set<T>, gone: set<T>, come: set<T>)
    requires gone <= a && come !! a
    ensures |a - gone + come| == |a| - |gone| + |come|
  {}

  /** The sessions that a section detaches, and those that it attaches. */
  ghost function Gone(s: State, step: Step): set<nat>
    requires Enabled(s, step)
  {
    match step
    case Broadcast(_, kicked) => kicked
    case Detach(x) => if x in s.hubs[s.sessions[x].phase.h].subs then {x} else {}
    case _ => {}
  }

  ghost function Come(step: Step): set<nat> {
    if step.Subscribe? then {step.session} else {}
  }

  lemma AttachedSize(s: State, step: Step, s': State)
    requires Inv(s) && Next(s, step, s')
    ensures s'.subGauge == |Attached(s')|
  {
    AttachedSets(s, step, s');
    SizeAfter(Attached(s), Gone(s, step), Come(step));
  }

  lemma SetsFrom<T>(a: set<T>, gone: set<T>, come: set<T>, b: set<T>)
    requires forall x :: x in b <==> (x in a && x !in gone) || x in come
    ensures b == a - gone + come
  {}

  lemma AttachedSets(s: State, step: Step, s': State)
    requires Inv(s) && Next(s, step, s')
    ensures Attached(s') == Attached(s) - Gone(s, step) + Come(step)
    ensures Gone(s, step) <= Attached(s) && Come(step) !! Attached(s)
  {
    forall x ensures x in Attached(s') <==> (x in Attached(s) && x !in Gone(s, step)) || x in Come(step) {
      AttachedSession(s, step, s', x);
    }
    SetsFrom(Attached(s), Gone(s, step), Come(step), Attached(s'));
    forall x | x in Gone(s, step) ensures x in Attached(s) { GoneWasAttached(s, step, x); }
  }

  lemma GoneWasAttached(s: State, step: Step, x: nat)
    requires Inv(s) && Enabled(s, step) && x in Gone(s, step)
    ensures x in Attached(s)
  {
    assert HubOk(s, if step.Detach? then s.sessions[step.session].phase.h else step.hub);
  }

  lemma AttachedOnSubscribe(s: State, y: nat, g: string, k: nat, s': State, x: nat)
    requires SessionOk(s, x) && RegistryOk(s, g) && Next(s, Subscribe(y, g, k), s')
    ensures x in Attached(s') <==> x == y || x in Attached(s)
  {}

  lemma AttachedOnBroadcast(s: State, h: nat, kicked: set<nat>, s': State, x: nat)
    requires SessionOk(s, x) && HubOk(s, h) && Next(s, Broadcast(h, kicked), s')
    ensures x in Attached(s') <==> x in Attached(s) && x !in kicked
  {}

  lemma AttachedOnDetach(s: State, y: nat, s': State, x: nat)
    requires SessionOk(s, x) && Next(s, Detach(y), s') && HubOk(s, s.sessions[y].phase.h)
    ensures x in Attached(s') <==> x in Attached(s) && (x == y ==> x !in s.hubs[s.sessions[y].phase.h].subs)
  {}

  lemma AttachedSession(s: State, step: Step, s': State, x: nat)
    requires Inv(s) && Next(s, step, s')
    ensures x in Attached(s') <==> (x in Attached(s) && x !in Gone(s, step)) || x in Come(step)
  {
    match step
    case Subscribe(y, g, k) => AttachedOnSubscribe(s, y, g, k, s', x);
    case Broadcast(h, kicked) => AttachedOnBroadcast(s, h, kicked, s', x);
    case Detach(y) => AttachedOnDetach(s, y, s', x);
    case _ =>
  }

  lemma StepKeeps(s: State, step: Step, s': State)
    requires Inv(s) && Next(s, step, s')
    ensures Inv(s')
  {
    forall g ensures RegistryOk(s', g) { RegistryKept(s, step, s', g); }
    forall h ensures HubOk(s', h) { HubKept(s, step, s', h); }
    forall x ensures SessionOk(s', x) { SessionKept(s, step, s', x); }
    RegistrySize(s, step, s');
    AttachedSize(s, step, s');
  }

  /** A run of the manager: states linked by sections, in any interleaving. */
  ghost predicate Run(states: seq<State>, steps: seq<Step>) {
    && |states| == |steps| + 1 && states[0] == Init()
    && forall i :: 0 <= i < |steps| ==> Next(states[i], steps[i], states[i + 1])
  }

  lemma {:induction false} RunKeeps(states: seq<State>, steps: seq<Step>, n: nat)
    requires Run(states, steps) && n < |states|
    ensures Inv(states[n])
  {
    if n == 0 {
      assert Attached(Init()) == {};
    } else {
      RunKeeps(states, steps, n - 1);
      StepKeeps(states[n - 1], steps[n - 1], states[n]);
    }
  }

  /** In every reachable state: a hub with subscribers is the registered one and is not cancelled,
      no hub is cancelled twice, and the gauges are the true counts. */
  lemma ManagerSafe(states: seq<State>, steps: seq<Step>, n: nat)
    requires Run(states, steps) && n < |states|
    ensures var s := states[n];
      && (forall h :: h in s.hubs && s.hubs[h].subs != {} ==> Registered(s, h) && s.hubs[h].cancels == 0)
      && (forall h :: h in s.hubs ==> s.hubs[h].cancels <= 1)
      && s.hubGauge == |s.registry| && s.subGauge == |Attached(s)|
  {
    RunKeeps(states, steps, n);
    var s := states[n];
    forall h | h in s.hubs
      ensures s.hubs[h].cancels <= 1 && (s.hubs[h].subs != {} ==> Registered(s, h) && s.hubs[h].cancels == 0)
    {
      assert HubOk(s, h);
    }
  }

  /** When every session has finished, no hub is left running: all are cancelled, once each. */
  lemma NoHubLeaks(states: seq<State>, steps: seq<Step>, n: nat)
    requires Run(states, steps) && n < |states|
    requires forall x :: x in states[n].sessions ==> states[n].sessions[x].phase == Finished
    ensures var s := states[n];
      s.registry == map[] && s.hubGauge == 0 && s.subGauge == 0 && forall h :: h in s.hubs ==> s.hubs[h].cancels == 1
  {
    RunKeeps(states, steps, n);
    var s := states[n];
    forall g ensures g !in s.registry {
      assert RegistryOk(s, g);
    }
    assert s.registry == map[];
    forall h | h in s.hubs ensures s.hubs[h].cancels == 1 && s.hubs[h].subs == {} {
      assert HubOk(s, h);
    }
    assert Attached(s) == {};
  }

  /** No section is ever blocked by a missing hub: a session inside Unsubscribe can always go on. */
  lemma SectionsEnabled(states: seq<State>, steps: seq<Step>, n: nat, x: nat)
    requires Run(states, steps) && n < |states| && x in states[n].sessions
    ensures match states[n].sessions[x].phase
      case Watching => Enabled(states[n], Lookup(x))
      case Found(_) => Enabled(states[n], Detach(x))
      case SawEmpty(_) => Enabled(states[n], TearDown(x))
      case Finished => true
  {
    RunKeeps(states, steps, n);
    assert SessionOk(states[n], x);
  }
}
